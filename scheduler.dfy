/**
 * `SchedulerUseCase` of src/application/usecases/scheduler_usecase.ts: it
 * builds the list of social-network posters from the application config,
 * fetches the unposted articles, posts every article through every poster
 * and marks the article as posted in Notion.
 *
 * Two status layers meet in `execute`. Each poster's promise is chained with
 * `.then` and `.catch` that both resolve with an object carrying a `status`
 * tag (the inner layer, `Tagged`); `Promise.allSettled` then reports how each
 * chained promise settled (the outer layer, `Settled`). The success flag reads
 * the outer layer. Because `.catch` resolves, the outer status is always
 * `'fulfilled'`, and every article is marked as soon as there is one poster,
 * whatever the posts did; the lemmas below prove this, and prove that the
 * inner tag is the one that records whether some post succeeded.
 */
module Scheduler {
  import opened Wrappers
  import opened Domain
  import opened ConfigService

  /** How a promise settles: resolved with a value, or rejected with a reason. */
  datatype Settled<T> = Fulfilled(value: T) | Rejected(reason: string)

  /** The object a chained posting promise resolves with: the inner status tag and the poster's class name. */
  datatype Tagged =
    | TaggedFulfilled(posterName: string)
    | TaggedRejected(reason: string, posterName: string)

  /** What the collaborators of one `execute()` call answer. */
  datatype World = World(
    agent: Option<string> -> Outcome,        // `new AtpAgent({ service })` in the `BlueskyPoster` constructor
    login: Outcome,                          // `BlueskyPoster.login`
    fetched: Result<seq<Article>, string>,   // `getUnpostedArticles()`
    post: (Poster, Article) -> Outcome,      // `postArticle` of each poster
    mark: string -> Outcome)                 // `markArticleAsPosted(id)`

  /** `poster.constructor.name`. */
  function PosterName(poster: Poster): string
  {
    match poster
    case Bluesky => "BlueskyPoster"
    case Twitter => "TwitterPoster"
  }

  /** The settlement of the promise `postArticle` returns. */
  function Settle(outcome: Outcome): Settled<()>
  {
    match outcome
    case Pass => Fulfilled(())
    case Fail(reason) => Rejected(reason)
  }

  /** `promise.then(onFulfilled)`, for a callback that does not throw. */
  function Then<T, U>(promise: Settled<T>, onFulfilled: T -> U): (chained: Settled<U>)
    ensures chained.Fulfilled? <==> promise.Fulfilled?
    ensures promise.Fulfilled? ==> chained.value == onFulfilled(promise.value)
    ensures promise.Rejected? ==> chained.reason == promise.reason
  {
    match promise
    case Fulfilled(v) => Fulfilled(onFulfilled(v))
    case Rejected(reason) => Rejected(reason)
  }

  /** `promise.catch(onRejected)`, for a callback that does not throw: the chained promise always resolves. */
  function Catch<T>(promise: Settled<T>, onRejected: string -> T): (chained: Settled<T>)
    ensures chained.Fulfilled?
    ensures promise.Fulfilled? ==> chained == promise
    ensures promise.Rejected? ==> chained.value == onRejected(promise.reason)
  {
    match promise
    case Fulfilled(v) => Fulfilled(v)
    case Rejected(reason) => Fulfilled(onRejected(reason))
  }

  /**
   * The `allSettled` entry of one poster's attempt: `postArticle` chained
   * with the `.then` that tags success and the `.catch` that tags failure.
   */
  function Attempt(poster: Poster, outcome: Outcome): (settled: Settled<Tagged>)
    ensures settled.Fulfilled?
    ensures settled.value.TaggedFulfilled? <==> outcome.Pass?
    ensures settled.value.posterName == PosterName(poster)
    ensures outcome.Fail? ==> settled.value.reason == outcome.reason
  {
    var name := PosterName(poster);
    Catch(Then(Settle(outcome), (_: ()) => TaggedFulfilled(name)), (e: string) => TaggedRejected(e, name))
  }

  /** The `allSettled` results for one article: one entry per poster, in poster order. */
  function SettleAll(posters: seq<Poster>, article: Article, post: (Poster, Article) -> Outcome): (results: seq<Settled<Tagged>>)
    ensures |results| == |posters|
    ensures forall j :: 0 <= j < |posters| ==> results[j] == Attempt(posters[j], post(posters[j], article))
  {
    if posters == [] then []
    else
      var last := posters[|posters| - 1];
      SettleAll(posters[..|posters| - 1], article, post) + [Attempt(last, post(last, article))]
  }

  /** The decision `execute` takes: some `allSettled` entry has the outer status `'fulfilled'`. */
  predicate SomeFulfilled(results: seq<Settled<Tagged>>)
  {
    exists k :: 0 <= k < |results| && results[k].Fulfilled?
  }

  /** The decision the log messages describe: some entry carries the inner tag `'fulfilled'`. */
  predicate SomeTaggedFulfilled(results: seq<Settled<Tagged>>)
  {
    exists k :: 0 <= k < |results| && results[k].Fulfilled? && results[k].value.TaggedFulfilled?
  }

  /** The outer status is `'fulfilled'` for every attempt, so the decision only asks whether there is a poster. */
  lemma OuterDecisionIgnoresOutcomes(posters: seq<Poster>, article: Article, post: (Poster, Article) -> Outcome)
    ensures SomeFulfilled(SettleAll(posters, article, post)) <==> |posters| > 0
  {
    var results := SettleAll(posters, article, post);
    if |posters| > 0 {
      assert results[0].Fulfilled?;
    }
  }

  /** The inner tag is what records whether at least one poster succeeded. */
  lemma InnerDecisionIsAtLeastOneSuccess(posters: seq<Poster>, article: Article, post: (Poster, Article) -> Outcome)
    ensures SomeTaggedFulfilled(SettleAll(posters, article, post))
        <==> exists j :: 0 <= j < |posters| && post(posters[j], article).Pass?
  {
    var results := SettleAll(posters, article, post);
    if exists j :: 0 <= j < |posters| && post(posters[j], article).Pass? {
      var j :| 0 <= j < |posters| && post(posters[j], article).Pass?;
      assert results[j].Fulfilled? && results[j].value.TaggedFulfilled?;
    }
  }

  /** The posters `initializeSnsPosters` appends: Bluesky if configured and logged in, then Twitter if configured. */
  function NewPosters(config: AppConfig, login: Outcome): (posters: seq<Poster>)
    ensures Bluesky in posters <==> config.bluesky.Some? && login.Pass?
    ensures Twitter in posters <==> config.twitter.Some?
    ensures forall i, j :: 0 <= i < j < |posters| ==> posters[i] == Bluesky && posters[j] == Twitter
  {
    (if config.bluesky.Some? && login.Pass? then [Bluesky] else [])
    + (if config.twitter.Some? then [Twitter] else [])
  }

  /**
   * The error `new BlueskyPoster(config.bluesky.service)` throws, outside the
   * `try` of `initializeSnsPosters`, when Bluesky is configured and the agent
   * cannot be built for that service (a service that is not a URL, such as `""`).
   */
  function ConstructionError(config: AppConfig, agent: Option<string> -> Outcome): Option<string>
  {
    if config.bluesky.Some? && agent(config.bluesky.value.service).Fail? then
      Some(agent(config.bluesky.value.service).reason)
    else None
  }

  /** The calls of `initializeSnsPosters`: a login when Bluesky is configured. */
  function LoginCalls(config: AppConfig): seq<Call>
  {
    if config.bluesky.Some? then [Login(Bluesky)] else []
  }

  /** The calls for one article: one post per poster, then a mark when the decision holds. */
  function ArticleCalls(posters: seq<Poster>, article: Article, post: (Poster, Article) -> Outcome): seq<Call>
  {
    PostCalls(posters, article)
    + (if SomeFulfilled(SettleAll(posters, article, post)) then [Mark(article.id)] else [])
  }

  /** The calls of the article loop, article by article in input order. */
  function RunCalls(posters: seq<Poster>, articles: seq<Article>, post: (Poster, Article) -> Outcome): seq<Call>
  {
    if articles == [] then []
    else RunCalls(posters, articles[..|articles| - 1], post) + ArticleCalls(posters, articles[|articles| - 1], post)
  }

  /** The calls of the part of `execute()` after initialisation, given the poster list. */
  function ProcessCalls(posters: seq<Poster>, world: World): seq<Call>
  {
    if posters == [] then []
    else
      [FetchArticles] + match world.fetched
        case Failure(_) => []
        case Success(articles) => RunCalls(posters, articles, world.post)
  }

  /** The calls of one `execute()` on an instance whose poster list is `before`. */
  function ExecuteCalls(before: seq<Poster>, config: AppConfig, world: World): seq<Call>
  {
    LoginCalls(config) + ProcessCalls(before + NewPosters(config, world.login), world)
  }

  /** With every post rejected, the article is still marked, while the inner tags say no post succeeded. */
  lemma AllFailuresStillMarked(posters: seq<Poster>, article: Article, post: (Poster, Article) -> Outcome)
    requires |posters| > 0
    requires forall j :: 0 <= j < |posters| ==> post(posters[j], article).Fail?
    ensures ArticleCalls(posters, article, post) == PostCalls(posters, article) + [Mark(article.id)]
    ensures !SomeTaggedFulfilled(SettleAll(posters, article, post))
  {
    OuterDecisionIgnoresOutcomes(posters, article, post);
    InnerDecisionIsAtLeastOneSuccess(posters, article, post);
  }

  /**
   * The calls for one article if the mark followed the inner tags, the
   * decision the log messages describe; `execute` does not take it.
   */
  function TaggedArticleCalls(posters: seq<Poster>, article: Article, post: (Poster, Article) -> Outcome): seq<Call>
  {
    PostCalls(posters, article)
    + (if SomeTaggedFulfilled(SettleAll(posters, article, post)) then [Mark(article.id)] else [])
  }

  /** Under the inner-tag decision, an article is marked exactly when one of its posts succeeded. */
  lemma TaggedDecisionMarksIffSomePostPasses(posters: seq<Poster>, article: Article, post: (Poster, Article) -> Outcome)
    ensures Marks(TaggedArticleCalls(posters, article, post))
         == if exists j :: 0 <= j < |posters| && post(posters[j], article).Pass? then [article.id] else []
  {
    InnerDecisionIsAtLeastOneSuccess(posters, article, post);
    PostCallsProjections(posters, article);
    var mark := [Mark(article.id)];
    assert Marks(mark) == [article.id] by {
      assert mark[..0] == [];
    }
    MarksAppend(PostCalls(posters, article), mark);
    MarksAppend(PostCalls(posters, article), []);
  }

  /**
   * Where the two decisions part: with every post rejected, `execute` still
   * marks the article, while the inner-tag decision would leave it unmarked.
   */
  lemma AllFailuresMarkedUnlikeTaggedDecision(posters: seq<Poster>, article: Article, post: (Poster, Article) -> Outcome)
    requires |posters| > 0
    requires forall j :: 0 <= j < |posters| ==> post(posters[j], article).Fail?
    ensures Marks(ArticleCalls(posters, article, post)) == [article.id]
    ensures Marks(TaggedArticleCalls(posters, article, post)) == []
  {
    ArticleCallsWithPosters(posters, article, post);
    TaggedDecisionMarksIffSomePostPasses(posters, article, post);
  }

  /** With at least one poster, one article is posted through every poster and then marked, whatever the posts answer. */
  lemma ArticleCallsWithPosters(posters: seq<Poster>, article: Article, post: (Poster, Article) -> Outcome)
    requires |posters| > 0
    ensures ArticleCalls(posters, article, post) == PostCalls(posters, article) + [Mark(article.id)]
    ensures Posts(ArticleCalls(posters, article, post)) == seq(|posters|, j requires 0 <= j < |posters| => (posters[j], article))
    ensures Marks(ArticleCalls(posters, article, post)) == [article.id]
  {
    OuterDecisionIgnoresOutcomes(posters, article, post);
    PostCallsProjections(posters, article);
    var calls := PostCalls(posters, article);
    var mark := [Mark(article.id)];
    assert Posts(mark) == [] && Marks(mark) == [article.id] by {
      assert mark[..0] == [];
    }
    PostsAppend(calls, mark);
    MarksAppend(calls, mark);
  }

  /**
   * With at least one poster, the article loop posts every article through
   * every poster and marks every article, in input order, whatever the posts
   * answer.
   */
  lemma {:induction false} RunCallsWithPosters(posters: seq<Poster>, articles: seq<Article>, post: (Poster, Article) -> Outcome)
    requires |posters| > 0
    ensures Posts(RunCalls(posters, articles, post)) == Pairs(posters, articles)
    ensures Marks(RunCalls(posters, articles, post)) == Ids(articles)
    decreases |articles|
  {
    if articles != [] {
      var init := articles[..|articles| - 1];
      var last := articles[|articles| - 1];
      RunCallsWithPosters(posters, init, post);
      ArticleCallsWithPosters(posters, last, post);
      PostsAppend(RunCalls(posters, init, post), ArticleCalls(posters, last, post));
      MarksAppend(RunCalls(posters, init, post), ArticleCalls(posters, last, post));
    }
  }

  /** Without a poster, `execute()` stops after initialisation: no fetch, no post, no mark. */
  lemma NoPostersNoFetch(before: seq<Poster>, config: AppConfig, world: World)
    requires before + NewPosters(config, world.login) == []
    ensures ExecuteCalls(before, config, world) == LoginCalls(config)
    ensures FetchArticles !in ExecuteCalls(before, config, world)
    ensures Posts(ExecuteCalls(before, config, world)) == [] && Marks(ExecuteCalls(before, config, world)) == []
  {
    var calls := LoginCalls(config);
    assert calls + [] == calls;
    NoPostsNoMarks(calls);
  }

  /** When fetching the articles fails, `execute()` returns after the fetch: no post, no mark. */
  lemma FetchFailureNoPostOrMark(before: seq<Poster>, config: AppConfig, world: World)
    requires world.fetched.Failure?
    ensures var posters := before + NewPosters(config, world.login);
      ExecuteCalls(before, config, world) == LoginCalls(config) + (if posters == [] then [] else [FetchArticles])
    ensures Posts(ExecuteCalls(before, config, world)) == [] && Marks(ExecuteCalls(before, config, world)) == []
  {
    var posters := before + NewPosters(config, world.login);
    var login := LoginCalls(config);
    var process := ProcessCalls(posters, world);
    assert process == (if posters == [] then [] else [FetchArticles]) by {
      if posters != [] {
        assert [FetchArticles] + [] == [FetchArticles];
      }
    }
    NoPostsNoMarks(login);
    NoPostsNoMarks(process);
    PostsAppend(login, process);
    MarksAppend(login, process);
  }

  /**
   * Past initialisation, with a poster and a successful fetch, every fetched
   * article is posted through every poster and marked, in order, whatever
   * the posts and the marks answer.
   */
  lemma ProcessPostsAndMarksAll(posters: seq<Poster>, world: World)
    requires posters != [] && world.fetched.Success?
    ensures Posts(ProcessCalls(posters, world)) == Pairs(posters, world.fetched.value)
    ensures Marks(ProcessCalls(posters, world)) == Ids(world.fetched.value)
  {
    var run := RunCalls(posters, world.fetched.value, world.post);
    RunCallsWithPosters(posters, world.fetched.value, world.post);
    NoPostsNoMarks([FetchArticles]);
    PostsAppend([FetchArticles], run);
    MarksAppend([FetchArticles], run);
  }

  /**
   * With a poster and a successful fetch, `execute()` posts every fetched
   * article through every poster and marks every one of them, in order,
   * whatever the posts and the marks answer.
   */
  lemma ExecuteMarksEveryArticle(before: seq<Poster>, config: AppConfig, world: World)
    requires before + NewPosters(config, world.login) != []
    requires world.fetched.Success?
    ensures Posts(ExecuteCalls(before, config, world)) == Pairs(before + NewPosters(config, world.login), world.fetched.value)
    ensures Marks(ExecuteCalls(before, config, world)) == Ids(world.fetched.value)
  {
    var posters := before + NewPosters(config, world.login);
    var login := LoginCalls(config);
    ProcessPostsAndMarksAll(posters, world);
    NoPostsNoMarks(login);
    PostsAppend(login, ProcessCalls(posters, world));
    MarksAppend(login, ProcessCalls(posters, world));
  }

  /**
   * The `map` over the posters in `execute`: one `postArticle` per poster,
   * in poster order, each chained into its `allSettled` entry. A rejection
   * does not stop the remaining attempts.
   */
  method AttemptAll(posters: seq<Poster>, article: Article, post: (Poster, Article) -> Outcome)
    returns (results: seq<Settled<Tagged>>, calls: seq<Call>)
    ensures results == SettleAll(posters, article, post)
    ensures calls == PostCalls(posters, article)
  {
    results := [];
    calls := [];
    var j := 0;
    while j < |posters|
      invariant 0 <= j <= |posters|
      invariant results == SettleAll(posters[..j], article, post)
      invariant calls == PostCalls(posters[..j], article)
    {
      assert posters[..j + 1][..j] == posters[..j];
      calls := calls + [Post(posters[j], article)];
      results := results + [Attempt(posters[j], post(posters[j], article))];
      j := j + 1;
    }
    assert posters[..j] == posters;
  }

  /** The `forEach` over the `allSettled` results that raises the success flag on an outer `'fulfilled'` status. */
  method AnyFulfilled(results: seq<Settled<Tagged>>) returns (postSuccessfulInAtLeastOneSns: bool)
    ensures postSuccessfulInAtLeastOneSns <==> SomeFulfilled(results)
  {
    postSuccessfulInAtLeastOneSns := false;
    var k := 0;
    while k < |results|
      invariant 0 <= k <= |results|
      invariant postSuccessfulInAtLeastOneSns <==> SomeFulfilled(results[..k])
    {
      if results[k].Fulfilled? {
        postSuccessfulInAtLeastOneSns := true;
      }
      assert results[..k + 1][k] == results[k];
      assert forall m :: 0 <= m < k ==> results[..k + 1][m] == results[..k][m];
      k := k + 1;
    }
    assert results[..k] == results;
  }

  /**
   * One iteration of the article loop in `execute`: post the article through
   * every poster, read the `allSettled` statuses, and mark the article when
   * the flag is raised. A failed mark is caught, so it changes nothing here.
   */
  method PostAndMark(posters: seq<Poster>, article: Article, world: World) returns (calls: seq<Call>)
    ensures calls == ArticleCalls(posters, article, world.post)
  {
    var results, postCalls := AttemptAll(posters, article, world.post);
    calls := postCalls;
    var postSuccessfulInAtLeastOneSns := AnyFulfilled(results);
    if postSuccessfulInAtLeastOneSns {
      calls := calls + [Mark(article.id)];
      // A failed update is caught and logged; the loop goes on.
      var updateResult := world.mark(article.id);
    } else {
      assert calls + [] == calls;
    }
  }

  /** The article loop of `execute`: every article in input order, whatever the earlier ones did. */
  method PostAndMarkAll(posters: seq<Poster>, articlesToPost: seq<Article>, world: World) returns (calls: seq<Call>)
    ensures calls == RunCalls(posters, articlesToPost, world.post)
  {
    calls := [];
    var i := 0;
    while i < |articlesToPost|
      invariant 0 <= i <= |articlesToPost|
      invariant calls == RunCalls(posters, articlesToPost[..i], world.post)
    {
      var article := articlesToPost[i];
      var articleCalls := PostAndMark(posters, article, world);
      calls := calls + articleCalls;
      assert articlesToPost[..i + 1][..i] == articlesToPost[..i];
      i := i + 1;
    }
    assert articlesToPost[..i] == articlesToPost;
  }

  /**
   * The part of `execute` after initialisation: nothing without a poster;
   * otherwise fetch the articles, stop when that fails, and run the
   * article loop.
   */
  method Process(posters: seq<Poster>, world: World) returns (calls: seq<Call>)
    ensures calls == ProcessCalls(posters, world)
  {
    if |posters| == 0 {
      return [];
    }
    calls := [FetchArticles];
    var articlesToPost: seq<Article>;
    match world.fetched {
      case Failure(_) =>
        assert calls + [] == calls;
        return;
      case Success(articles) =>
        articlesToPost := articles;
    }
    var articleCalls := PostAndMarkAll(posters, articlesToPost, world);
    calls := calls + articleCalls;
  }

  /** A use case with its application config and its list of posters, which only ever grows. */
  class SchedulerUseCase {
    const appConfig: AppConfig
    var snsPosters: seq<Poster>

    constructor(config: AppConfig)
      ensures appConfig == config
      ensures snsPosters == []
    {
      appConfig := config;
      snsPosters := [];
    }

    /**
     * `initializeSnsPosters()`: builds the Bluesky poster when Bluesky is
     * configured (a failing construction is thrown), logs it in and appends
     * it when the login succeeds (a failed login is caught), then appends
     * Twitter when it is configured. Nothing is ever removed.
     */
    method InitializeSnsPosters(agent: Option<string> -> Outcome, login: Outcome)
      returns (calls: seq<Call>, thrown: Option<string>)
      modifies this
      ensures thrown == ConstructionError(appConfig, agent)
      ensures thrown.Some? ==> calls == [] && snsPosters == old(snsPosters)
      ensures thrown.None? ==> snsPosters == old(snsPosters) + NewPosters(appConfig, login)
      ensures thrown.None? ==> calls == LoginCalls(appConfig)
    {
      calls := [];
      thrown := None;
      if appConfig.bluesky.Some? {
        var constructed := agent(appConfig.bluesky.value.service);
        if constructed.Fail? {
          return calls, Some(constructed.reason);
        }
        calls := calls + [Login(Bluesky)];
        if login.Pass? {
          snsPosters := snsPosters + [Bluesky];
        }
      }
      if appConfig.twitter.Some? {
        snsPosters := snsPosters + [Twitter];
      }
    }

    /**
     * `execute()`: initialises the posters (rejecting, with no call made, when
     * the Bluesky poster cannot be built), stops when there is none, fetches
     * the articles (stopping when that fails), then for each article posts it
     * through every poster, reads the `allSettled` statuses and marks the
     * article when one of them is `'fulfilled'`; a failed mark is caught.
     */
    method Execute(world: World) returns (calls: seq<Call>, rejection: Option<string>)
      modifies this
      ensures rejection == ConstructionError(appConfig, world.agent)
      ensures rejection.Some? ==> calls == [] && snsPosters == old(snsPosters)
      ensures rejection.None? ==> snsPosters == old(snsPosters) + NewPosters(appConfig, world.login)
      ensures rejection.None? ==> calls == ExecuteCalls(old(snsPosters), appConfig, world)
    {
      calls, rejection := InitializeSnsPosters(world.agent, world.login);
      if rejection.Some? {
        return;
      }
      var processCalls := Process(snsPosters, world);
      calls := calls + processCalls;
    }
  }
}

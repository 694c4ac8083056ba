/**
 * The Notion webhook handler of src/index.ts: it acknowledges Notion's
 * one-time verification token, rejects requests whose signature does not
 * verify, reads the configuration, fetches the unposted articles and, for
 * each one in order, asks Gemini for a summary (stored when non-empty),
 * posts the article to Bluesky and X and marks it as posted.
 *
 * `JSON.parse`, the HMAC, the Notion queries and updates, Gemini and the
 * posters are oracles held by a `World`. A thrown error is a `Failure`
 * carrying its message.
 */
module Webhook {
  import opened Wrappers
  import opened Js
  import opened Domain
  import opened EnvConfig
  import Notion

  /** What reading `verification_token` on the parsed body gives. */
  datatype TokenField = Absent | StringValue(token: string) | OtherValue

  /**
   * `JSON.parse(rawBody).verification_token`: the parse throws on malformed
   * JSON, and reading the member throws when the body is `null`; any other
   * value gives the member's JavaScript type.
   */
  datatype ParseResult = Throws | Parsed(verificationToken: TokenField)

  /** The parts of the incoming request the handler reads. */
  datatype Request = Request(rawBody: string, signatureHeader: Option<string>)

  /** The oracles one handler call consults. */
  datatype World = World(
    parse: string -> ParseResult,                 // `JSON.parse` and the member read
    hmac: Notion.Hmac,                            // HMAC-SHA256 of crypto-js
    fetched: Result<seq<Article>, string>,        // `NotionRepository.getUnpostedArticles()`
    summarize: string -> Result<string, string>,  // Gemini `generateContent` and `response.text()`
    updateSummary: (string, string) -> Outcome,   // `NotionRepository.updateArticleSummary`
    post: (Poster, Article) -> Outcome,           // `postArticle` of each poster
    mark: string -> Outcome)                      // `NotionRepository.markArticleAsPosted`

  /** The `{ message, status }` the handler returns. */
  datatype Response = Response(message: string, status: int)

  /** What a handler call returns (or throws) and the calls it made to its collaborators. */
  datatype Run = Run(result: Result<Response, string>, calls: seq<Call>)

  const VerificationReceived: Response := Response("Verification token received. Check Worker logs for the token value.", 200)
  const InvalidSignature: Response := Response("Invalid webhook signature", 401)
  const Received: Response := Response("Webhook received successfully!", 200)

  /** The instruction sent to Gemini in front of the article URL. */
  const SummaryPrompt: string := "以下のURLの記事を日本語で3行以内で要約してください。要約結果だけを返してください。:\n\n"

  /** The posters the handler builds: always Bluesky, then X. */
  const Posters: seq<Poster> := [Bluesky, Twitter]

  /** `extractVerificationToken(rawBody)`: the token when the body parses and the member is a string, otherwise none. */
  function ExtractVerificationToken(rawBody: string, parse: string -> ParseResult): (token: Option<string>)
    ensures token.Some? <==> parse(rawBody).Parsed? && parse(rawBody).verificationToken.StringValue?
    ensures token.Some? ==> token.value == parse(rawBody).verificationToken.token
  {
    match parse(rawBody)
    case Throws => None
    case Parsed(StringValue(token)) => Some(token)
    case Parsed(_) => None
  }

  /**
   * The first error of the four configuration reads that follow the
   * signature check, in the order the handler makes them: Notion, Bluesky,
   * X, Gemini.
   */
  function ConfigError(env: Env): (error: Option<string>)
    ensures error.None? <==> ProvideNotionConfig(env).Success? && ProvideBlueskyConfig(env).Success?
                             && ProvideTwitterConfig(env).Success? && ProvideGeminiConfig(env).Success?
    ensures ProvideNotionConfig(env).Failure? ==> error == Some(ProvideNotionConfig(env).error)
    ensures ProvideNotionConfig(env).Success? && ProvideBlueskyConfig(env).Failure?
            ==> error == Some(ProvideBlueskyConfig(env).error)
    ensures (ProvideNotionConfig(env).Success? && ProvideBlueskyConfig(env).Success?
             && ProvideTwitterConfig(env).Failure?) ==> error == Some(ProvideTwitterConfig(env).error)
    ensures (ProvideNotionConfig(env).Success? && ProvideBlueskyConfig(env).Success?
             && ProvideTwitterConfig(env).Success? && ProvideGeminiConfig(env).Failure?)
            ==> error == Some(ProvideGeminiConfig(env).error)
  {
    if ProvideNotionConfig(env).Failure? then Some(ProvideNotionConfig(env).error)
    else if ProvideBlueskyConfig(env).Failure? then Some(ProvideBlueskyConfig(env).error)
    else if ProvideTwitterConfig(env).Failure? then Some(ProvideTwitterConfig(env).error)
    else if ProvideGeminiConfig(env).Failure? then Some(ProvideGeminiConfig(env).error)
    else None
  }

  /** `if (summary) updateArticleSummary(id, summary.trim())`: the update made for Gemini's answer, if any. */
  function StoredSummary(articleId: string, answer: Result<string, string>): (calls: seq<Call>)
    ensures |calls| <= 1
    ensures calls != [] <==> answer.Success? && answer.value != ""
    ensures calls != [] ==> calls[0] == UpdateSummary(articleId, Trim(answer.value))
  {
    match answer
    case Failure(_) => []
    case Success(summary) => if summary != "" then [UpdateSummary(articleId, Trim(summary))] else []
  }

  /**
   * The summary step for one article, asking Gemini with `prompt`: ask only
   * when the URL is not blank, store a non-empty answer trimmed.
   */
  function SummaryStep(prompt: string, article: Article, world: World): (calls: seq<Call>)
    ensures |calls| <= 2
    ensures calls != [] ==> calls[0] == Summarize(prompt)
  {
    if article.url != "" && Trim(article.url) != "" then
      [Summarize(prompt)] + StoredSummary(article.id, world.summarize(prompt))
    else []
  }

  /** The summary step makes only Gemini requests and summary updates. */
  lemma SummaryStepOnlySummarizesAndUpdates(prompt: string, article: Article, world: World)
    ensures forall k :: 0 <= k < |SummaryStep(prompt, article, world)| ==>
              SummaryStep(prompt, article, world)[k].Summarize? || SummaryStep(prompt, article, world)[k].UpdateSummary?
  {
    var calls := SummaryStep(prompt, article, world);
    if calls != [] {
      SummaryStoresTrimmedAnswer(prompt, article, world);
    }
    RequestThenUpdate(calls);
  }

  /** A request, then at most one update: calls of the two summary kinds only. */
  lemma RequestThenUpdate(calls: seq<Call>)
    requires |calls| <= 2
    requires calls != [] ==> calls[0].Summarize?
    requires |calls| == 2 ==> calls[1].UpdateSummary?
    ensures forall k :: 0 <= k < |calls| ==> calls[k].Summarize? || calls[k].UpdateSummary?
  {
  }

  /** Gemini is asked exactly when the URL has a character that is not white space. */
  lemma SummaryAskedIffUrlNotBlank(prompt: string, article: Article, world: World)
    ensures SummaryStep(prompt, article, world) != [] <==> !Blank(article.url)
  {
    TrimEmptyIffBlank(article.url);
  }

  /**
   * Once Gemini is asked, a second call stores its answer, trimmed, exactly
   * when that answer is a non-empty string.
   */
  lemma SummaryStoresTrimmedAnswer(prompt: string, article: Article, world: World)
    requires SummaryStep(prompt, article, world) != []
    ensures |SummaryStep(prompt, article, world)| == 2
        <==> world.summarize(prompt).Success? && world.summarize(prompt).value != ""
    ensures |SummaryStep(prompt, article, world)| == 2 ==>
              SummaryStep(prompt, article, world)[1] == UpdateSummary(article.id, Trim(world.summarize(prompt).value))
  {
  }

  /** The summary step of the handler, with the prompt asking for a summary of the article's URL. */
  function SummaryCalls(article: Article, world: World): seq<Call>
  {
    SummaryStep(SummaryPrompt + article.url, article, world)
  }

  /** The calls for one article: the summary step, one post per poster, then the mark. */
  function ArticleCalls(posters: seq<Poster>, article: Article, world: World): seq<Call>
  {
    SummaryCalls(article, world) + PostCalls(posters, article) + [Mark(article.id)]
  }

  /** The error of the first failing mark among `articles`: the loop stops there and the handler rethrows it. */
  function FirstMarkFailure(articles: seq<Article>, mark: string -> Outcome): Option<string>
  {
    if articles == [] then None
    else
      match FirstMarkFailure(articles[..|articles| - 1], mark)
      case Some(e) => Some(e)
      case None =>
        match mark(articles[|articles| - 1].id)
        case Pass => None
        case Fail(reason) => Some(reason)
  }

  /** How many articles the loop reaches: all of them, or up to and including the one whose mark fails. */
  function Reached(articles: seq<Article>, mark: string -> Outcome): (reached: nat)
    ensures reached <= |articles|
  {
    if articles == [] then 0
    else if FirstMarkFailure(articles[..|articles| - 1], mark).Some? then Reached(articles[..|articles| - 1], mark)
    else |articles|
  }

  /** The calls of the article loop: the calls for each article it reaches, in order. */
  function LoopCalls(posters: seq<Poster>, articles: seq<Article>, world: World): seq<Call>
  {
    if articles == [] then []
    else
      var init := articles[..|articles| - 1];
      if FirstMarkFailure(init, world.mark).Some? then LoopCalls(posters, init, world)
      else LoopCalls(posters, init, world) + ArticleCalls(posters, articles[|articles| - 1], world)
  }

  /**
   * The article loop: every article in order until a mark fails, whose
   * error the handler rethrows; posting and summary failures are absorbed.
   */
  function ArticlesLoop(posters: seq<Poster>, articles: seq<Article>, world: World): Run
  {
    var result := match FirstMarkFailure(articles, world.mark)
      case None => Success(Received)
      case Some(e) => Failure(e);
    Run(result, LoopCalls(posters, articles, world))
  }

  /**
   * The `try` block of the handler: fetch the articles (a failure is
   * rethrown), answer at once when there is none, otherwise run the loop.
   */
  function FetchAndProcess(world: World): Run
  {
    match world.fetched
    case Failure(e) => Run(Failure(e), [FetchArticles])
    case Success(articles) =>
      if articles == [] then Run(Success(Received), [FetchArticles])
      else
        var loop := ArticlesLoop(Posters, articles, world);
        Run(loop.result, [FetchArticles] + loop.calls)
  }

  /** After the signature check: the four configurations of index.ts:59-62, then the `try` block. */
  function AfterSignature(env: Env, world: World): Run
  {
    match ConfigError(env)
    case Some(e) => Run(Failure(e), [])
    case None => FetchAndProcess(world)
  }

  /**
   * `webhookHandler` on one request, in the order of its branches, with the
   * signature checked under the configured `NOTION_VERIFICATION_TOKEN`.
   */
  function Handle(request: Request, env: Env, world: World): Run
  {
    if Truthy(ExtractVerificationToken(request.rawBody, world.parse)) then Run(Success(VerificationReceived), [])
    else
      match ProvideNotionWebhookConfig(env)
      case Failure(e) => Run(Failure(e), [])
      case Success(webhookConfig) =>
        if !Notion.SignatureMatches(Some(webhookConfig.verificationToken), request.signatureHeader, request.rawBody, world.hmac) then
          Run(Success(InvalidSignature), [])
        else AfterSignature(env, world)
  }

  /**
   * `webhookHandler` as written: index.ts:53 destructures `notionVerificationToken`
   * from a config whose only field is `NotionVerificationToken` (config.ts:72),
   * so the signature is checked under the key `undefined`.
   */
  function HandleAsWritten(request: Request, env: Env, world: World): Run
  {
    if Truthy(ExtractVerificationToken(request.rawBody, world.parse)) then Run(Success(VerificationReceived), [])
    else
      match ProvideNotionWebhookConfig(env)
      case Failure(e) => Run(Failure(e), [])
      case Success(_) =>
        if !Notion.SignatureMatches(None, request.signatureHeader, request.rawBody, world.hmac) then
          Run(Success(InvalidSignature), [])
        else AfterSignature(env, world)
  }

  // ---------------------------------------------------------------------
  // Properties
  // ---------------------------------------------------------------------

  /**
   * The calls for one article, whatever its summary step made (only
   * summary requests and updates): one post per poster, then the mark.
   */
  lemma ArticleCallsShape(summary: seq<Call>, posters: seq<Poster>, article: Article)
    requires forall k :: 0 <= k < |summary| ==> summary[k].Summarize? || summary[k].UpdateSummary?
    ensures Posts(summary + PostCalls(posters, article) + [Mark(article.id)])
         == seq(|posters|, j requires 0 <= j < |posters| => (posters[j], article))
    ensures Marks(summary + PostCalls(posters, article) + [Mark(article.id)]) == [article.id]
  {
    var posts := PostCalls(posters, article);
    var mark := [Mark(article.id)];
    NoPostsNoMarks(summary);
    PostCallsProjections(posters, article);
    assert Posts(mark) == [] && Marks(mark) == [article.id] by {
      assert mark[..0] == [];
    }
    PostsAppend(summary, posts);
    MarksAppend(summary, posts);
    PostsAppend(summary + posts, mark);
    MarksAppend(summary + posts, mark);
  }

  /** One article is posted through every poster, then marked, whatever Gemini and the posters answer. */
  lemma ArticleCallsProjections(posters: seq<Poster>, article: Article, world: World)
    ensures Posts(ArticleCalls(posters, article, world)) == seq(|posters|, j requires 0 <= j < |posters| => (posters[j], article))
    ensures Marks(ArticleCalls(posters, article, world)) == [article.id]
  {
    SummaryStepOnlySummarizesAndUpdates(SummaryPrompt + article.url, article, world);
    ArticleCallsShape(SummaryCalls(article, world), posters, article);
  }

  /** Once the loop has failed on a prefix of the articles, it ends with that failure and those calls. */
  lemma {:induction false} LoopFailurePersists(posters: seq<Poster>, articles: seq<Article>, k: nat, world: World)
    requires k <= |articles| && FirstMarkFailure(articles[..k], world.mark).Some?
    ensures FirstMarkFailure(articles, world.mark) == FirstMarkFailure(articles[..k], world.mark)
    ensures LoopCalls(posters, articles, world) == LoopCalls(posters, articles[..k], world)
    decreases |articles| - k
  {
    if k < |articles| {
      assert articles[..k + 1][..k] == articles[..k];
      LoopFailurePersists(posters, articles, k + 1, world);
    } else {
      assert articles[..k] == articles;
    }
  }

  /** The loop answers 200 exactly when every mark succeeds, and then it has reached every article. */
  lemma {:induction false} LoopSucceedsIffMarksPass(articles: seq<Article>, mark: string -> Outcome)
    ensures FirstMarkFailure(articles, mark).None? <==> forall i :: 0 <= i < |articles| ==> mark(articles[i].id).Pass?
    ensures FirstMarkFailure(articles, mark).None? ==> Reached(articles, mark) == |articles|
    decreases |articles|
  {
    if articles != [] {
      var init := articles[..|articles| - 1];
      LoopSucceedsIffMarksPass(init, mark);
      assert forall k :: 0 <= k < |init| ==> init[k] == articles[k];
    }
  }

  /**
   * A failing loop stops at the first failing mark: the last article it
   * reaches is the one whose mark failed with the rethrown error, and every
   * mark before it succeeded.
   */
  lemma {:induction false} LoopStopsAtFirstFailingMark(articles: seq<Article>, mark: string -> Outcome)
    requires FirstMarkFailure(articles, mark).Some?
    ensures 0 < Reached(articles, mark)
    ensures mark(articles[Reached(articles, mark) - 1].id) == Fail(FirstMarkFailure(articles, mark).value)
    ensures forall k :: 0 <= k < Reached(articles, mark) - 1 ==> mark(articles[k].id).Pass?
    decreases |articles|
  {
    var init := articles[..|articles| - 1];
    assert forall k :: 0 <= k < |init| ==> init[k] == articles[k];
    if FirstMarkFailure(init, mark).Some? {
      LoopStopsAtFirstFailingMark(init, mark);
    } else {
      LoopSucceedsIffMarksPass(init, mark);
    }
  }

  /**
   * The loop posts every article it reaches through every poster and marks
   * each of them, in order, whatever the posts and Gemini answered.
   */
  lemma {:induction false} LoopPostsAndMarksReached(posters: seq<Poster>, articles: seq<Article>, world: World)
    ensures Marks(LoopCalls(posters, articles, world)) == Ids(articles[..Reached(articles, world.mark)])
    ensures Posts(LoopCalls(posters, articles, world)) == Pairs(posters, articles[..Reached(articles, world.mark)])
    decreases |articles|
  {
    if articles != [] {
      var init := articles[..|articles| - 1];
      var last := articles[|articles| - 1];
      LoopPostsAndMarksReached(posters, init, world);
      if FirstMarkFailure(init, world.mark).Some? {
        var n := Reached(init, world.mark);
        assert init[..n] == articles[..n];
      } else {
        LoopSucceedsIffMarksPass(init, world.mark);
        assert init[..|init|] == init;
        assert articles[..|articles|] == articles;
        ArticleCallsProjections(posters, last, world);
        PostsAppend(LoopCalls(posters, init, world), ArticleCalls(posters, last, world));
        MarksAppend(LoopCalls(posters, init, world), ArticleCalls(posters, last, world));
      }
    }
  }

  /** Gemini and the summary update affect neither the posts, nor the marks, nor the outcome of the loop. */
  lemma SummaryDoesNotAffectPostingOrMarking(posters: seq<Poster>, articles: seq<Article>, world: World, other: World)
    requires other.mark == world.mark
    ensures ArticlesLoop(posters, articles, world).result == ArticlesLoop(posters, articles, other).result
    ensures Posts(ArticlesLoop(posters, articles, world).calls) == Posts(ArticlesLoop(posters, articles, other).calls)
    ensures Marks(ArticlesLoop(posters, articles, world).calls) == Marks(ArticlesLoop(posters, articles, other).calls)
  {
    LoopPostsAndMarksReached(posters, articles, world);
    LoopPostsAndMarksReached(posters, articles, other);
  }

  /** A body carrying a non-empty string token is acknowledged before the signature, the config or Notion is consulted. */
  lemma VerificationTokenShortCircuits(request: Request, env: Env, world: World)
    requires world.parse(request.rawBody).Parsed?
    requires world.parse(request.rawBody).verificationToken.StringValue?
    requires world.parse(request.rawBody).verificationToken.token != ""
    ensures Handle(request, env, world) == Run(Success(VerificationReceived), [])
  {
  }

  /** A request whose signature does not verify gets 401 without any fetch, post or mark. */
  lemma BadSignatureRejected(request: Request, env: Env, world: World)
    requires !Truthy(ExtractVerificationToken(request.rawBody, world.parse))
    requires ProvideNotionWebhookConfig(env).Success?
    requires !Notion.SignatureMatches(Some(ProvideNotionWebhookConfig(env).value.verificationToken),
                                      request.signatureHeader, request.rawBody, world.hmac)
    ensures Handle(request, env, world) == Run(Success(InvalidSignature), [])
  {
  }

  /** A request that passes the token, signature and configuration checks goes on to fetch the articles. */
  lemma AcceptedRequestFetches(request: Request, env: Env, world: World)
    requires !Truthy(ExtractVerificationToken(request.rawBody, world.parse))
    requires ProvideNotionWebhookConfig(env).Success?
    requires Notion.SignatureMatches(Some(ProvideNotionWebhookConfig(env).value.verificationToken),
                                     request.signatureHeader, request.rawBody, world.hmac)
    requires ConfigError(env).None?
    ensures Handle(request, env, world) == FetchAndProcess(world)
  {
  }

  /**
   * As written, whether a request without a token gets 401 depends on the
   * request and on the HMAC under the key `undefined` only, never on the
   * value of `NOTION_VERIFICATION_TOKEN`.
   */
  lemma AsWrittenVerdictIgnoresToken(request: Request, env: Env, world: World)
    requires !Truthy(ExtractVerificationToken(request.rawBody, world.parse))
    requires ProvideNotionWebhookConfig(env).Success?
    ensures HandleAsWritten(request, env, world).result == Success(InvalidSignature)
        <==> !Notion.SignatureMatches(None, request.signatureHeader, request.rawBody, world.hmac)
  {
  }

  /**
   * As written, when the HMAC throws for the key `undefined`, every request
   * without a token gets 401 and nothing is fetched, posted or marked.
   */
  lemma AsWrittenRejectsWhenKeylessHmacFails(request: Request, env: Env, world: World)
    requires !Truthy(ExtractVerificationToken(request.rawBody, world.parse))
    requires ProvideNotionWebhookConfig(env).Success?
    requires world.hmac(request.rawBody, None).Failure?
    ensures HandleAsWritten(request, env, world) == Run(Success(InvalidSignature), [])
  {
  }

  /**
   * The discrepancy on one request: signed with the configured token, with a
   * complete configuration and no article to post, it is answered 200 after a
   * fetch by `Handle`, and 401 with no call at all as written, where the HMAC
   * throws for the key `undefined`.
   */
  lemma AsWrittenRejectsWhatIntendedAccepts(env: Env)
    requires ConfigError(env).None?
    requires ProvideNotionWebhookConfig(env).Success?
    ensures var token := ProvideNotionWebhookConfig(env).value.verificationToken;
            var request := Request("{}", Some("sha256=" + token));
            var world := World(
              (_: string) => Parsed(Absent),
              (_: string, key: Option<string>) => if key.Some? then Success(key.value) else Failure("undefined key"),
              Success([]),
              (_: string) => Failure(""),
              (_: string, _: string) => Pass,
              (_: Poster, _: Article) => Pass,
              (_: string) => Pass);
            Handle(request, env, world) == Run(Success(Received), [FetchArticles])
            && HandleAsWritten(request, env, world) == Run(Success(InvalidSignature), [])
  {
  }

  /**
   * Once fetched, the handler answers 200 exactly when every mark succeeds;
   * it then has marked every fetched article and posted each one to Bluesky
   * and X, whatever the posts answered. With no article it answers 200 after
   * the fetch alone; a failed fetch is rethrown before any post or mark.
   */
  lemma FetchAndProcessMarksEveryArticle(world: World)
    ensures world.fetched.Failure? ==> FetchAndProcess(world) == Run(Failure(world.fetched.error), [FetchArticles])
    ensures world.fetched == Success([]) ==> FetchAndProcess(world) == Run(Success(Received), [FetchArticles])
    ensures world.fetched.Success? ==>
      (FetchAndProcess(world).result.Success? <==>
         forall i :: 0 <= i < |world.fetched.value| ==> world.mark(world.fetched.value[i].id).Pass?)
    ensures world.fetched.Success? && FetchAndProcess(world).result.Success? ==>
      FetchAndProcess(world).result.value == Received
      && Marks(FetchAndProcess(world).calls) == Ids(world.fetched.value)
      && Posts(FetchAndProcess(world).calls) == Pairs(Posters, world.fetched.value)
  {
    NoPostsNoMarks([FetchArticles]);
    if world.fetched.Success? && world.fetched.value != [] {
      var articles := world.fetched.value;
      var loop := ArticlesLoop(Posters, articles, world);
      LoopSucceedsIffMarksPass(articles, world.mark);
      LoopPostsAndMarksReached(Posters, articles, world);
      assert articles[..|articles|] == articles;
      PostsAppend([FetchArticles], loop.calls);
      MarksAppend([FetchArticles], loop.calls);
    }
  }

  // ---------------------------------------------------------------------
  // The handler
  // ---------------------------------------------------------------------

  /** The summary step of the loop; a failing Gemini call or summary update is caught. */
  method SummarizeArticle(article: Article, world: World) returns (calls: seq<Call>)
    ensures calls == SummaryCalls(article, world)
  {
    calls := [];
    if article.url != "" && Trim(article.url) != "" {
      var prompt := SummaryPrompt + article.url;
      calls := [Summarize(prompt)];
      match world.summarize(prompt) {
        case Failure(_) =>
          assert calls + [] == calls;
        case Success(summary) =>
          if summary != "" {
            calls := calls + [UpdateSummary(article.id, Trim(summary))];
            var updated := world.updateSummary(article.id, Trim(summary));
          } else {
            assert calls + [] == calls;
          }
      }
    }
  }

  /**
   * One iteration of the handler's loop: the summary step, one post per
   * poster (each rejection caught by `.catch`, all awaited by `allSettled`),
   * then `markArticleAsPosted`, whose outcome is returned.
   */
  method PostAndMark(posters: seq<Poster>, article: Article, world: World) returns (calls: seq<Call>, marked: Outcome)
    ensures calls == ArticleCalls(posters, article, world)
    ensures marked == world.mark(article.id)
  {
    var summaryCalls := SummarizeArticle(article, world);
    var postCalls: seq<Call> := [];
    var j := 0;
    while j < |posters|
      invariant 0 <= j <= |posters|
      invariant postCalls == PostCalls(posters[..j], article)
    {
      assert posters[..j + 1][..j] == posters[..j];
      postCalls := postCalls + [Post(posters[j], article)];
      var posted := world.post(posters[j], article);
      j := j + 1;
    }
    assert posters[..j] == posters;
    calls := summaryCalls + postCalls + [Mark(article.id)];
    marked := world.mark(article.id);
  }

  /** The loop over the fetched articles; a failing mark leaves the loop and its error is rethrown. */
  method ProcessArticles(posters: seq<Poster>, targetArticles: seq<Article>, world: World)
    returns (result: Result<Response, string>, calls: seq<Call>)
    ensures Run(result, calls) == ArticlesLoop(posters, targetArticles, world)
  {
    calls := [];
    var i := 0;
    while i < |targetArticles|
      invariant 0 <= i <= |targetArticles|
      invariant FirstMarkFailure(targetArticles[..i], world.mark).None?
      invariant LoopCalls(posters, targetArticles[..i], world) == calls
    {
      var article := targetArticles[i];
      assert targetArticles[..i + 1][..i] == targetArticles[..i];
      assert targetArticles[..i + 1][i] == article;
      var articleCalls, marked := PostAndMark(posters, article, world);
      calls := calls + articleCalls;
      if marked.Fail? {
        LoopFailurePersists(posters, targetArticles, i + 1, world);
        return Failure(marked.reason), calls;
      }
      i := i + 1;
    }
    assert targetArticles[..i] == targetArticles;
    result := Success(Received);
  }

  /**
   * `webhookHandler(c)`: a `Failure` stands for an error thrown out of the
   * handler (a configuration error, a failed fetch or a failed mark).
   */
  method WebhookHandler(request: Request, env: Env, world: World)
    returns (result: Result<Response, string>, calls: seq<Call>)
    ensures Run(result, calls) == Handle(request, env, world)
  {
    calls := [];
    var verificationTokenFromPayload := ExtractVerificationToken(request.rawBody, world.parse);
    if Truthy(verificationTokenFromPayload) {
      return Success(VerificationReceived), calls;
    }
    var webhookConfig := ProvideNotionWebhookConfig(env);
    if webhookConfig.Failure? {
      return Failure(webhookConfig.error), calls;
    }
    var verified := Notion.VerifyNotionWebhookSignature(
      Some(webhookConfig.value.verificationToken), request.signatureHeader, request.rawBody, world.hmac);
    if !verified {
      return Success(InvalidSignature), calls;
    }
    var configError := ConfigError(env);
    if configError.Some? {
      return Failure(configError.value), calls;
    }
    var posters := [Bluesky, Twitter];
    calls := [FetchArticles];
    match world.fetched {
      case Failure(e) =>
        return Failure(e), calls;
      case Success(targetArticles) =>
        if |targetArticles| == 0 {
          return Success(Received), calls;
        }
        var loopCalls;
        result, loopCalls := ProcessArticles(posters, targetArticles, world);
        calls := calls + loopCalls;
    }
  }
}

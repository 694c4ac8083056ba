/**
 * The entities shared by the scheduler and the webhook handler: articles,
 * the two social-network posters, the outcome of a call to a collaborator,
 * and the log of calls the core makes to its collaborators.
 */
module Domain {

  /** An article read from the Notion database. */
  datatype Article = Article(id: string, title: string, url: string)

  /** A destination social network. */
  datatype Poster = Bluesky | Twitter

  /** How an asynchronous call to a collaborator settles: it resolves, or it rejects with a reason. */
  datatype Outcome = Pass | Fail(reason: string)

  /** One call from the core to a collaborator (Notion, Gemini or a social network). */
  datatype Call =
    | Login(poster: Poster)
    | FetchArticles
    | Post(poster: Poster, article: Article)
    | Mark(articleId: string)
    | Summarize(prompt: string)
    | UpdateSummary(articleId: string, summary: string)

  /** The identifiers of `articles`, in order. */
  function Ids(articles: seq<Article>): (ids: seq<string>)
    ensures |ids| == |articles|
    ensures forall i :: 0 <= i < |articles| ==> ids[i] == articles[i].id
  {
    if articles == [] then [] else Ids(articles[..|articles| - 1]) + [articles[|articles| - 1].id]
  }

  /** One `postArticle(article)` call per poster, in the order of the poster list. */
  function PostCalls(posters: seq<Poster>, article: Article): (calls: seq<Call>)
    ensures |calls| == |posters|
    ensures forall j :: 0 <= j < |posters| ==> calls[j] == Post(posters[j], article)
  {
    if posters == [] then []
    else PostCalls(posters[..|posters| - 1], article) + [Post(posters[|posters| - 1], article)]
  }

  /** The (poster, article) pairs of the `Post` calls in `calls`, in order. */
  function Posts(calls: seq<Call>): seq<(Poster, Article)>
  {
    if calls == [] then []
    else
      var last := calls[|calls| - 1];
      Posts(calls[..|calls| - 1]) + (if last.Post? then [(last.poster, last.article)] else [])
  }

  /** The article ids of the `Mark` calls in `calls`, in order. */
  function Marks(calls: seq<Call>): seq<string>
  {
    if calls == [] then []
    else
      var last := calls[|calls| - 1];
      Marks(calls[..|calls| - 1]) + (if last.Mark? then [last.articleId] else [])
  }

  /**
   * Reference for the posts: every article in input order, and for each one
   * every poster in poster-list order.
   */
  function Pairs(posters: seq<Poster>, articles: seq<Article>): seq<(Poster, Article)>
  {
    if articles == [] then []
    else
      var last := articles[|articles| - 1];
      Pairs(posters, articles[..|articles| - 1]) + seq(|posters|, j requires 0 <= j < |posters| => (posters[j], last))
  }

  /** The posts of two consecutive stretches of calls are the posts of each, in order. */
  lemma {:induction false} PostsAppend(x: seq<Call>, y: seq<Call>)
    ensures Posts(x + y) == Posts(x) + Posts(y)
    decreases |y|
  {
    if y != [] {
      assert (x + y)[..|x + y| - 1] == x + y[..|y| - 1];
      PostsAppend(x, y[..|y| - 1]);
    } else {
      assert x + y == x;
    }
  }

  /** The marks of two consecutive stretches of calls are the marks of each, in order. */
  lemma {:induction false} MarksAppend(x: seq<Call>, y: seq<Call>)
    ensures Marks(x + y) == Marks(x) + Marks(y)
    decreases |y|
  {
    if y != [] {
      assert (x + y)[..|x + y| - 1] == x + y[..|y| - 1];
      MarksAppend(x, y[..|y| - 1]);
    } else {
      assert x + y == x;
    }
  }

  /** A stretch of calls with neither a post nor a mark projects to no post and no mark. */
  lemma {:induction false} NoPostsNoMarks(calls: seq<Call>)
    requires forall k :: 0 <= k < |calls| ==> !calls[k].Post? && !calls[k].Mark?
    ensures Posts(calls) == [] && Marks(calls) == []
    decreases |calls|
  {
    if calls != [] {
      NoPostsNoMarks(calls[..|calls| - 1]);
    }
  }

  /** The posting calls for one article hold one post per poster and no mark. */
  lemma {:induction false} PostCallsProjections(posters: seq<Poster>, article: Article)
    ensures Posts(PostCalls(posters, article)) == seq(|posters|, j requires 0 <= j < |posters| => (posters[j], article))
    ensures Marks(PostCalls(posters, article)) == []
    decreases |posters|
  {
    if posters != [] {
      var init := posters[..|posters| - 1];
      PostCallsProjections(init, article);
      PostsAppend(PostCalls(init, article), [Post(posters[|posters| - 1], article)]);
      MarksAppend(PostCalls(init, article), [Post(posters[|posters| - 1], article)]);
      assert [Post(posters[|posters| - 1], article)][..0] == [];
    }
  }
}

/**
 * `NotionApiRepository` of src/infrastructure/persistence/notion_api_repository.ts:
 * the same title/URL extraction as src/notion.ts, without the check that a
 * result is a page with properties, and the update of the `Posted` flag.
 */
module NotionApiRepository {
  import opened Wrappers
  import opened Js
  import opened Domain
  import opened NotionPages
  import Notion

  /** The message of the `TypeError` V8 throws for `properties.Title` when a result has no properties. */
  const MissingPropertiesError: string := "Cannot read properties of undefined (reading 'Title')"

  /** The article a query result contributes; a result without properties makes the loop throw. */
  function ExtractedArticle(page: Page): (r: Result<Option<Article>, string>)
    ensures r.Failure? <==> page.properties.None?
    ensures r.Success? ==> r.value == ArticleOf(page.id, page.properties.value)
  {
    match page.properties
    case None => Failure(MissingPropertiesError)
    case Some(properties) => Success(ArticleOf(page.id, properties))
  }

  /** The articles of the query results in iteration order, or the error of the first result without properties. */
  function UnpostedArticles(pages: seq<Page>): Result<seq<Article>, string>
  {
    if pages == [] then Success([])
    else
      match UnpostedArticles(pages[..|pages| - 1])
      case Failure(e) => Failure(e)
      case Success(articles) =>
        match ExtractedArticle(pages[|pages| - 1])
        case Failure(e) => Failure(e)
        case Success(article) => Success(articles + (if article.Some? then [article.value] else []))
  }

  /** Once a prefix of the results fails, the whole call fails with the same error. */
  lemma {:induction false} FailurePersists(pages: seq<Page>, k: nat)
    requires k <= |pages| && UnpostedArticles(pages[..k]).Failure?
    ensures UnpostedArticles(pages) == UnpostedArticles(pages[..k])
    decreases |pages| - k
  {
    if k < |pages| {
      assert pages[..k + 1][..k] == pages[..k];
      FailurePersists(pages, k + 1);
    } else {
      assert pages[..k] == pages;
    }
  }

  /** The call throws exactly when some result has no properties. */
  lemma {:induction false} FailsIffPropertiesMissing(pages: seq<Page>)
    ensures UnpostedArticles(pages).Failure? <==> exists i :: 0 <= i < |pages| && pages[i].properties.None?
    decreases |pages|
  {
    if pages != [] {
      var init := pages[..|pages| - 1];
      FailsIffPropertiesMissing(init);
      assert forall i :: 0 <= i < |init| ==> init[i] == pages[i];
    }
  }

  /**
   * When every result is a page with properties, this repository returns
   * exactly the articles the webhook repository of src/notion.ts extracts:
   * same filter, same titles, same order, each article's id its page id.
   */
  lemma {:induction false} AgreesWithWebhookRepository(pages: seq<Page>)
    requires forall i :: 0 <= i < |pages| ==> pages[i].objectKind == "page" && pages[i].properties.Some?
    ensures UnpostedArticles(pages) == Success(Notion.UnpostedArticles(pages))
    decreases |pages|
  {
    if pages != [] {
      AgreesWithWebhookRepository(pages[..|pages| - 1]);
    }
  }

  /**
   * `getUnpostedArticles()` over the query results `pages`: the loop pushes
   * the article of every page whose title and URL are non-empty and skips
   * the others.
   */
  method GetUnpostedArticles(pages: seq<Page>) returns (r: Result<seq<Article>, string>)
    ensures r == UnpostedArticles(pages)
  {
    var articlesToPost: seq<Article> := [];
    var i := 0;
    while i < |pages|
      invariant 0 <= i <= |pages|
      invariant UnpostedArticles(pages[..i]) == Success(articlesToPost)
    {
      var page := pages[i];
      assert pages[..i + 1][..i] == pages[..i];
      assert pages[..i + 1][i] == page;
      if page.properties.None? {
        FailurePersists(pages, i + 1);
        return Failure(MissingPropertiesError);
      }
      var properties := page.properties.value;
      var title := TitleText(properties.title);
      var url := UrlText(properties.url);
      ghost var extracted := ArticleOf(page.id, properties);
      assert UnpostedArticles(pages[..i + 1]) == Success(articlesToPost + (if extracted.Some? then [extracted.value] else []));
      if title != "" && Truthy(url) {
        articlesToPost := articlesToPost + [Article(page.id, title, url.value)];
      } else {
        assert articlesToPost + [] == articlesToPost;
      }
      i := i + 1;
    }
    assert pages[..i] == pages;
    return Success(articlesToPost);
  }

  /**
   * `markArticleAsPosted(articleId)`: sends the update that ticks the
   * `Posted` checkbox of the page and rethrows its failure unchanged.
   */
  method MarkArticleAsPosted(articleId: string, updatePage: PageUpdate -> Outcome) returns (r: Outcome)
    ensures r.Pass? <==> updatePage(PageUpdate(articleId, "Posted", true)).Pass?
    ensures r.Fail? ==> r == updatePage(PageUpdate(articleId, "Posted", true))
  {
    var request := PageUpdate(articleId, "Posted", true);
    var updateResult := updatePage(request);
    match updateResult {
      case Pass =>
        r := Pass;
      case Fail(updateError) =>
        r := Fail(updateError);
    }
  }
}

/** The post text of the Bluesky and Twitter posters under src/sns: a bookmark, the title, a space, the URL. */
module SnsText {
  import opened Wrappers
  import opened Js
  import opened Domain

  /** The bookmark emoji U+1F516 followed by a space. */
  const Prefix: string := "\U{1F516} "

  /** The text posted for `article`: title and URL verbatim, with no escaping or truncation. */
  function BuildText(article: Article): (text: string)
    ensures |text| == |Prefix| + |article.title| + 1 + |article.url|
    ensures text[..|Prefix|] == Prefix
    ensures text[|Prefix|..|Prefix| + |article.title|] == article.title
    ensures text[|Prefix| + |article.title|] == ' '
    ensures text[|text| - |article.url|..] == article.url
  {
    Prefix + article.title + " " + article.url
  }

  /**
   * Reads a post text back into its title and URL: the bookmark prefix,
   * then everything up to the last space is the title, the rest the URL.
   */
  function ParseText(text: string): Option<(string, string)>
  {
    if |text| < |Prefix| || text[..|Prefix|] != Prefix then None
    else
      var body := text[|Prefix|..];
      match LastIndexOf(body, ' ')
      case None => None
      case Some(k) => Some((body[..k], body[k + 1..]))
  }

  /** A URL without spaces can be read back from the post text, and so can the title, whatever it holds. */
  lemma ParseBuildText(article: Article)
    requires ' ' !in article.url
    ensures ParseText(BuildText(article)) == Some((article.title, article.url))
  {
    var text := BuildText(article);
    assert text[..|Prefix|] == Prefix;
    assert text[|Prefix|..] == article.title + [' '] + article.url;
    var body := article.title + [' '] + article.url;
    LastIndexOfAfterSeparator(article.title, ' ', article.url);
    assert body[..|article.title|] == article.title;
    assert body[|article.title| + 1..] == article.url;
  }

  /** The example of the formatter's tests: an empty title leaves two spaces after the bookmark. */
  lemma EmptyTitleTwoSpaces(url: string)
    ensures BuildText(Article("3", "", url)) == "\U{1F516}  " + url
  {
  }
}

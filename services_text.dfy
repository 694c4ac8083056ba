/** The post text of the posters under src/infrastructure/services: the title, a newline, the URL. */
module ServicesText {
  import opened Js
  import opened Domain

  /** The text posted for `article`: the title and the URL on two lines. */
  function BuildText(article: Article): (text: string)
    ensures |text| == |article.title| + 1 + |article.url|
    ensures text[..|article.title|] == article.title
    ensures text[|article.title|] == '\n'
    ensures text[|article.title| + 1..] == article.url
  {
    article.title + "\n" + article.url
  }

  /** Splits a text at its first newline; a text without one is all first line. */
  function SplitFirstLine(text: string): (string, string)
  {
    match IndexOf(text, '\n')
    case None => (text, "")
    case Some(k) => (text[..k], text[k + 1..])
  }

  /** A single-line title and the URL are recovered from the post text by splitting at the first newline. */
  lemma SplitBuildText(article: Article)
    requires '\n' !in article.title
    ensures SplitFirstLine(BuildText(article)) == (article.title, article.url)
  {
    IndexOfBeforeSeparator(article.title, '\n', article.url);
    assert BuildText(article) == article.title + ['\n'] + article.url;
  }
}

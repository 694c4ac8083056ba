/**
 * Pages of the Notion database as the two repositories read them: a `Title`
 * property (title or rich text, a list of text fragments) and a `URL`
 * property, from which an article is extracted when both are non-empty.
 */
module NotionPages {
  import opened Wrappers
  import opened Js
  import opened Domain

  /** A rich-text fragment; only its `plain_text` is read. */
  datatype TextFragment = TextFragment(plainText: string)

  /** A page property, by its `type`. */
  datatype Property =
    | TitleProperty(title: seq<TextFragment>)
    | RichTextProperty(richText: seq<TextFragment>)
    | UrlProperty(url: Option<string>)
    | OtherProperty(kind: string)

  /** The two properties the repositories read; either may be absent. */
  datatype PageProperties = PageProperties(title: Option<Property>, url: Option<Property>)

  /** A result of the paginated database query: its `object` kind, its id and its properties, if any. */
  datatype Page = Page(objectKind: string, id: string, properties: Option<PageProperties>)

  /** The body of `pages.update` that sets the `Posted` checkbox of a page. */
  datatype PageUpdate = PageUpdate(pageId: string, property: string, checkbox: bool)

  /** `fragments.map((t) => t.plain_text).join('')`. */
  function PlainText(fragments: seq<TextFragment>): string
  {
    if fragments == [] then ""
    else PlainText(fragments[..|fragments| - 1]) + fragments[|fragments| - 1].plainText
  }

  /** The plain text of consecutive fragment lists is their plain texts in order. */
  lemma {:induction false} PlainTextAppend(a: seq<TextFragment>, b: seq<TextFragment>)
    ensures PlainText(a + b) == PlainText(a) + PlainText(b)
    decreases |b|
  {
    if b != [] {
      assert (a + b)[..|a + b| - 1] == a + b[..|b| - 1];
      PlainTextAppend(a, b[..|b| - 1]);
    } else {
      assert a + b == a;
    }
  }

  /** A title is empty exactly when every one of its fragments is. */
  lemma {:induction false} PlainTextEmptyIff(fragments: seq<TextFragment>)
    ensures PlainText(fragments) == "" <==> forall i :: 0 <= i < |fragments| ==> fragments[i].plainText == ""
    decreases |fragments|
  {
    if fragments != [] {
      PlainTextEmptyIff(fragments[..|fragments| - 1]);
    }
  }

  /** The title of a page: its fragments joined when the property is a title or rich text, `''` otherwise. */
  function TitleText(title: Option<Property>): (text: string)
    ensures title.Some? && title.value.TitleProperty? ==> text == PlainText(title.value.title)
    ensures title.Some? && title.value.RichTextProperty? ==> text == PlainText(title.value.richText)
    ensures title.None? || title.value.UrlProperty? || title.value.OtherProperty? ==> text == ""
  {
    match title
    case Some(TitleProperty(fragments)) => PlainText(fragments)
    case Some(RichTextProperty(fragments)) => PlainText(fragments)
    case _ => ""
  }

  /** The URL of a page: its value when the property is of type `'url'`, `null` otherwise. */
  function UrlText(url: Option<Property>): (text: Option<string>)
    ensures text.Some? ==> url == Some(UrlProperty(text))
    ensures url.Some? && url.value.UrlProperty? ==> text == url.value.url
  {
    match url
    case Some(UrlProperty(value)) => value
    case _ => None
  }

  /** `if (title && url) articles.push({ id: pageId, title, url })`: the article of a page, if it has one. */
  function ArticleOf(id: string, properties: PageProperties): (article: Option<Article>)
    ensures article.Some? <==> TitleText(properties.title) != "" && Truthy(UrlText(properties.url))
    ensures article.Some? ==> (article.value.id == id && article.value.title == TitleText(properties.title)
                            && Some(article.value.url) == UrlText(properties.url))
  {
    var title := TitleText(properties.title);
    var url := UrlText(properties.url);
    if title != "" && Truthy(url) then Some(Article(id, title, url.value)) else None
  }
}

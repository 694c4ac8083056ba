/**
 * src/notion.ts: the webhook signature check (HMAC-SHA256 of the raw body,
 * compared in constant time), the signature masking helper (defined, never called), and the
 * extraction of unposted articles from the pages of the database query.
 */
module Notion {
  import opened Wrappers
  import opened Js
  import opened Domain
  import opened NotionPages

  // ---------------------------------------------------------------------
  // Masking and constant-time comparison
  // ---------------------------------------------------------------------

  /** `_maskSignature(signature)`: short signatures unchanged, longer ones reduced to 12 + `...` + 12 characters. */
  function MaskSignature(signature: string): (masked: string)
    ensures |signature| <= 24 ==> masked == signature
    ensures |signature| > 24 ==> (&& |masked| == 27
                                  && masked[..12] == signature[..12]
                                  && masked[12..15] == "..."
                                  && masked[15..] == signature[|signature| - 12..])
  {
    if |signature| <= 24 then signature
    else signature[..12] + "..." + signature[|signature| - 12..]
  }

  /**
   * The bitwise exclusive or of two non-negative integers, bit by bit from
   * the least significant one (JavaScript `^` on character codes).
   */
  function BitXor(a: nat, b: nat): nat
    decreases a + b
  {
    if a == 0 && b == 0 then 0 else 2 * BitXor(a / 2, b / 2) + (a % 2 + b % 2) % 2
  }

  /** The bitwise or of two non-negative integers (JavaScript `|` on character codes). */
  function BitOr(a: nat, b: nat): nat
    decreases a + b
  {
    if a == 0 && b == 0 then 0 else 2 * BitOr(a / 2, b / 2) + (if a % 2 == 1 || b % 2 == 1 then 1 else 0)
  }

  /** `a ^ b` is zero exactly when the two codes are equal. */
  lemma {:induction false} XorZeroIffEqual(a: nat, b: nat)
    ensures BitXor(a, b) == 0 <==> a == b
    decreases a + b
  {
    if a != 0 || b != 0 {
      XorZeroIffEqual(a / 2, b / 2);
    }
  }

  /** `a | b` is zero exactly when both operands are. */
  lemma {:induction false} OrZeroIffBothZero(a: nat, b: nat)
    ensures BitOr(a, b) == 0 <==> a == 0 && b == 0
    decreases a + b
  {
    if a != 0 || b != 0 {
      OrZeroIffBothZero(a / 2, b / 2);
    }
  }

  /**
   * `timingSafeEqualString(left, right)`: for equal lengths, every position
   * is visited and folded into `diff`, with no early exit; the result is
   * plain string equality.
   */
  method TimingSafeEqualString(left: string, right: string) returns (equal: bool)
    ensures equal <==> left == right
  {
    if |left| != |right| {
      return false;
    }
    var diff: nat := 0;
    var index := 0;
    while index < |left|
      invariant 0 <= index <= |left|
      invariant diff == 0 <==> left[..index] == right[..index]
    {
      var code := BitXor(left[index] as nat, right[index] as nat);
      XorZeroIffEqual(left[index] as nat, right[index] as nat);
      OrZeroIffBothZero(diff, code);
      diff := BitOr(diff, code);
      assert left[..index + 1] == left[..index] + [left[index]];
      assert right[..index + 1] == right[..index] + [right[index]];
      index := index + 1;
    }
    assert left[..index] == left && right[..index] == right;
    return diff == 0;
  }

  // ---------------------------------------------------------------------
  // Webhook signature
  // ---------------------------------------------------------------------

  /**
   * HMAC-SHA256 (RFC 2104 over SHA-256) as the hex string of the digest, of
   * a message under a key; the library call may throw. The key is `None`
   * when the caller passes `undefined`.
   */
  type Hmac = (string, Option<string>) -> Result<string, string>

  /** The signature header the sender computes: `"sha256=" + hex(HMAC-SHA256(key, body))`. */
  function ExpectedSignature(verificationToken: Option<string>, rawBody: string, hmac: Hmac): Option<string>
  {
    match hmac(rawBody, verificationToken)
    case Success(digest) => Some("sha256=" + digest)
    case Failure(_) => None
  }

  /** The header carries exactly the signature computed from the shared secret and the raw body. */
  predicate SignatureMatches(verificationToken: Option<string>, header: Option<string>, rawBody: string, hmac: Hmac)
  {
    header.Some? && ExpectedSignature(verificationToken, rawBody, hmac) == Some(header.value)
  }

  /**
   * `verifyNotionWebhookSignature(token, request, rawBody)`, with `header` the
   * value of `X-Notion-Signature` (`None` when absent) and `token` the key
   * (`None` when the caller passes `undefined`). It never throws: a missing
   * or empty header, a failing HMAC, a length mismatch and a mismatching
   * character all give false.
   */
  method VerifyNotionWebhookSignature(verificationToken: Option<string>, header: Option<string>, rawBody: string, hmac: Hmac)
    returns (verified: bool)
    ensures verified <==> SignatureMatches(verificationToken, header, rawBody, hmac)
    ensures !Truthy(header) ==> !verified
  {
    if !Truthy(header) {
      return false;
    }
    var signature := header.value;
    match hmac(rawBody, verificationToken) {
      case Failure(_) =>
        return false;
      case Success(digest) =>
        var calculatedSignature := "sha256=" + digest;
        if |signature| != |calculatedSignature| {
          return false;
        }
        verified := TimingSafeEqualString(signature, calculatedSignature);
    }
  }

  /**
   * A header accepted for two (secret, body) pairs carries the digest of
   * both: a signature made with another secret, or over another body, is
   * rejected unless the two HMAC values coincide.
   */
  lemma SignatureBindsSecretAndBody(token: Option<string>, otherToken: Option<string>, header: Option<string>,
                                    body: string, otherBody: string, hmac: Hmac)
    requires SignatureMatches(token, header, body, hmac)
    requires SignatureMatches(otherToken, header, otherBody, hmac)
    ensures hmac(body, token) == hmac(otherBody, otherToken)
  {
    var d1 := hmac(body, token).value;
    var d2 := hmac(otherBody, otherToken).value;
    assert ("sha256=" + d1)[7..] == d1;
    assert ("sha256=" + d2)[7..] == d2;
  }

  // ---------------------------------------------------------------------
  // Unposted articles
  // ---------------------------------------------------------------------

  /** `page.object !== 'page' || !('properties' in page)`: results that are not pages are skipped. */
  predicate Skipped(page: Page)
  {
    page.objectKind != "page" || page.properties.None?
  }

  /** The article a query result contributes, if any. */
  function Extracted(page: Page): (article: Option<Article>)
    ensures article.Some? ==> !Skipped(page) && article == ArticleOf(page.id, page.properties.value)
    ensures !Skipped(page) ==> article == ArticleOf(page.id, page.properties.value)
  {
    if Skipped(page) then None else ArticleOf(page.id, page.properties.value)
  }

  /** The articles extracted from the query results, in iteration order. */
  function UnpostedArticles(pages: seq<Page>): (articles: seq<Article>)
    ensures |articles| <= |pages|
    ensures forall i :: 0 <= i < |articles| ==> articles[i].title != "" && articles[i].url != ""
  {
    if pages == [] then []
    else
      var last := Extracted(pages[|pages| - 1]);
      UnpostedArticles(pages[..|pages| - 1]) + (if last.Some? then [last.value] else [])
  }

  /** Extraction is order preserving: the articles of consecutive runs of pages are concatenated. */
  lemma {:induction false} UnpostedArticlesAppend(a: seq<Page>, b: seq<Page>)
    ensures UnpostedArticles(a + b) == UnpostedArticles(a) + UnpostedArticles(b)
    decreases |b|
  {
    if b != [] {
      assert (a + b)[..|a + b| - 1] == a + b[..|b| - 1];
      UnpostedArticlesAppend(a, b[..|b| - 1]);
    } else {
      assert a + b == a;
    }
  }

  /** Every returned article is the article of some query result. */
  lemma {:induction false} UnpostedArticlesSound(pages: seq<Page>, article: Article)
    requires article in UnpostedArticles(pages)
    ensures exists i :: 0 <= i < |pages| && Extracted(pages[i]) == Some(article)
    decreases |pages|
  {
    var init := pages[..|pages| - 1];
    if article in UnpostedArticles(init) {
      UnpostedArticlesSound(init, article);
      var j :| 0 <= j < |init| && Extracted(init[j]) == Some(article);
      assert pages[j] == init[j];
    } else {
      assert Extracted(pages[|pages| - 1]) == Some(article);
    }
  }

  /** The article of every query result is returned. */
  lemma {:induction false} UnpostedArticlesComplete(pages: seq<Page>, i: nat)
    requires i < |pages| && Extracted(pages[i]).Some?
    ensures Extracted(pages[i]).value in UnpostedArticles(pages)
    decreases |pages|
  {
    var init := pages[..|pages| - 1];
    if i < |init| {
      assert init[i] == pages[i];
      UnpostedArticlesComplete(init, i);
    }
  }

  /** An article is returned exactly when some page is a page with properties, a non-empty title and a URL that yield it. */
  lemma UnpostedArticlesMembership(pages: seq<Page>, article: Article)
    ensures article in UnpostedArticles(pages) <==> exists i :: 0 <= i < |pages| && Extracted(pages[i]) == Some(article)
  {
    if article in UnpostedArticles(pages) {
      UnpostedArticlesSound(pages, article);
    }
    if exists i :: 0 <= i < |pages| && Extracted(pages[i]) == Some(article) {
      var i :| 0 <= i < |pages| && Extracted(pages[i]) == Some(article);
      UnpostedArticlesComplete(pages, i);
    }
  }

  /**
   * `NotionRepository.getUnpostedArticles()` over the query results `pages`:
   * the loop pushes the article of every page that has one.
   */
  method GetUnpostedArticles(pages: seq<Page>) returns (articles: seq<Article>)
    ensures articles == UnpostedArticles(pages)
  {
    articles := [];
    var i := 0;
    while i < |pages|
      invariant 0 <= i <= |pages|
      invariant articles == UnpostedArticles(pages[..i])
    {
      var page := pages[i];
      assert pages[..i + 1][..i] == pages[..i];
      if page.objectKind != "page" || page.properties.None? {
        i := i + 1;
        continue;
      }
      var properties := page.properties.value;
      var title := TitleText(properties.title);
      var url := UrlText(properties.url);
      if title != "" && Truthy(url) {
        articles := articles + [Article(page.id, title, url.value)];
      }
      i := i + 1;
    }
    assert pages[..i] == pages;
  }
}

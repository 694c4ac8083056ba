/**
 * The few JavaScript value semantics the core relies on: truthiness of
 * strings, `Array.prototype.join`, `String.prototype.trim` and the
 * environment object of a Worker.
 */
module Js {
  import opened Wrappers

  /** A Worker's environment bindings; `env.KEY` is `undefined` when the key is absent. */
  type Env = map<string, string>

  /** `env.KEY`. */
  function Get(env: Env, key: string): Option<string>
  {
    if key in env then Some(env[key]) else None
  }

  /** JavaScript truthiness of a string-or-undefined value: `undefined` and `""` are falsy. */
  predicate Truthy(v: Option<string>)
  {
    v.Some? && v.value != ""
  }

  /** `parts.join(sep)`. */
  function Join(parts: seq<string>, sep: string): (r: string)
    ensures |parts| == 1 ==> r == parts[0]
    ensures |parts| == 0 ==> r == ""
  {
    if |parts| == 0 then ""
    else if |parts| == 1 then parts[0]
    else parts[0] + sep + Join(parts[1..], sep)
  }

  /** Two parts are joined around one separator. */
  lemma JoinPair(a: string, b: string, sep: string)
    ensures Join([a, b], sep) == a + sep + b
  {
    assert [a, b][1..] == [b];
  }

  /** The characters `String.prototype.trim` removes: WhiteSpace and LineTerminator of ECMAScript. */
  predicate IsWhiteSpace(c: char)
  {
    ('\U{9}' <= c <= '\U{D}')            // tab, line feed, vertical tab, form feed, carriage return
    || c == ' ' || c == '\U{A0}' || c == '\U{1680}'
    || ('\U{2000}' <= c <= '\U{200A}')
    || c == '\U{2028}' || c == '\U{2029}' || c == '\U{202F}' || c == '\U{205F}'
    || c == '\U{3000}' || c == '\U{FEFF}'
  }

  /** Every character of `s` is white space. */
  predicate Blank(s: string)
  {
    forall k :: 0 <= k < |s| ==> IsWhiteSpace(s[k])
  }

  /** The number of white-space characters `s` starts with. */
  function LeadingWhiteSpace(s: string): (n: nat)
    ensures n <= |s|
    ensures forall k :: 0 <= k < n ==> IsWhiteSpace(s[k])
    ensures n < |s| ==> !IsWhiteSpace(s[n])
  {
    if s != [] && IsWhiteSpace(s[0]) then 1 + LeadingWhiteSpace(s[1..]) else 0
  }

  /** The index where the white space `s` ends with begins. */
  function TrailingWhiteSpaceStart(s: string): (n: nat)
    ensures n <= |s|
    ensures forall k :: n <= k < |s| ==> IsWhiteSpace(s[k])
    ensures 0 < n ==> !IsWhiteSpace(s[n - 1])
  {
    if s != [] && IsWhiteSpace(s[|s| - 1]) then TrailingWhiteSpaceStart(s[..|s| - 1]) else |s|
  }

  /** `s` without its leading white space. */
  function TrimStart(s: string): (r: string)
    ensures |r| <= |s| && r == s[|s| - |r|..]
    ensures Blank(s[..|s| - |r|])
    ensures r != [] ==> !IsWhiteSpace(r[0])
  {
    s[LeadingWhiteSpace(s)..]
  }

  /** `s` without its trailing white space. */
  function TrimEnd(s: string): (r: string)
    ensures |r| <= |s| && r == s[..|r|]
    ensures Blank(s[|r|..])
    ensures r != [] ==> !IsWhiteSpace(r[|r| - 1])
  {
    s[..TrailingWhiteSpaceStart(s)]
  }

  /** `s.trim()`: an infix of `s` with white space only around it, and none at either end. */
  function Trim(s: string): (r: string)
    ensures r != [] ==> !IsWhiteSpace(r[0]) && !IsWhiteSpace(r[|r| - 1])
  {
    TrimEnd(TrimStart(s))
  }

  /** What `trim` removes is white space on either side of the infix it keeps. */
  lemma TrimIsInfix(s: string)
    ensures exists i :: 0 <= i <= |s| - |Trim(s)| && Trim(s) == s[i..i + |Trim(s)|]
                     && Blank(s[..i]) && Blank(s[i + |Trim(s)|..])
  {
    var t := TrimStart(s);
    var i := |s| - |t|;
    assert Trim(s) == s[i..i + |Trim(s)|];
    assert s[i + |Trim(s)|..] == t[|Trim(s)|..];
  }

  /** `s.trim().length > 0` holds exactly when `s` has a character that is not white space. */
  lemma TrimEmptyIffBlank(s: string)
    ensures Trim(s) == "" <==> Blank(s)
  {
    var t := TrimStart(s);
    assert t[0..] == t;
    assert s[..|s|] == s;
    assert t != [] ==> t[0] == s[|s| - |t|];
  }

  /** The index of the first occurrence of `c` in `s` (`s.indexOf(c)`, with `None` for -1). */
  function IndexOf(s: string, c: char): (r: Option<nat>)
    ensures r.Some? ==> r.value < |s| && s[r.value] == c && c !in s[..r.value]
    ensures r.None? ==> c !in s
  {
    if s == [] then None
    else if s[0] == c then Some(0)
    else match IndexOf(s[1..], c)
      case None => None
      case Some(k) => Some(k + 1)
  }

  /** The index of the last occurrence of `c` in `s` (`s.lastIndexOf(c)`, with `None` for -1). */
  function LastIndexOf(s: string, c: char): (r: Option<nat>)
    ensures r.Some? ==> r.value < |s| && s[r.value] == c && c !in s[r.value + 1..]
    ensures r.None? ==> c !in s
  {
    if s == [] then None
    else if s[|s| - 1] == c then Some(|s| - 1)
    else LastIndexOf(s[..|s| - 1], c)
  }

  /** `IndexOf` finds the first occurrence whatever follows it. */
  lemma IndexOfBeforeSeparator(t: string, c: char, u: string)
    requires c !in t
    ensures IndexOf(t + [c] + u, c) == Some(|t|)
  {
    var s := t + [c] + u;
    assert s[|t|] == c;
    assert forall k :: 0 <= k < |t| ==> s[k] == t[k];
    assert forall k :: |t| < k <= |s| ==> s[..k][|t|] == c;
  }

  /** `LastIndexOf` finds the last occurrence whatever precedes it. */
  lemma {:induction false} LastIndexOfAfterSeparator(t: string, c: char, u: string)
    requires c !in u
    ensures LastIndexOf(t + [c] + u, c) == Some(|t|)
    decreases |u|
  {
    var s := t + [c] + u;
    if u != [] {
      assert s[|s| - 1] == u[|u| - 1];
      assert s[..|s| - 1] == t + [c] + u[..|u| - 1];
      LastIndexOfAfterSeparator(t, c, u[..|u| - 1]);
    }
  }
}

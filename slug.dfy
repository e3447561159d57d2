/**
 * The application name and the package name derived from it (`_setAppName`):
 * strip one character, turn whitespace runs into `-`, keep the first 213
 * characters, lower-case.
 */
module Slug {
  import opened Js

  /** The most characters of the first run that the truncation step keeps. */
  const MaxNameLength: nat := 213

  /** The characters of JavaScript's `\s` class. */
  predicate IsWhitespace(c: char) {
    || c == ' ' || c == '\t' || c == '\n' || c == '\r' || c == '\U{000B}' || c == '\U{000C}'
    || c == '\U{00A0}' || c == '\U{1680}' || ('\U{2000}' <= c <= '\U{200A}')
    || c == '\U{2028}' || c == '\U{2029}' || c == '\U{202F}' || c == '\U{205F}'
    || c == '\U{3000}' || c == '\U{FEFF}'
  }

  /** The characters JavaScript's `.` does not match. */
  predicate IsLineTerminator(c: char) {
    c == '\n' || c == '\r' || c == '\U{2028}' || c == '\U{2029}'
  }

  predicate NoWhitespace(s: string) {
    forall i :: 0 <= i < |s| ==> !IsWhitespace(s[i])
  }

  predicate NoLineTerminator(s: string) {
    forall i :: 0 <= i < |s| ==> !IsLineTerminator(s[i])
  }

  predicate IsUpperAscii(c: char) {
    'A' <= c <= 'Z'
  }

  function Min(a: nat, b: nat): nat {
    if a <= b then a else b
  }

  /** `appName || defaults.appName`; `None` is the call without an argument. */
  function ResolveAppName(answer: Option<string>, fallback: string): (name: string)
    ensures answer.Some? && answer.value != "" ==> name == answer.value
    ensures answer.None? || answer.value == "" ==> name == fallback
  {
    match answer
    case Some(a) => OrString(a, fallback)
    case None => fallback
  }

  /** Position of the first `c` in `s`, or `|s|` when there is none. */
  function IndexOf(s: string, c: char): (k: nat)
    ensures k <= |s|
    ensures k < |s| ==> s[k] == c
    ensures forall j :: 0 <= j < k ==> s[j] != c
  {
    if s == [] then 0
    else if s[0] == c then 0
    else 1 + IndexOf(s[1..], c)
  }

  /**
   * `replace(/^\.|_/, '')`: the leftmost match of the pattern is a `.` in
   * first position or, failing that, the first `_` anywhere; that one
   * character is removed, and nothing when there is no match.
   */
  function StripDotOrUnderscore(s: string): (r: string)
    ensures |s| > 0 && s[0] == '.' ==> r == s[1..]
    ensures !(|s| > 0 && s[0] == '.') && '_' !in s ==> r == s
    ensures !(|s| > 0 && s[0] == '.') && '_' in s ==>
      && |r| == |s| - 1
      && exists k :: 0 <= k < |s| && s[k] == '_' && '_' !in s[..k] && r == s[..k] + s[k + 1..]
  {
    if |s| > 0 && s[0] == '.' then s[1..]
    else
      var k := IndexOf(s, '_');
      if k < |s| then
        assert '_' !in s[..k];
        s[..k] + s[k + 1..]
      else
        s
  }

  /** The suffix of `s` after its leading run of whitespace. */
  function SkipWhitespace(s: string): (r: string)
    ensures |r| <= |s| && r == s[|s| - |r|..]
    ensures r == [] || !IsWhitespace(r[0])
    ensures forall i :: 0 <= i < |s| - |r| ==> IsWhitespace(s[i])
    ensures s != [] && IsWhitespace(s[0]) ==> |r| < |s|
  {
    if s != [] && IsWhitespace(s[0]) then SkipWhitespace(s[1..]) else s
  }

  /** `replace(/\s+/g, '-')`: every maximal run of whitespace becomes one `-`. */
  function CollapseWhitespace(s: string): (r: string)
    ensures NoWhitespace(r)
    ensures |r| <= |s|
    ensures r == [] <==> s == []
    ensures NoWhitespace(s) ==> r == s
    decreases |s|
  {
    if s == [] then []
    else if IsWhitespace(s[0]) then
      var rest := CollapseWhitespace(SkipWhitespace(s));
      assert forall i :: 1 <= i < |rest| + 1 ==> ("-" + rest)[i] == rest[i - 1];
      "-" + rest
    else
      var rest := CollapseWhitespace(s[1..]);
      assert NoWhitespace(s) ==> NoWhitespace(s[1..]) && rest == s[1..] && [s[0]] + s[1..] == s;
      assert forall i :: 1 <= i < |rest| + 1 ==> ([s[0]] + rest)[i] == rest[i - 1];
      [s[0]] + rest
  }

  /** Position of the first character `.` matches, or `|s|` when there is none. */
  function FirstMatchable(s: string): (i: nat)
    ensures i <= |s|
    ensures i < |s| ==> !IsLineTerminator(s[i])
    ensures forall j :: 0 <= j < i ==> IsLineTerminator(s[j])
  {
    if s == [] || !IsLineTerminator(s[0]) then 0 else 1 + FirstMatchable(s[1..])
  }

  /** End of the run of characters `.` matches that starts at `i`. */
  function RunEnd(s: string, i: nat): (e: nat)
    requires i <= |s|
    ensures i <= e <= |s|
    ensures forall j :: i <= j < e ==> !IsLineTerminator(s[j])
    ensures e < |s| ==> IsLineTerminator(s[e])
    decreases |s| - i
  {
    if i == |s| || IsLineTerminator(s[i]) then i else RunEnd(s, i + 1)
  }

  /**
   * `replace(/(.{1,213})(.*)/, '$1')`: the leftmost match starts at the first
   * character `.` matches and runs to the end of that run; it is replaced by
   * its first 213 characters. The result is the 213-character prefix whenever
   * the string has no line terminator.
   */
  function TruncateFirstRun(s: string): (r: string)
    ensures |r| <= |s|
    ensures NoLineTerminator(s) ==> r == s[..Min(|s|, MaxNameLength)]
  {
    var i := FirstMatchable(s);
    if i == |s| then s
    else
      var e := RunEnd(s, i);
      s[..i + Min(e - i, MaxNameLength)] + s[e..]
  }

  function LowerAscii(c: char): (d: char)
    ensures !IsUpperAscii(d)
    ensures IsUpperAscii(c) ==> d as int == c as int + 32
    ensures !IsUpperAscii(c) ==> d == c
  {
    if IsUpperAscii(c) then (c as int + 32) as char else c
  }

  /** `toLowerCase()`, restricted to the ASCII letters. */
  function ToLowerAscii(s: string): (r: string)
    ensures |r| == |s|
    ensures forall i :: 0 <= i < |s| ==> r[i] == LowerAscii(s[i])
  {
    seq(|s|, i requires 0 <= i < |s| => LowerAscii(s[i]))
  }

  /** The string the truncation step receives. */
  function Hyphenated(appName: string): string {
    CollapseWhitespace(StripDotOrUnderscore(appName))
  }

  /** `packageName`, derived from the resolved `appName`. */
  function PackageName(appName: string): string {
    ToLowerAscii(TruncateFirstRun(Hyphenated(appName)))
  }

  /**
   * The package name has no whitespace, at most 213 characters and no
   * upper-case ASCII letter; it is the lower-cased 213-character prefix of
   * the hyphenated name, and empty only when that is.
   */
  lemma PackageNameSafe(appName: string)
    ensures var r := PackageName(appName);
      && NoWhitespace(r)
      && |r| <= MaxNameLength
      && (forall i :: 0 <= i < |r| ==> !IsUpperAscii(r[i]))
      && r == ToLowerAscii(Hyphenated(appName)[..Min(|Hyphenated(appName)|, MaxNameLength)])
      && (r == [] <==> Hyphenated(appName) == [])
  {
    var h := Hyphenated(appName);
    assert NoLineTerminator(h) by {
      forall i | 0 <= i < |h| ensures !IsLineTerminator(h[i]) {
        assert !IsWhitespace(h[i]);
      }
    }
  }

  /** A character that is not whitespace is kept, and the rest is collapsed independently. */
  lemma CollapseKeeps(c: char, s: string)
    requires !IsWhitespace(c)
    ensures CollapseWhitespace([c] + s) == [c] + CollapseWhitespace(s)
  {
    assert ([c] + s)[1..] == s;
  }

  /** A maximal run of whitespace, however long, becomes one `-`. */
  lemma CollapseLeadingRun(run: string, tail: string)
    requires run != [] && forall i :: 0 <= i < |run| ==> IsWhitespace(run[i])
    requires tail == [] || !IsWhitespace(tail[0])
    ensures CollapseWhitespace(run + tail) == "-" + CollapseWhitespace(tail)
  {
    SkipRun(run, tail);
    assert (run + tail)[0] == run[0];
  }

  lemma {:induction false} SkipRun(run: string, tail: string)
    requires forall i :: 0 <= i < |run| ==> IsWhitespace(run[i])
    requires tail == [] || !IsWhitespace(tail[0])
    ensures SkipWhitespace(run + tail) == tail
  {
    if run != [] {
      assert (run + tail)[1..] == run[1..] + tail;
      SkipRun(run[1..], tail);
    } else {
      assert run + tail == tail;
    }
  }

  /** A hyphenated name that is short and has no upper-case ASCII letter is already the package name. */
  lemma PackageNameOfShortLower(appName: string)
    requires |Hyphenated(appName)| <= MaxNameLength
    requires forall i :: 0 <= i < |Hyphenated(appName)| ==> !IsUpperAscii(Hyphenated(appName)[i])
    ensures PackageName(appName) == Hyphenated(appName)
  {
    var h := Hyphenated(appName);
    PackageNameSafe(appName);
    assert h[..Min(|h|, MaxNameLength)] == h;
  }

  lemma HyphenatedUnderscoreUnderscoreA()
    ensures Hyphenated("__a") == "_a"
  {
    assert StripDotOrUnderscore("__a") == "_a" by { assert IndexOf("__a", '_') == 0; }
    assert NoWhitespace("_a");
  }

  lemma HyphenatedUnderscoreA()
    ensures Hyphenated("_a") == "a"
  {
    assert StripDotOrUnderscore("_a") == "a" by { assert IndexOf("_a", '_') == 0; }
    assert NoWhitespace("a");
  }

  lemma DerivationOfUnderscoreUnderscoreA()
    ensures PackageName("__a") == "_a"
  {
    HyphenatedUnderscoreUnderscoreA();
    PackageNameOfShortLower("__a");
  }

  lemma DerivationOfUnderscoreA()
    ensures PackageName("_a") == "a"
  {
    HyphenatedUnderscoreA();
    PackageNameOfShortLower("_a");
  }

  /** The slug is not idempotent: a second derivation strips a second underscore. */
  lemma PackageNameNotIdempotent()
    ensures PackageName(PackageName("__a")) != PackageName("__a")
  {
    DerivationOfUnderscoreUnderscoreA();
    DerivationOfUnderscoreA();
  }
}

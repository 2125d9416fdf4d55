/**
 * The few JavaScript built-ins the chatbot core relies on, written out so that
 * their behaviour is explicit: `String.prototype.includes`,
 * `String.prototype.trim` and `Array.prototype.join`.
 */
module Js {

  // ---------------------------------------------------------------------------
  // Prefixes, suffixes and occurrences
  // ---------------------------------------------------------------------------

  predicate StartsWith(s: string, prefix: string) {
    |prefix| <= |s| && s[..|prefix|] == prefix
  }

  predicate EndsWith(s: string, suffix: string) {
    |suffix| <= |s| && s[|s| - |suffix|..] == suffix
  }

  lemma StartsWithAppend(a: string, b: string, prefix: string)
    requires StartsWith(a, prefix)
    ensures StartsWith(a + b, prefix)
  {
    assert (a + b)[..|prefix|] == a[..|prefix|];
  }

  lemma EndsWithPrepend(a: string, b: string, suffix: string)
    requires EndsWith(b, suffix)
    ensures EndsWith(a + b, suffix)
  {
    assert (a + b)[|a + b| - |suffix|..] == b[|b| - |suffix|..];
  }

  lemma EndsWithTransitive(s: string, t: string, u: string)
    requires EndsWith(s, t) && EndsWith(t, u)
    ensures EndsWith(s, u)
  {
    assert s[|s| - |u|..] == s[|s| - |t|..][|t| - |u|..];
  }

  /** A string cannot start with two prefixes that disagree at a common position. */
  lemma PrefixesDisagree(s: string, p: string, q: string, k: int)
    requires StartsWith(s, p) && 0 <= k < |p| && k < |q| && p[k] != q[k]
    ensures !StartsWith(s, q)
  {
    assert s[k] == s[..|p|][k];
  }

  /** Of two suffixes of one string, the shorter is a suffix of the longer. */
  lemma EndsWithShorter(s: string, t: string, u: string)
    requires EndsWith(s, t) && EndsWith(s, u) && |u| <= |t|
    ensures EndsWith(t, u)
  {
    assert t[|t| - |u|..] == s[|s| - |t|..][|t| - |u|..];
  }

  /** A string that ends with `suffix` agrees with it, counting from the end. */
  lemma EndsWithCharAt(s: string, suffix: string, k: int)
    requires EndsWith(s, suffix) && 1 <= k <= |suffix|
    ensures s[|s| - k] == suffix[|suffix| - k]
  {
    assert s[|s| - |suffix|..][|suffix| - k] == s[|s| - k];
  }

  /** `t` occurs in `s` starting at position `i`. */
  ghost predicate OccursAt(s: string, t: string, i: int) {
    0 <= i && i + |t| <= |s| && s[i..i + |t|] == t
  }

  /** `s.includes(t)`: some position of `s` starts an occurrence of `t`. */
  function Includes(s: string, t: string): (r: bool)
    ensures r <==> exists i :: OccursAt(s, t, i)
    decreases |s|
  {
    if |t| > |s| then
      assert forall i :: !OccursAt(s, t, i);
      false
    else if s[..|t|] == t then
      assert OccursAt(s, t, 0);
      true
    else
      var rest := Includes(s[1..], t);
      assert forall i :: OccursAt(s[1..], t, i) ==> OccursAt(s, t, i + 1);
      assert forall i :: 0 < i && OccursAt(s, t, i) ==> OccursAt(s[1..], t, i - 1);
      rest
  }

  /** A string made of `t` between two others includes `t`. */
  lemma IncludesMiddle(a: string, t: string, b: string)
    ensures Includes(a + t + b, t)
  {
    assert OccursAt(a + t + b, t, |a|);
  }

  /** A string that ends with `t` includes `t`. */
  lemma IncludesEnd(a: string, t: string)
    ensures Includes(a + t, t)
  {
    assert OccursAt(a + t, t, |a|);
  }

  /** A string that does not contain the first character of `t` cannot contain `t`. */
  lemma MissingFirstCharExcludes(s: string, t: string)
    requires t != [] && t[0] !in s
    ensures !Includes(s, t)
  {
  }

  // ---------------------------------------------------------------------------
  // trim()
  // ---------------------------------------------------------------------------

  /**
   * The characters `String.prototype.trim` removes: ECMAScript WhiteSpace
   * (tab, vertical tab, form feed, space, no-break space, zero-width no-break
   * space and every space separator) and LineTerminator (LF, CR, U+2028, U+2029).
   */
  predicate IsWhitespace(c: char) {
    || c == '\t' || c == '\n' || c == '\U{000B}' || c == '\U{000C}' || c == '\r'
    || c == ' ' || c == '\U{00A0}' || c == '\U{1680}'
    || ('\U{2000}' <= c <= '\U{200A}')
    || c == '\U{2028}' || c == '\U{2029}' || c == '\U{202F}' || c == '\U{205F}'
    || c == '\U{3000}' || c == '\U{FEFF}'
  }

  /** Drops the leading whitespace: what remains is a suffix that starts with a non-whitespace character. */
  function TrimStart(s: string): (r: string)
    ensures |r| <= |s| && r == s[|s| - |r|..]
    ensures forall i :: 0 <= i < |s| - |r| ==> IsWhitespace(s[i])
    ensures r != [] ==> !IsWhitespace(r[0])
  {
    if s != [] && IsWhitespace(s[0]) then
      var r := TrimStart(s[1..]);
      assert forall i :: 1 <= i < |s| ==> s[i] == s[1..][i - 1];
      r
    else s
  }

  /** Drops the trailing whitespace: what remains is a prefix that ends with a non-whitespace character. */
  function TrimEnd(s: string): (r: string)
    ensures |r| <= |s| && r == s[..|r|]
    ensures forall i :: |r| <= i < |s| ==> IsWhitespace(s[i])
    ensures r != [] ==> !IsWhitespace(r[|r| - 1])
  {
    if s != [] && IsWhitespace(s[|s| - 1]) then
      var r := TrimEnd(s[..|s| - 1]);
      assert forall i :: 0 <= i < |s| - 1 ==> s[i] == s[..|s| - 1][i];
      r
    else s
  }

  /**
   * `r` is the slice of `s` that starts at `start`, and everything of `s`
   * before and after that slice is whitespace.
   */
  ghost predicate SliceBetweenWhitespace(s: string, start: int, r: string) {
    && 0 <= start && start + |r| <= |s| && r == s[start..start + |r|]
    && (forall k :: 0 <= k < start ==> IsWhitespace(s[k]))
    && (forall k :: start + |r| <= k < |s| ==> IsWhitespace(s[k]))
  }

  /**
   * `s.trim()`: `s` with only its leading and trailing whitespace removed;
   * neither end of the result is whitespace, and `BlankIffTrimEmpty` says
   * when it is empty.
   */
  function Trim(s: string): (r: string)
    ensures |r| <= |s|
    ensures exists start :: SliceBetweenWhitespace(s, start, r)
    ensures r != [] ==> !IsWhitespace(r[0]) && !IsWhitespace(r[|r| - 1])
  {
    var t := TrimStart(s);
    var r := TrimEnd(t);
    TrimKeepsSlice(s);
    assert r != [] ==> r[0] == t[0];
    r
  }

  /** Trimming both ends leaves the slice of `s` that starts where the leading whitespace ends. */
  lemma TrimKeepsSlice(s: string)
    ensures SliceBetweenWhitespace(s, |s| - |TrimStart(s)|, TrimEnd(TrimStart(s)))
  {
    WhitespaceAroundPrefixOfSuffix(s, TrimStart(s), TrimEnd(TrimStart(s)));
  }

  /**
   * A prefix `r` of a suffix `t` of `s`, where `s` has only whitespace before
   * `t` and `t` only whitespace after `r`, is a slice of `s` between whitespace.
   */
  lemma WhitespaceAroundPrefixOfSuffix(s: string, t: string, r: string)
    requires |t| <= |s| && t == s[|s| - |t|..]
    requires forall i :: 0 <= i < |s| - |t| ==> IsWhitespace(s[i])
    requires |r| <= |t| && r == t[..|r|]
    requires forall i :: |r| <= i < |t| ==> IsWhitespace(t[i])
    ensures SliceBetweenWhitespace(s, |s| - |t|, r)
  {
    var start := |s| - |t|;
    forall k | start <= k < |s|
      ensures t[k - start] == s[k]
    {
      assert t[k - start] == s[start..][k - start];
    }
    forall j | 0 <= j < |r|
      ensures r[j] == s[start + j]
    {
      assert r[j] == t[..|r|][j];
    }
    assert r == s[start..start + |r|];
  }



  /**
   * `!s.trim()`: nothing but whitespace. `BlankIffTrimEmpty` shows this is
   * exactly the strings that trimming empties.
   */
  predicate IsBlank(s: string) {
    forall i :: 0 <= i < |s| ==> IsWhitespace(s[i])
  }

  lemma {:induction false} TrimStartEmptyIff(s: string)
    ensures TrimStart(s) == "" <==> forall i :: 0 <= i < |s| ==> IsWhitespace(s[i])
  {
    if s != [] && IsWhitespace(s[0]) {
      TrimStartEmptyIff(s[1..]);
      assert forall i :: 1 <= i < |s| ==> s[i] == s[1..][i - 1];
    }
  }

  lemma {:induction false} TrimEndEmptyIff(s: string)
    ensures TrimEnd(s) == "" <==> forall i :: 0 <= i < |s| ==> IsWhitespace(s[i])
  {
    if s != [] && IsWhitespace(s[|s| - 1]) {
      TrimEndEmptyIff(s[..|s| - 1]);
      assert forall i :: 0 <= i < |s| - 1 ==> s[i] == s[..|s| - 1][i];
    }
  }

  /** Trimming empties a string exactly when every one of its characters is whitespace. */
  lemma BlankIffTrimEmpty(s: string)
    ensures IsBlank(s) <==> Trim(s) == ""
  {
    TrimStartEmptyIff(s);
    var t := TrimStart(s);
    TrimEndEmptyIff(t);
  }

  // ---------------------------------------------------------------------------
  // Array.prototype.join
  // ---------------------------------------------------------------------------

  /** `items.join(sep)`. */
  function Join(items: seq<string>, sep: string): string {
    if items == [] then ""
    else if |items| == 1 then items[0]
    else items[0] + sep + Join(items[1..], sep)
  }
}

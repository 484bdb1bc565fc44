/// The `strings` routines the client calls: `TrimSpace` and `Trim` (both
/// `TrimFunc` with a character class), `TrimPrefix`, `ToLower` and `ToUpper`.
module GoStrings {

  /** `unicode.IsSpace`: the characters with the Unicode White_Space property.
      `strings.TrimSpace(s)` is `TrimFunc(s, IsSpace)`. */
  predicate IsSpace(c: char)
  {
    || c == ' ' || c == '\t' || c == '\n' || c == '\U{B}' || c == '\U{C}' || c == '\r'
    || c == '\U{85}' || c == '\U{A0}' || c == '\U{1680}'
    || ('\U{2000}' <= c <= '\U{200A}')
    || c == '\U{2028}' || c == '\U{2029}' || c == '\U{202F}' || c == '\U{205F}' || c == '\U{3000}'
  }

  predicate IsSlash(c: char)
  {
    c == '/'
  }

  predicate AllIn(s: string, f: char -> bool)
  {
    forall i | 0 <= i < |s| :: f(s[i])
  }

  /** `strings.TrimLeftFunc`: drop the longest prefix whose characters satisfy `f`. */
  function TrimLeftFunc(s: string, f: char -> bool): (r: string)
    ensures |r| <= |s| && r == s[|s| - |r|..]
    ensures AllIn(s[..|s| - |r|], f)
    ensures r == [] || !f(r[0])
  {
    if |s| > 0 && f(s[0]) then
      var r := TrimLeftFunc(s[1..], f);
      assert s[..|s| - |r|] == [s[0]] + s[1..][..|s| - 1 - |r|];
      r
    else
      s
  }

  /** `strings.TrimRightFunc`: drop the longest suffix whose characters satisfy `f`. */
  function TrimRightFunc(s: string, f: char -> bool): (r: string)
    ensures |r| <= |s| && r == s[..|r|]
    ensures AllIn(s[|r|..], f)
    ensures r == [] || !f(r[|r| - 1])
  {
    if |s| > 0 && f(s[|s| - 1]) then
      var r := TrimRightFunc(s[..|s| - 1], f);
      assert s[|r|..] == s[..|s| - 1][|r|..] + [s[|s| - 1]];
      r
    else
      s
  }

  /** `r` is `s` with some characters satisfying `f` cut from each end. */
  ghost predicate CutFromEnds(s: string, r: string, f: char -> bool)
  {
    exists a {:trigger s[..a]} :: 0 <= a <= |s| - |r| && r == s[a..a + |r|] && AllIn(s[..a], f) && AllIn(s[a + |r|..], f)
  }

  /** `strings.TrimFunc`: cut from both ends, leaving no character that
      satisfies `f` at either end. */
  function TrimFunc(s: string, f: char -> bool): (r: string)
    ensures CutFromEnds(s, r, f)
    ensures r == [] || (!f(r[0]) && !f(r[|r| - 1]))
  {
    TrimLeftThenRight(s, f);
    TrimRightFunc(TrimLeftFunc(s, f), f)
  }

  /** Cutting the left end and then the right end cuts from both ends. */
  lemma TrimLeftThenRight(s: string, f: char -> bool)
    ensures CutFromEnds(s, TrimRightFunc(TrimLeftFunc(s, f), f), f)
  {
    var l := TrimLeftFunc(s, f);
    var a := |s| - |l|;
    KeptMiddle(s, l, TrimRightFunc(l, f), a);
    assert AllIn(s[..a], f);
  }

  /** A prefix of a suffix is a middle slice, and what follows it is the
      rest of the suffix. */
  lemma KeptMiddle(s: string, l: string, r: string, a: nat)
    requires a <= |s| && l == s[a..] && |r| <= |l| && r == l[..|r|]
    ensures r == s[a..a + |r|] && s[a + |r|..] == l[|r|..]
  {
  }

  /** A string with nothing to cut at either end is left as it is. */
  lemma TrimFuncKeepsTrimmed(s: string, f: char -> bool)
    requires s == [] || (!f(s[0]) && !f(s[|s| - 1]))
    ensures TrimFunc(s, f) == s
  {
    assert TrimLeftFunc(s, f) == s;
    assert TrimRightFunc(s, f) == s;
  }

  /** A string made only of cut characters trims to nothing. */
  lemma TrimFuncAllCut(s: string, f: char -> bool)
    requires AllIn(s, f)
    ensures TrimFunc(s, f) == []
  {
  }

  /** `strings.TrimPrefix`: remove `prefix` once if `s` starts with it. */
  function TrimPrefix(s: string, prefix: string): string
  {
    if |prefix| <= |s| && s[..|prefix|] == prefix then s[|prefix|..] else s
  }

  /** Exactly one copy of the prefix is removed. */
  lemma TrimPrefixRemovesOnce(s: string, prefix: string)
    ensures TrimPrefix(prefix + s, prefix) == s
  {
    assert (prefix + s)[..|prefix|] == prefix;
  }

  /** A string is kept whole exactly when it does not start with the
      prefix or the prefix is empty. */
  lemma TrimPrefixAbsent(s: string, prefix: string)
    ensures TrimPrefix(s, prefix) == s <==> prefix == [] || !(|prefix| <= |s| && s[..|prefix|] == prefix)
  {
    if prefix != [] && |prefix| <= |s| && s[..|prefix|] == prefix {
      assert |TrimPrefix(s, prefix)| < |s|;
    }
  }

  /** Case mapping of ASCII letters (`unicode.ToLower`/`ToUpper` restricted to ASCII). */
  function LowerChar(c: char): char
  {
    if 'A' <= c <= 'Z' then (c as int + 32) as char else c
  }

  function UpperChar(c: char): char
  {
    if 'a' <= c <= 'z' then (c as int - 32) as char else c
  }

  /** `strings.ToLower`, character by character. */
  function ToLower(s: string): string
  {
    seq(|s|, i requires 0 <= i < |s| => LowerChar(s[i]))
  }

  /** `strings.ToUpper`, character by character. */
  function ToUpper(s: string): string
  {
    seq(|s|, i requires 0 <= i < |s| => UpperChar(s[i]))
  }

  /** Lower-casing twice is lower-casing once: a stored lower-cased key is
      found again by lower-casing it. */
  lemma ToLowerIdempotent(s: string)
    ensures ToLower(ToLower(s)) == ToLower(s)
  {
    var once := ToLower(s);
    var twice := ToLower(once);
    assert forall i | 0 <= i < |s| :: twice[i] == LowerChar(LowerChar(s[i])) == once[i];
  }

  /** A string without upper-case ASCII letters is its own lower case. */
  lemma LowerCaseUnchanged(s: string)
    requires forall i | 0 <= i < |s| :: !('A' <= s[i] <= 'Z')
    ensures ToLower(s) == s
  {
    var r := ToLower(s);
    assert forall i | 0 <= i < |s| :: r[i] == s[i];
  }

  /** A string without lower-case ASCII letters is its own upper case. */
  lemma UpperCaseUnchanged(s: string)
    requires forall i | 0 <= i < |s| :: !('a' <= s[i] <= 'z')
    ensures ToUpper(s) == s
  {
    var r := ToUpper(s);
    assert forall i | 0 <= i < |s| :: r[i] == s[i];
  }

  /** Upper-casing twice is upper-casing once. */
  lemma ToUpperIdempotent(s: string)
    ensures ToUpper(ToUpper(s)) == ToUpper(s)
  {
    var once := ToUpper(s);
    var twice := ToUpper(once);
    assert forall i | 0 <= i < |s| :: twice[i] == UpperChar(UpperChar(s[i])) == once[i];
  }
}

/**
 * The handful of `str` operations the angle parser relies on, over strings
 * as sequences of Unicode scalar values: `ends_with`, `trim_end_matches`
 * and `trim_end`.
 */
module Text {

  /** `s.ends_with(suffix)`: `s` is some text followed by `suffix`. */
  predicate EndsWith(s: string, suffix: string)
    ensures EndsWith(s, suffix) <==> |suffix| <= |s| && s == s[..|s| - |suffix|] + suffix
  {
    |suffix| <= |s| && s[|s| - |suffix|..] == suffix
  }

  /**
   * `char::is_whitespace`: the 25 characters with the Unicode White_Space
   * property, listed one by one in the contract and as ranges in the body.
   */
  predicate IsWhitespace(c: char)
    ensures IsWhitespace(c) <==> c in {
      '\t', '\n', '\U{000B}', '\U{000C}', '\r', ' ', '\U{0085}', '\U{00A0}', '\U{1680}',
      '\U{2000}', '\U{2001}', '\U{2002}', '\U{2003}', '\U{2004}', '\U{2005}', '\U{2006}',
      '\U{2007}', '\U{2008}', '\U{2009}', '\U{200A}', '\U{2028}', '\U{2029}', '\U{202F}',
      '\U{205F}', '\U{3000}'}
  {
    ('\t' <= c <= '\r') || c == ' ' || c == '\U{0085}' || c == '\U{00A0}' || c == '\U{1680}'
    || ('\U{2000}' <= c <= '\U{200A}') || c == '\U{2028}' || c == '\U{2029}'
    || c == '\U{202F}' || c == '\U{205F}' || c == '\U{3000}'
  }

  /** Every character of `w` is whitespace. */
  predicate AllWhitespace(w: string)
    decreases |w|
  {
    w == [] || (IsWhitespace(w[|w| - 1]) && AllWhitespace(w[..|w| - 1]))
  }

  predicate EndsInWhitespace(s: string) {
    |s| > 0 && IsWhitespace(s[|s| - 1])
  }

  /** `t` is zero or more copies of `pat` laid end to end. */
  predicate Repeats(t: string, pat: string)
    requires |pat| > 0
    decreases |t|
  {
    t == [] || (EndsWith(t, pat) && Repeats(t[..|t| - |pat|], pat))
  }

  /**
   * One step of `TrimEndMatches`: a prefix `r` of `s` without its last copy of
   * `pat` is a prefix of `s`, and what follows it in `s` gains that copy.
   */
  lemma TrimStep(s: string, shorter: string, r: string, pat: string)
    requires EndsWith(s, pat) && shorter == s[..|s| - |pat|]
    requires |r| <= |shorter| && r == shorter[..|r|]
    ensures |r| <= |s| && r == s[..|r|]
    ensures s[|r|..] == shorter[|r|..] + pat
  {
    assert s == shorter + pat;
  }

  /** One more copy of `pat` at the end keeps a repetition a repetition. */
  lemma RepeatsExtend(u: string, pat: string)
    requires |pat| > 0 && Repeats(u, pat)
    ensures Repeats(u + pat, pat)
  {
    var v := u + pat;
    assert v[|v| - |pat|..] == pat;
    assert v[..|v| - |pat|] == u;
  }

  /**
   * `s.trim_end_matches(pat)`: strips copies of `pat` from the end of `s` for as
   * long as `s` ends in one.
   */
  function TrimEndMatches(s: string, pat: string): (r: string)
    requires |pat| > 0
    ensures |r| <= |s| && r == s[..|r|]
    ensures Repeats(s[|r|..], pat)
    ensures !EndsWith(r, pat)
    decreases |s|
  {
    if EndsWith(s, pat) then
      var shorter := s[..|s| - |pat|];
      var r := TrimEndMatches(shorter, pat);
      TrimStep(s, shorter, r, pat);
      RepeatsExtend(shorter[|r|..], pat);
      r
    else
      assert s[|s|..] == [];
      s
  }

  /** `s.trim_end()`: strips trailing whitespace. */
  function TrimEnd(s: string): (r: string)
    ensures |r| <= |s| && r == s[..|r|]
    ensures AllWhitespace(s[|r|..])
    ensures !EndsInWhitespace(r)
    decreases |s|
  {
    if EndsInWhitespace(s) then
      var r := TrimEnd(s[..|s| - 1]);
      var w := s[|r|..];
      assert w[..|w| - 1] == s[..|s| - 1][|r|..];
      assert w[|w| - 1] == s[|s| - 1];
      r
    else
      s
  }

  /** The part `TrimEndMatches` keeps is determined uniquely by the shape of its input. */
  lemma {:induction false} TrimEndMatchesOf(p: string, t: string, pat: string)
    requires |pat| > 0
    requires Repeats(t, pat) && !EndsWith(p, pat)
    ensures TrimEndMatches(p + t, pat) == p
    decreases |t|
  {
    if t == [] {
      assert p + t == p;
    } else {
      var t' := t[..|t| - |pat|];
      assert (p + t)[..|p + t| - |pat|] == p + t';
      assert (p + t)[|p + t| - |pat|..] == t[|t| - |pat|..];
      TrimEndMatchesOf(p, t', pat);
    }
  }

  /** The part `TrimEnd` keeps is determined uniquely by the shape of its input. */
  lemma {:induction false} TrimEndOf(p: string, w: string)
    requires AllWhitespace(w) && !EndsInWhitespace(p)
    ensures TrimEnd(p + w) == p
    decreases |w|
  {
    if w == [] {
      assert p + w == p;
    } else {
      assert (p + w)[..|p + w| - 1] == p + w[..|w| - 1];
      TrimEndOf(p, w[..|w| - 1]);
    }
  }
}

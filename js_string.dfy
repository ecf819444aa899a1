/** The part of JavaScript's `String.prototype.trim` the forms rely on. */
module JsString {

  /** ECMAScript WhiteSpace and LineTerminator code points: what `trim` removes. */
  predicate IsWhitespace(c: char) {
    c == '\t' || c == '\n' || c == '\U{000B}' || c == '\U{000C}' || c == '\r' || c == ' ' ||
    c == '\U{00A0}' || c == '\U{1680}' || ('\U{2000}' <= c <= '\U{200A}') ||
    c == '\U{2028}' || c == '\U{2029}' || c == '\U{202F}' || c == '\U{205F}' ||
    c == '\U{3000}' || c == '\U{FEFF}'
  }

  /** Every character of `s` is whitespace (the empty string included). */
  predicate Blank(s: string) {
    forall i :: 0 <= i < |s| ==> IsWhitespace(s[i])
  }

  /** `s` without its leading whitespace. */
  function TrimStart(s: string): (r: string)
    ensures |r| <= |s| && r == s[|s| - |r|..]
    ensures Blank(s[..|s| - |r|])
    ensures r == [] || !IsWhitespace(r[0])
  {
    if s != [] && IsWhitespace(s[0]) then
      var r := TrimStart(s[1..]);
      assert s[..|s| - |r|] == [s[0]] + s[1..][..|s| - 1 - |r|];
      r
    else s
  }

  /** `s` without its trailing whitespace. */
  function TrimEnd(s: string): (r: string)
    ensures |r| <= |s| && r == s[..|r|]
    ensures Blank(s[|r|..])
    ensures r == [] || !IsWhitespace(r[|r| - 1])
  {
    if s != [] && IsWhitespace(s[|s| - 1]) then
      var r := TrimEnd(s[..|s| - 1]);
      assert s[|r|..] == s[..|s| - 1][|r|..] + [s[|s| - 1]];
      r
    else s
  }

  /** `s.trim()`. */
  function Trim(s: string): string {
    TrimEnd(TrimStart(s))
  }

  /**
   * What `trim` leaves is a slice of `s` that starts and ends visibly, with
   * only whitespace cut on either side; it is empty exactly when `s` is blank.
   */
  lemma TrimIsBlankCut(s: string)
    ensures var r := Trim(s); var i := |s| - |TrimStart(s)|;
      i + |r| <= |s| && r == s[i..i + |r|] && Blank(s[..i]) && Blank(s[i + |r|..]) &&
      (r == [] || (!IsWhitespace(r[0]) && !IsWhitespace(r[|r| - 1]))) &&
      (r == [] <==> Blank(s))
  {
    TrimBothEnds(s, |s| - |TrimStart(s)|, TrimStart(s), TrimEnd(TrimStart(s)));
  }

  /**
   * A blank cut before `i`, then a blank cut after the first `|r|`
   * characters of what is left: `r` is a slice of `s` between blank cuts.
   */
  lemma TrimBothEnds(s: string, i: nat, t: string, r: string)
    requires i <= |s| && t == s[i..] && Blank(s[..i])
    requires |r| <= |t| && r == t[..|r|] && Blank(t[|r|..])
    requires r == [] || !IsWhitespace(r[0])
    ensures i + |r| <= |s| && r == s[i..i + |r|] && Blank(s[i + |r|..])
    ensures r == [] <==> Blank(s)
  {
    PrefixOfSuffix(s, i, |r|);
    BlankIffEmptyTrim(s, i, |r|);
  }

  /** The first `k` characters of the suffix from `i` are the slice `s[i..i + k]`. */
  lemma PrefixOfSuffix(s: string, i: nat, k: nat)
    requires i + k <= |s|
    ensures s[i..][..k] == s[i..i + k] && s[i..][k..] == s[i + k..]
  {
  }

  /**
   * With only whitespace before `i` and from `i + k` on, and a visible
   * character at `i` when `k > 0`, the string is blank exactly when `k == 0`.
   */
  lemma BlankIffEmptyTrim(s: string, i: nat, k: nat)
    requires i + k <= |s| && Blank(s[..i]) && Blank(s[i + k..])
    requires k == 0 || !IsWhitespace(s[i])
    ensures k == 0 <==> Blank(s)
  {
    if k == 0 {
      forall j | 0 <= j < |s| ensures IsWhitespace(s[j]) {
        if j < i {
          assert s[j] == s[..i][j];
        } else {
          assert s[j] == s[i + k..][j - i];
        }
      }
    }
  }

  /** Trailing whitespace appended to a string is exactly what TrimEnd removes again. */
  lemma {:induction false} TrimEndBlankSuffix(a: string, b: string)
    requires Blank(b)
    ensures TrimEnd(a + b) == TrimEnd(a)
    decreases |b|
  {
    if b != [] {
      var b' := b[..|b| - 1];
      assert (a + b)[..|a + b| - 1] == a + b';
      TrimEndBlankSuffix(a, b');
    } else {
      assert a + b == a;
    }
  }

  /** Trimming the end never reaches past the last visible character of an appended part. */
  lemma {:induction false} TrimEndVisibleSuffix(a: string, b: string)
    requires !Blank(b)
    ensures TrimEnd(a + b) == a + TrimEnd(b)
    decreases |b|
  {
    var b' := b[..|b| - 1];
    assert (a + b)[..|a + b| - 1] == a + b';
    if IsWhitespace(b[|b| - 1]) {
      assert !Blank(b') by {
        var i :| 0 <= i < |b| && !IsWhitespace(b[i]);
        assert b'[i] == b[i];
      }
      TrimEndVisibleSuffix(a, b');
    }
  }

}

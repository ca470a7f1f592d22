/**
 * The two ECMAScript string operations the screen relies on:
 * `String.prototype.trim` and `String.prototype.includes`.
 * A string is a sequence of Unicode scalar values.
 */
module JsStrings {

  /**
   * ECMAScript WhiteSpace and LineTerminator code points, the set that
   * `trim` removes: TAB, VT, FF, SP, NBSP, ZWNBSP, the other members of
   * the Unicode "Zs" category, LF, CR, LS and PS.
   */
  predicate IsWhitespace(c: char) {
    c == '\t' || c == '\U{000B}' || c == '\U{000C}' || c == ' ' || c == '\U{00A0}' || c == '\U{FEFF}'
    || c == '\U{1680}' || ('\U{2000}' <= c <= '\U{200A}') || c == '\U{202F}' || c == '\U{205F}' || c == '\U{3000}'
    || c == '\n' || c == '\r' || c == '\U{2028}' || c == '\U{2029}'
  }

  /** Every character of `s` is whitespace (the empty string included). */
  predicate Blank(s: string) {
    forall i :: 0 <= i < |s| ==> IsWhitespace(s[i])
  }

  /** `s` with its leading whitespace removed. */
  function TrimStart(s: string): (r: string)
    ensures |r| <= |s| && r == s[|s| - |r|..]
    ensures forall i :: 0 <= i < |s| - |r| ==> IsWhitespace(s[i])
    ensures r != [] ==> !IsWhitespace(r[0])
  {
    if s != [] && IsWhitespace(s[0]) then TrimStart(s[1..]) else s
  }

  /** `s` with its trailing whitespace removed. */
  function TrimEnd(s: string): (r: string)
    ensures |r| <= |s| && r == s[..|r|]
    ensures forall i :: |r| <= i < |s| ==> IsWhitespace(s[i])
    ensures r != [] ==> !IsWhitespace(r[|r| - 1])
  {
    if s != [] && IsWhitespace(s[|s| - 1]) then TrimEnd(s[..|s| - 1]) else s
  }

  /**
   * `s.trim()`: a slice of `s` that is empty exactly when `s` is blank,
   * and otherwise starts and ends with a non-whitespace character.
   */
  function Trim(s: string): (r: string)
    ensures |r| <= |s|
    ensures exists a, b :: 0 <= a <= b <= |s| && r == s[a..b] && Blank(s[..a]) && Blank(s[b..])
    ensures r == [] <==> Blank(s)
    ensures r != [] ==> !IsWhitespace(r[0]) && !IsWhitespace(r[|r| - 1])
  {
    var t := TrimStart(s);
    assert t != [] ==> s[|s| - |t|] == t[0];
    TrimSlice(s);
    TrimEnd(t)
  }

  /** Trimming both ends cuts only whitespace off a slice of `s`. */
  lemma TrimSlice(s: string)
    ensures var r := TrimEnd(TrimStart(s));
      exists a, b :: 0 <= a <= b <= |s| && r == s[a..b] && Blank(s[..a]) && Blank(s[b..])
  {
    LeadingBlank(s);
    TrailingBlank(TrimStart(s));
    SliceOfSuffix(s, TrimStart(s), TrimEnd(TrimStart(s)));
  }

  /** A prefix `u` of a suffix `t` of `s`, with blank cut-offs, is a slice of `s` with blank cut-offs. */
  lemma SliceOfSuffix(s: string, t: string, u: string)
    requires |u| <= |t| <= |s| && t == s[|s| - |t|..] && u == t[..|u|]
    requires Blank(s[..|s| - |t|]) && Blank(t[|u|..])
    ensures exists a, b :: 0 <= a <= b <= |s| && u == s[a..b] && Blank(s[..a]) && Blank(s[b..])
  {
    var a, b := |s| - |t|, |s| - |t| + |u|;
    assert u == s[a..b] by { assert t[..|u|] == s[a..b]; }
    assert s[b..] == t[|u|..] by {
      assert t[|u|..] == s[a..][|u|..];
      assert s[a..][|u|..] == s[a + |u|..];
    }
    assert 0 <= a <= b <= |s| && u == s[a..b] && Blank(s[..a]) && Blank(s[b..]);
  }

  /** What `TrimStart` cuts off is blank. */
  lemma LeadingBlank(s: string)
    ensures Blank(s[..|s| - |TrimStart(s)|])
  {
    var a := |s| - |TrimStart(s)|;
    forall i | 0 <= i < a ensures IsWhitespace(s[..a][i]) {
      assert s[..a][i] == s[i];
    }
  }

  /** What `TrimEnd` cuts off is blank. */
  lemma TrailingBlank(t: string)
    ensures Blank(t[|TrimEnd(t)|..])
  {
    var n := |TrimEnd(t)|;
    forall i | 0 <= i < |t| - n ensures IsWhitespace(t[n..][i]) {
      assert t[n..][i] == t[n + i];
    }
  }

  /** `t` occurs in `s` starting at index `i`. */
  predicate OccursAt(s: string, t: string, i: int) {
    0 <= i && i + |t| <= |s| && s[i..i + |t|] == t
  }

  /** `s.includes(t)`: try `t` as a prefix of `s`, then of each shorter suffix. */
  function Includes(s: string, t: string): (r: bool)
    ensures r ==> |t| <= |s|
    ensures t <= s ==> r
    decreases |s|
  {
    if |t| > |s| then false
    else if t <= s then true
    else s != [] && Includes(s[1..], t)
  }

  /** `Includes` agrees with the existence of an occurrence, in both directions. */
  lemma {:induction false} IncludesIff(s: string, t: string)
    ensures Includes(s, t) <==> exists i :: OccursAt(s, t, i)
    decreases |s|
  {
    if Includes(s, t) {
      if t <= s {
        assert OccursAt(s, t, 0);
      } else {
        IncludesIff(s[1..], t);
        var i :| OccursAt(s[1..], t, i);
        assert s[1..][i..i + |t|] == s[i + 1..i + 1 + |t|];
        assert OccursAt(s, t, i + 1);
      }
    }
    if exists i :: OccursAt(s, t, i) {
      var i :| OccursAt(s, t, i);
      if i == 0 {
        assert t <= s;
      } else {
        assert s[1..][i - 1..i - 1 + |t|] == s[i..i + |t|];
        assert OccursAt(s[1..], t, i - 1);
        IncludesIff(s[1..], t);
      }
    }
  }

  /** Every string includes itself. */
  lemma IncludesSelf(s: string)
    ensures Includes(s, s)
  {
  }
}

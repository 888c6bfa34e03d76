/** String helpers (src/utility/CommonHelperUtility.ts): stripping of nested
    parentheses and the 32-bit string hash. */
module CommonHelper {

  // ---------------------------------------------------------------------
  // removeNestedParentheses

  /** Change of the nesting depth caused by one character. */
  function Delta(c: char): int
  {
    if c == '(' then 1 else if c == ')' then -1 else 0
  }

  /** Nesting depth after reading `p`; an unmatched ')' makes it negative. */
  function Depth(p: string): int
  {
    if |p| == 0 then 0 else Depth(p[..|p| - 1]) + Delta(p[|p| - 1])
  }

  /** What one character contributes at depth `d` (the depth before it):
      '(' only from depth 0, ')' only when it brings the depth back to 0,
      anything else while the depth is at most 1. */
  function Emit(c: char, d: int): string
  {
    if c == '(' then (if d == 0 then "(" else "")
    else if c == ')' then (if d - 1 == 0 then ")" else "")
    else if d <= 1 then [c] else ""
  }

  /** The output of the source's loop on `p`. */
  function Stripped(p: string): string
  {
    if |p| == 0 then "" else Stripped(p[..|p| - 1]) + Emit(p[|p| - 1], Depth(p[..|p| - 1]))
  }

  /** `a` can be obtained from `b` by deleting characters. */
  predicate IsSubsequence(a: string, b: string)
    decreases |b|
  {
    if |b| == 0 then |a| == 0
    else IsSubsequence(a, b[..|b| - 1])
         || (|a| > 0 && a[|a| - 1] == b[|b| - 1] && IsSubsequence(a[..|a| - 1], b[..|b| - 1]))
  }

  /** `removeNestedParentheses`: the character loop keeping the open count. */
  method RemoveNestedParentheses(str: string) returns (result: string)
    ensures result == Stripped(str)
    ensures IsSubsequence(result, str)
  {
    var openCount := 0;
    result := "";
    for i := 0 to |str|
      invariant openCount == Depth(str[..i])
      invariant result == Stripped(str[..i])
    {
      assert str[..i + 1][..i] == str[..i];
      var ch := str[i];
      if ch == '(' {
        if openCount == 0 {
          result := result + [ch];
        }
        openCount := openCount + 1;
      } else if ch == ')' {
        openCount := openCount - 1;
        if openCount == 0 {
          result := result + [ch];
        }
      } else if openCount <= 1 {
        result := result + [ch];
      }
    }
    assert str[..|str|] == str;
    StrippedIsSubsequence(str);
  }

  /** The output only deletes characters of the input. */
  lemma {:induction false} StrippedIsSubsequence(p: string)
    ensures IsSubsequence(Stripped(p), p)
  {
    if |p| > 0 {
      var q := p[..|p| - 1];
      StrippedIsSubsequence(q);
      var e := Emit(p[|p| - 1], Depth(q));
      if |e| == 0 {
        assert Stripped(p) == Stripped(q);
      } else {
        assert Stripped(p) == Stripped(q) + [p[|p| - 1]];
        assert (Stripped(q) + [p[|p| - 1]])[..|Stripped(q)|] == Stripped(q);
      }
    }
  }

  /** Every prefix of `t` has depth 0 or 1: no nesting and no unmatched ')'. */
  predicate Shallow(t: string)
  {
    forall i :: 0 <= i <= |t| ==> 0 <= Depth(t[..i]) <= 1
  }

  /** Every prefix of `t` has non-negative depth: no unmatched ')'. */
  predicate NoUnmatchedClose(t: string)
  {
    forall i :: 0 <= i <= |t| ==> 0 <= Depth(t[..i])
  }

  /** A string without nesting comes back unchanged. */
  lemma {:induction false} StrippedShallowIdentity(t: string)
    requires Shallow(t)
    ensures Stripped(t) == t
  {
    if |t| > 0 {
      var q := t[..|t| - 1];
      assert forall i :: 0 <= i <= |q| ==> q[..i] == t[..i];
      StrippedShallowIdentity(q);
      assert t[..|t|] == t;
      assert 0 <= Depth(q) <= 1 && 0 <= Depth(t) <= 1;
    }
  }

  /** Without unmatched ')' the output never nests, and its depth is the
      input's depth capped at 1. */
  lemma {:induction false} StrippedShallow(p: string)
    requires NoUnmatchedClose(p)
    ensures Shallow(Stripped(p))
    ensures Depth(Stripped(p)) == if Depth(p) >= 1 then 1 else 0
  {
    if |p| > 0 {
      var q := p[..|p| - 1];
      var c := p[|p| - 1];
      assert forall i :: 0 <= i <= |q| ==> q[..i] == p[..i];
      assert p[..|p|] == p;
      StrippedShallow(q);
      var sq := Stripped(q);
      var e := Emit(c, Depth(q));
      assert Stripped(p) == sq + e;
      if |e| == 0 {
        assert sq + e == sq;
      } else {
        var t := sq + e;
        assert t[..|sq|] == sq;
        assert t[..|t| - 1] == sq;
        assert Depth(t) == Depth(sq) + Delta(c);
        forall i | 0 <= i <= |t|
          ensures 0 <= Depth(t[..i]) <= 1
        {
          if i <= |sq| {
            assert t[..i] == sq[..i];
          } else {
            assert t[..i] == t;
          }
        }
      }
    }
  }

  /** Stripping is idempotent on strings without unmatched ')'. */
  lemma StrippedIdempotent(p: string)
    requires NoUnmatchedClose(p)
    ensures Stripped(Stripped(p)) == Stripped(p)
  {
    StrippedShallow(p);
    StrippedShallowIdentity(Stripped(p));
  }

  /** After an unmatched ')' the depth is negative and every ordinary
      character is still kept. */
  lemma OrdinaryKeptWhenNegative(p: string, c: char)
    requires Depth(p) < 0 && c != '(' && c != ')'
    ensures Stripped(p + [c]) == Stripped(p) + [c]
  {
    assert (p + [c])[..|p|] == p;
  }

  // ---------------------------------------------------------------------
  // stringToFixedNumber

  /** A UTF-16 code unit, as `charCodeAt` returns it. */
  type CodeUnit = x: int | 0 <= x < 0x1_0000

  const TwoTo31: int := 0x8000_0000
  const TwoTo32: int := 0x1_0000_0000

  /** ECMAScript ToInt32: the integer congruent to `x` modulo 2^32 in
      [-2^31, 2^31). */
  function ToInt32(x: int): (r: int)
    ensures -TwoTo31 <= r < TwoTo31
    ensures (r - x) % TwoTo32 == 0
  {
    (x + TwoTo31) % TwoTo32 - TwoTo31
  }

  /** ToInt32 depends only on the residue modulo 2^32. */
  lemma ToInt32Congruent(x: int, y: int)
    requires (x - y) % TwoTo32 == 0
    ensures ToInt32(x) == ToInt32(y)
  {
    var k := (x - y) / TwoTo32;
    assert x == y + k * TwoTo32;
    assert (x + TwoTo31) % TwoTo32 == (y + TwoTo31 + k * TwoTo32) % TwoTo32;
    ModShift(y + TwoTo31, k);
  }

  lemma ModShift(a: int, k: int)
    ensures (a + k * TwoTo32) % TwoTo32 == a % TwoTo32
  {
  }

  /** The 32-bit polynomial hash the loop computes: `h := int32(31 h + c)`. */
  function Hash(s: seq<CodeUnit>): (h: int)
    ensures -TwoTo31 <= h < TwoTo31
  {
    if |s| == 0 then 0 else ToInt32(31 * Hash(s[..|s| - 1]) + s[|s| - 1])
  }

  /** One step of the source loop, `((h << 5) - h + c) | 0`, is the
      polynomial step. */
  lemma ShiftStep(h: int, c: CodeUnit)
    requires -TwoTo31 <= h < TwoTo31
    ensures ToInt32(ToInt32(h * 32) - h + c) == ToInt32(31 * h + c)
  {
    var a := ToInt32(h * 32) - h + c;
    assert (ToInt32(h * 32) - h * 32) % TwoTo32 == 0;
    assert a - (31 * h + c) == ToInt32(h * 32) - h * 32;
    ToInt32Congruent(a, 31 * h + c);
  }

  /** `stringToFixedNumber`: |hash| of the string's code units. */
  method StringToFixedNumber(str: seq<CodeUnit>) returns (r: int)
    ensures r == if Hash(str) < 0 then -Hash(str) else Hash(str)
    ensures 0 <= r <= TwoTo31
    ensures str == [] ==> r == 0
  {
    var hash := 0;
    for i := 0 to |str|
      invariant hash == Hash(str[..i])
    {
      assert str[..i + 1][..i] == str[..i];
      ShiftStep(hash, str[i]);
      hash := ToInt32(ToInt32(hash * 32) - hash + str[i]);
    }
    assert str[..|str|] == str;
    r := if hash < 0 then -hash else hash;
  }

  /** A one-unit string hashes to its code unit. */
  lemma HashSingle(c: CodeUnit)
    ensures Hash([c]) == c
  {
    assert [c][..0] == [];
  }

  /** Appending a unit extends the hash by one polynomial step, so hashes
      of strings sharing a prefix are computed incrementally. */
  lemma HashAppend(s: seq<CodeUnit>, c: CodeUnit)
    ensures Hash(s + [c]) == ToInt32(31 * Hash(s) + c)
  {
    assert (s + [c])[..|s|] == s;
  }
}

/**
 * Character and string helpers that stand for the Python built-ins the
 * integration relies on (`str.isdigit`, `str.replace`, `str.lstrip`,
 * `str.lower`, `str(int)`), restricted to ASCII.
 */
module Text {

  predicate IsDigit(c: char)
  {
    '0' <= c <= '9'
  }

  /** `any(c.isdigit() for c in s)` */
  predicate HasDigit(s: string)
  {
    exists i | 0 <= i < |s| :: IsDigit(s[i])
  }

  /** `s.isdigit()`: at least one character, and all of them digits. */
  predicate IsDigitString(s: string)
  {
    |s| > 0 && forall i | 0 <= i < |s| :: IsDigit(s[i])
  }

  predicate StartsWith(s: string, prefix: string)
  {
    |prefix| <= |s| && s[..|prefix|] == prefix
  }

  /** No character of `s` is `c`. */
  predicate Lacks(s: string, c: char)
  {
    forall i | 0 <= i < |s| :: s[i] != c
  }

  /** Every character of `r` occurs in `s`. */
  predicate DrawnFrom(r: string, s: string)
  {
    forall i | 0 <= i < |r| :: r[i] in s
  }

  /** `s.replace(c, '')` for a single character `c`. */
  function Without(s: string, c: char): (r: string)
    ensures |r| <= |s|
    ensures Lacks(r, c)
    ensures DrawnFrom(r, s)
    ensures Lacks(s, c) ==> r == s
  {
    if s == [] then []
    else if s[0] == c then Without(s[1..], c)
    else [s[0]] + Without(s[1..], c)
  }

  /**
   * Removal works piece by piece: with `WithoutOne`, every character other
   * than `c` is kept, in order.
   */
  lemma {:induction false} WithoutConcat(a: string, b: string, c: char)
    ensures Without(a + b, c) == Without(a, c) + Without(b, c)
  {
    if a == [] {
      assert a + b == b;
    } else {
      var x, t := a[0], a[1..];
      ConsSplit(a, b);
      WithoutCons(x, t + b, c);
      WithoutCons(x, t, c);
      WithoutConcat(t, b, c);
      Associative(if x == c then [] else [x], Without(t, c), Without(b, c));
    }
  }

  lemma WithoutCons(x: char, s: string, c: char)
    ensures Without([x] + s, c) == (if x == c then [] else [x]) + Without(s, c)
  {
    var t := [x] + s;
    assert t[0] == x && t[1..] == s;
  }

  /** One character is dropped if it is `c` and kept otherwise. */
  lemma WithoutOne(x: char, c: char)
    ensures Without([x], c) == (if x == c then [] else [x])
  {
    assert [x][1..] == [];
  }

  /** `s.lstrip(c)` for a single character `c`. */
  function LStrip(s: string, c: char): (r: string)
    ensures |r| <= |s|
    ensures r == [] || r[0] != c
  {
    if s != [] && s[0] == c then LStrip(s[1..], c) else s
  }

  /** `lstrip` removes a prefix made only of `c`, and keeps the rest as it was. */
  lemma {:induction false} LStripRemovesPrefix(s: string, c: char)
    ensures var r := LStrip(s, c);
            r == s[|s| - |r|..] && forall i | 0 <= i < |s| - |r| :: s[i] == c
  {
    if s != [] && s[0] == c {
      LStripRemovesPrefix(s[1..], c);
      var r := LStrip(s, c);
      assert r == LStrip(s[1..], c);
      assert s[1..][|s| - 1 - |r|..] == s[|s| - |r|..];
      forall i | 0 <= i < |s| - |r| ensures s[i] == c {
        if i > 0 { assert s[i] == s[1..][i - 1]; }
      }
    }
  }

  /** `s.replace(a, b)` for single characters. */
  function ReplaceChar(s: string, a: char, b: char): (r: string)
    ensures |r| == |s|
    ensures forall i | 0 <= i < |s| :: r[i] == (if s[i] == a then b else s[i])
  {
    if s == [] then [] else [if s[0] == a then b else s[0]] + ReplaceChar(s[1..], a, b)
  }

  function LowerChar(c: char): char
  {
    if 'A' <= c <= 'Z' then (c as int + 32) as char else c
  }

  /** `s.lower()` on ASCII letters. */
  function Lower(s: string): (r: string)
    ensures |r| == |s|
    ensures forall i | 0 <= i < |s| :: r[i] == LowerChar(s[i])
  {
    if s == [] then [] else [LowerChar(s[0])] + Lower(s[1..])
  }

  predicate OccursAt(hay: string, needle: string, k: int)
  {
    0 <= k <= |hay| - |needle| && hay[k..k + |needle|] == needle
  }

  /** `needle in hay` for strings. */
  predicate Contains(hay: string, needle: string)
  {
    exists k | 0 <= k <= |hay| :: OccursAt(hay, needle, k)
  }

  /** `s.replace(pat, rep)`: one left-to-right pass over non-overlapping occurrences. */
  function ReplaceAll(s: string, pat: string, rep: string): string
    decreases |s|
  {
    if pat == [] then Interleave(s, rep)
    else if |s| < |pat| then s
    else if s[..|pat|] == pat then rep + ReplaceAll(s[|pat|..], pat, rep)
    else [s[0]] + ReplaceAll(s[1..], pat, rep)
  }

  /** `s.replace('', rep)`: `rep` before every character and at the end. */
  function Interleave(s: string, rep: string): string
  {
    if s == [] then rep else rep + [s[0]] + Interleave(s[1..], rep)
  }

  /** Replacing a pattern by itself changes nothing. */
  lemma {:induction false} ReplaceAllSelf(s: string, pat: string)
    ensures ReplaceAll(s, pat, pat) == s
    decreases |s|
  {
    if pat == [] {
      InterleaveEmpty(s);
    } else if |s| < |pat| {
    } else if s[..|pat|] == pat {
      ReplaceAllSelf(s[|pat|..], pat);
      assert s == pat + s[|pat|..];
    } else {
      ReplaceAllSelf(s[1..], pat);
      assert s == [s[0]] + s[1..];
    }
  }

  lemma {:induction false} InterleaveEmpty(s: string)
    ensures Interleave(s, "") == s
  {
    if s != [] {
      InterleaveEmpty(s[1..]);
      assert s == [s[0]] + s[1..];
    }
  }

  /** A non-empty pattern that does not occur leaves the text unchanged. */
  lemma {:induction false} ReplaceAllAbsent(s: string, pat: string, rep: string)
    requires pat != [] && !Contains(s, pat)
    ensures ReplaceAll(s, pat, rep) == s
    decreases |s|
  {
    if |s| < |pat| {
    } else {
      assert s[0..|pat|] == s[..|pat|];
      assert !OccursAt(s, pat, 0);
      if Contains(s[1..], pat) {
        var k :| 0 <= k <= |s[1..]| && OccursAt(s[1..], pat, k);
        assert k + |pat| <= |s| - 1;
        assert s[k + 1..k + 1 + |pat|] == s[1..][k..k + |pat|];
        assert OccursAt(s, pat, k + 1);
        assert false;
      }
      ReplaceAllAbsent(s[1..], pat, rep);
      assert s == [s[0]] + s[1..];
    }
  }

  /**
   * The pass replaces the first occurrence where it stands: the text before
   * it is kept, the pattern becomes `rep`, and the pass goes on after it.
   */
  lemma ReplaceAllFirst(s: string, pat: string, rep: string, i: nat)
    requires pat != [] && OccursAt(s, pat, i)
    requires forall j | 0 <= j < i :: !OccursAt(s, pat, j)
    ensures ReplaceAll(s, pat, rep) == s[..i] + rep + ReplaceAll(s[i + |pat|..], pat, rep)
  {
    var tail := ReplaceAll(s[i + |pat|..], pat, rep);
    ReplaceAllKeepsPrefix(s, pat, rep, i);
    ReplaceAllAt(s[i..], pat, rep);
    SliceOfSlice(s, i, |pat|);
    Associative(s[..i], rep, tail);
  }

  /** Up to the first occurrence, the pass keeps the text as it is. */
  lemma {:induction false} ReplaceAllKeepsPrefix(s: string, pat: string, rep: string, i: nat)
    requires pat != [] && i <= |s|
    requires forall j | 0 <= j < i :: !OccursAt(s, pat, j)
    ensures ReplaceAll(s, pat, rep) == s[..i] + ReplaceAll(s[i..], pat, rep)
    decreases i
  {
    if i == 0 {
      assert s[..0] + ReplaceAll(s[0..], pat, rep) == ReplaceAll(s, pat, rep) by { assert s[0..] == s; }
    } else if |s| < |pat| {
      ReplaceAllShort(s[i..], pat, rep);
      assert s[..i] + s[i..] == s;
    } else {
      NoOccurrenceShift(s, pat, i);
      ReplaceAllStep(s, pat, rep);
      ReplaceAllKeepsPrefix(s[1..], pat, rep, i - 1);
      SliceOfSlice(s, 1, i - 1);
      ConsPrefix(s, i, ReplaceAll(s[i..], pat, rep));
    }
  }

  lemma ReplaceAllShort(s: string, pat: string, rep: string)
    requires pat != [] && |s| < |pat|
    ensures ReplaceAll(s, pat, rep) == s
  {
  }

  /** Where the pattern does not start the text, the pass keeps the first character. */
  lemma ReplaceAllStep(s: string, pat: string, rep: string)
    requires pat != [] && |pat| <= |s| && !OccursAt(s, pat, 0)
    ensures ReplaceAll(s, pat, rep) == [s[0]] + ReplaceAll(s[1..], pat, rep)
  {
    assert s[..|pat|] == s[0..|pat|];
  }

  /** Where the pattern starts the text, the pass puts `rep` in its place. */
  lemma ReplaceAllAt(s: string, pat: string, rep: string)
    requires pat != [] && OccursAt(s, pat, 0)
    ensures ReplaceAll(s, pat, rep) == rep + ReplaceAll(s[|pat|..], pat, rep)
  {
    assert s[..|pat|] == s[0..|pat|];
  }

  /** No occurrence before `i` in the text means none before `i - 1` in its tail. */
  lemma NoOccurrenceShift(s: string, pat: string, i: nat)
    requires 1 <= i <= |s|
    requires forall j | 0 <= j < i :: !OccursAt(s, pat, j)
    ensures !OccursAt(s, pat, 0)
    ensures forall j | 0 <= j < i - 1 :: !OccursAt(s[1..], pat, j)
  {
    var t := s[1..];
    forall j | 0 <= j < i - 1 ensures !OccursAt(t, pat, j) {
      if j + |pat| <= |t| {
        assert t[j..j + |pat|] == s[j + 1..j + 1 + |pat|];
        assert !OccursAt(s, pat, j + 1);
      }
    }
  }

  lemma SliceOfSlice(s: string, i: nat, n: nat)
    requires i + n <= |s|
    ensures s[i..][n..] == s[i + n..]
    ensures s[i..][..n] == s[i..i + n]
  {
  }

  lemma ConsSplit<T>(a: seq<T>, b: seq<T>)
    requires a != []
    ensures a == [a[0]] + a[1..] && a + b == [a[0]] + (a[1..] + b)
  {
  }

  lemma Associative(a: string, b: string, c: string)
    ensures a + (b + c) == a + b + c
  {
  }

  lemma ConsPrefix(s: string, i: nat, tail: string)
    requires 1 <= i <= |s|
    ensures [s[0]] + (s[1..][..i - 1] + tail) == s[..i] + tail
  {
    assert [s[0]] + s[1..][..i - 1] == s[..i];
  }

  /** A text without the first character of a pattern does not contain it. */
  lemma LacksFirstNotContains(s: string, pat: string)
    requires pat != [] && Lacks(s, pat[0])
    ensures !Contains(s, pat)
  {
    forall k | 0 <= k <= |s| ensures !OccursAt(s, pat, k) {
      if k + |pat| <= |s| {
        assert s[k..k + |pat|][0] == s[k];
      }
    }
  }

  /**
   * A pattern that stands once in a text where its first character occurs
   * nowhere else is replaced there and only there.
   */
  lemma ReplaceAllLone(before: string, pat: string, after: string, rep: string)
    requires pat != [] && Lacks(before, pat[0]) && Lacks(after, pat[0])
    ensures ReplaceAll(before + pat + after, pat, rep) == before + rep + after
  {
    var text := before + pat + after;
    var i := |before|;
    assert OccursAt(text, pat, i) by {
      assert text[i..i + |pat|] == pat;
    }
    forall j | 0 <= j < i ensures !OccursAt(text, pat, j) {
      assert text[j] == before[j];
      if j + |pat| <= |text| {
        assert text[j..j + |pat|][0] == text[j];
      }
    }
    ReplaceAllFirst(text, pat, rep, i);
    assert text[..i] == before;
    assert text[i + |pat|..] == after;
    LacksFirstNotContains(after, pat);
    ReplaceAllAbsent(after, pat, rep);
  }

  lemma LacksConcat(a: string, b: string, c: char)
    requires Lacks(a, c) && Lacks(b, c)
    ensures Lacks(a + b, c)
  {
    forall i | 0 <= i < |a + b| ensures (a + b)[i] != c {
      if i >= |a| { assert (a + b)[i] == b[i - |a|]; }
    }
  }

  function DigitChar(d: nat): (c: char)
    requires d < 10
    ensures IsDigit(c)
  {
    ('0' as int + d) as char
  }

  function DigitValue(c: char): (d: nat)
    requires IsDigit(c)
    ensures d < 10
  {
    c as int - '0' as int
  }

  /** `str(n)` for a natural number. */
  function NatToString(n: nat): (r: string)
    ensures IsDigitString(r)
    ensures |r| == 1 || r[0] != '0'
  {
    if n < 10 then [DigitChar(n)] else NatToString(n / 10) + [DigitChar(n % 10)]
  }

  /** The decimal value of a digit string (Werkzeug's `int` converter). */
  function ParseNat(s: string): (r: nat)
    requires forall i | 0 <= i < |s| :: IsDigit(s[i])
  {
    if s == [] then 0 else 10 * ParseNat(s[..|s| - 1]) + DigitValue(s[|s| - 1])
  }

  /** Printing a number and reading it back gives the number. */
  lemma {:induction false} ParseNatToString(n: nat)
    ensures ParseNat(NatToString(n)) == n
  {
    if n >= 10 {
      ParseNatToString(n / 10);
      var s := NatToString(n / 10) + [DigitChar(n % 10)];
      assert s[..|s| - 1] == NatToString(n / 10);
    }
  }
}

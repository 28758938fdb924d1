/** String operations the bot relies on, over `string` (a sequence of Unicode scalar values). */
module Strings {

  /** `s` begins with `p` (Python's `s.startswith(p)`). */
  predicate StartsWith(s: string, p: string) {
    |p| <= |s| && s[..|p|] == p
  }

  /** `s` ends with `p` (Python's `s.endswith(p)`). */
  predicate EndsWith(s: string, p: string) {
    |p| <= |s| && s[|s| - |p|..] == p
  }

  /** Python's substring test `p in s`, computed by trying each start position from the left. */
  predicate Contains(s: string, p: string)
    decreases |s|
  {
    StartsWith(s, p) || (|s| > 0 && Contains(s[1..], p))
  }

  /** `p` occurs in `s` starting at index `i`. */
  ghost predicate OccursAt(s: string, p: string, i: int) {
    0 <= i <= |s| - |p| && s[i..i + |p|] == p
  }

  /** Index `i` of `s` lies inside some occurrence of `p`. */
  ghost predicate Covered(s: string, p: string, i: int) {
    exists j :: OccursAt(s, p, j) && j <= i < j + |p|
  }

  /** The meaning of `p in s`: `p` occurs in `s` at some index. */
  ghost predicate Occurs(s: string, p: string) {
    exists i :: OccursAt(s, p, i)
  }

  /** The scanning test decides exactly the occurrence relation. */
  lemma {:induction false} ContainsIff(s: string, p: string)
    ensures Contains(s, p) <==> Occurs(s, p)
  {
    if StartsWith(s, p) {
      assert OccursAt(s, p, 0);
    } else if |s| > 0 {
      var t := s[1..];
      ContainsIff(t, p);
      if Occurs(t, p) {
        var i :| OccursAt(t, p, i);
        assert s[i + 1..i + 1 + |p|] == t[i..i + |p|];
        assert OccursAt(s, p, i + 1);
      }
      if Occurs(s, p) {
        var i :| OccursAt(s, p, i);
        if i > 0 {
          assert t[i - 1..i - 1 + |p|] == s[i..i + |p|];
          assert OccursAt(t, p, i - 1);
        }
      }
    }
  }

  /** A text occurs where it is put between two others. */
  lemma OccursInMiddle(a: string, b: string, c: string)
    ensures OccursAt(a + b + c, b, |a|)
  {
    assert (a + b + c)[|a|..|a| + |b|] == b;
  }

  /** An occurrence at or after `d` is an occurrence in the text without its first `d`
      characters. */
  lemma OccursAfterDrop(s: string, p: string, d: int, i: int)
    requires 0 <= d <= i && OccursAt(s, p, i)
    ensures OccursAt(s[d..], p, i - d)
  {
    assert s[d..][i - d..i - d + |p|] == s[i..i + |p|];
  }

  /** A slice after the first part of a concatenation is a slice of the second part. */
  lemma SliceOfAppend(a: string, x: string, i: int, n: int)
    requires |a| <= i && 0 <= n && i + n <= |a| + |x|
    ensures (a + x)[i..i + n] == x[i - |a|..i - |a| + n]
  {
  }

  /** A pattern longer than the text does not occur in it. */
  lemma TooShort(s: string, p: string)
    requires |s| < |p|
    ensures !Occurs(s, p)
  {
  }

  /** A pattern with a character that is absent from `s` does not occur in `s`. */
  lemma CharAbsent(s: string, p: string, j: nat)
    requires j < |p| && p[j] !in s
    ensures !Occurs(s, p)
  {
    forall i | 0 <= i <= |s| - |p| ensures !OccursAt(s, p, i) {
      assert s[i..i + |p|][j] == s[i + j];
    }
  }

  /** Python's `str.upper()` on one character, as far as the ASCII letters and the
      dotless i (whose upper case is the ASCII `I`) go; other characters are kept. */
  function UpperChar(c: char): char {
    if 'a' <= c <= 'z' then (c as int - 32) as char
    else if c == '\U{131}' then 'I'
    else c
  }

  /** Python's `str.upper()`, character by character. */
  function Upper(s: string): (r: string)
    ensures |r| == |s|
    ensures forall i :: 0 <= i < |s| ==> r[i] == UpperChar(s[i])
    decreases |s|
  {
    if s == [] then [] else [UpperChar(s[0])] + Upper(s[1..])
  }

  /** An upper-case ASCII letter other than `I` is absent from the upper-cased text when
      neither it nor its lower-case form is in the original. */
  lemma UpperAvoids(s: string, c: char)
    requires 'A' <= c <= 'Z' && c != 'I'
    requires c !in s && (c as int + 32) as char !in s
    ensures c !in Upper(s)
  {
    var u := Upper(s);
    forall i | 0 <= i < |u| ensures u[i] != c {
      assert u[i] == UpperChar(s[i]);
    }
  }

  /** Python's `s.replace(from, to)`: every occurrence of `from`, scanned from the left
      without overlaps, is replaced by `to`. Replacing by a text of the same length keeps
      the length. */
  function ReplaceAll(s: string, from: string, to: string): (r: string)
    requires from != []
    ensures |to| == |from| ==> |r| == |s|
    decreases |s|
  {
    if StartsWith(s, from) then to + ReplaceAll(s[|from|..], from, to)
    else if s == [] then []
    else [s[0]] + ReplaceAll(s[1..], from, to)
  }

  /** Without an occurrence of `from`, replacing changes nothing. */
  lemma {:induction false} ReplaceAllAbsent(s: string, from: string, to: string)
    requires from != []
    ensures !Contains(s, from) ==> ReplaceAll(s, from, to) == s
    decreases |s|
  {
    if s != [] && !Contains(s, from) {
      ReplaceAllAbsent(s[1..], from, to);
      assert s == [s[0]] + s[1..];
    }
  }
}

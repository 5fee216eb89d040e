/**
 * The string operations the handlers rely on, restricted to what they use:
 * ASCII case mapping (`str.lower`, `str.upper`), `str.rstrip` of one
 * character, `str.partition` and `str.split` on one separator character, and
 * zero-padded decimal formatting (`%02d`, `%04d`) with its reading back.
 */
module Text {

  // ---------------------------------------------------------------- case

  /** ASCII lower-casing of one character; every other character is kept. */
  function LowerChar(c: char): char {
    if 'A' <= c <= 'Z' then (c as int + 32) as char else c
  }

  /** ASCII upper-casing of one character; every other character is kept. */
  function UpperChar(c: char): char {
    if 'a' <= c <= 'z' then (c as int - 32) as char else c
  }

  /** `s.lower()` on ASCII text. */
  function Lower(s: string): (r: string)
    ensures |r| == |s|
    ensures forall i :: 0 <= i < |s| ==> r[i] == LowerChar(s[i])
  {
    if s == [] then [] else [LowerChar(s[0])] + Lower(s[1..])
  }

  /** `s.upper()` on ASCII text. */
  function Upper(s: string): (r: string)
    ensures |r| == |s|
    ensures forall i :: 0 <= i < |s| ==> r[i] == UpperChar(s[i])
  {
    if s == [] then [] else [UpperChar(s[0])] + Upper(s[1..])
  }

  /** Upper-casing loses nothing that lower-casing keeps. */
  lemma LowerOfUpper(s: string)
    ensures Lower(Upper(s)) == Lower(s)
  {
    var a, b := Lower(Upper(s)), Lower(s);
    forall i | 0 <= i < |s| ensures a[i] == b[i] {
      var c := s[i];
      assert LowerChar(UpperChar(c)) == LowerChar(c);
    }
  }

  // ---------------------------------------------------------------- rstrip

  /** `s.rstrip(c)`: drop every trailing `c`. */
  function RStrip(s: string, c: char): (r: string)
    ensures |r| <= |s| && r == s[..|r|]
    ensures r == [] || r[|r| - 1] != c
    ensures forall i :: |r| <= i < |s| ==> s[i] == c
  {
    if s == [] || s[|s| - 1] != c then s else RStrip(s[..|s| - 1], c)
  }

  /** Stripping never introduces a character that was not there. */
  lemma RStripKeepsAbsent(s: string, c: char, d: char)
    requires d !in s
    ensures d !in RStrip(s, c)
  {
  }

  // ---------------------------------------------------------------- partition and split

  /**
   * `s.partition(sep)`: the text before the first `sep`, whether there was
   * one, and the text after it.
   */
  function Partition(s: string, sep: char): (r: (string, bool, string))
    ensures sep !in r.0
    ensures r.1 ==> s == r.0 + [sep] + r.2
    ensures !r.1 ==> r.0 == s && r.2 == []
  {
    if s == [] then ([], false, [])
    else if s[0] == sep then ([], true, s[1..])
    else
      var (head, found, tail) := Partition(s[1..], sep);
      assert found ==> s == [s[0]] + head + [sep] + tail;
      ([s[0]] + head, found, tail)
  }

  /** The separator's first occurrence is where the text is cut. */
  lemma {:induction false} PartitionFirst(a: string, sep: char, b: string)
    requires sep !in a
    ensures Partition(a + [sep] + b, sep) == (a, true, b)
  {
    var s := a + [sep] + b;
    if a == [] {
      assert s[0] == sep && s[1..] == b;
    } else {
      assert s[0] == a[0] && s[1..] == a[1..] + [sep] + b;
      PartitionFirst(a[1..], sep, b);
      assert [a[0]] + a[1..] == a;
    }
  }

  /** Without the separator there is nothing to cut. */
  lemma PartitionAbsent(s: string, sep: char)
    requires sep !in s
    ensures Partition(s, sep) == (s, false, [])
  {
  }

  /** The inverse of `Split`: the parts glued back with the separator. */
  function Join(parts: seq<string>, sep: char): string
    requires |parts| >= 1
  {
    if |parts| == 1 then parts[0] else parts[0] + [sep] + Join(parts[1..], sep)
  }

  /** Four parts glued with the separator. */
  lemma JoinFour(a: string, b: string, c: string, d: string, sep: char)
    ensures Join([a, b, c, d], sep) == a + [sep] + (b + [sep] + (c + [sep] + d))
  {
    var parts := [a, b, c, d];
    assert parts[1..] == [b, c, d] && [b, c, d][1..] == [c, d] && [c, d][1..] == [d];
    assert Join([c, d], sep) == c + [sep] + d;
  }

  /** `s.split(sep)`: always at least one part, none containing `sep`. */
  function Split(s: string, sep: char): (parts: seq<string>)
    ensures |parts| >= 1
    ensures forall i :: 0 <= i < |parts| ==> sep !in parts[i]
    ensures Join(parts, sep) == s
    decreases |s|
  {
    var (head, found, tail) := Partition(s, sep);
    if found then
      var rest := Split(tail, sep);
      assert Join([head] + rest, sep) == head + [sep] + Join(rest, sep) by {
        assert ([head] + rest)[1..] == rest;
      }
      [head] + rest
    else [head]
  }

  /** Splitting a joined text gives back the parts, when none holds the separator. */
  lemma {:induction false} SplitJoin(parts: seq<string>, sep: char)
    requires |parts| >= 1
    requires forall i :: 0 <= i < |parts| ==> sep !in parts[i]
    ensures Split(Join(parts, sep), sep) == parts
  {
    if |parts| == 1 {
      PartitionAbsent(parts[0], sep);
    } else {
      var rest := parts[1..];
      PartitionFirst(parts[0], sep, Join(rest, sep));
      SplitJoin(rest, sep);
      assert [parts[0]] + rest == parts;
    }
  }

  // ---------------------------------------------------------------- decimal digits

  function Pow10(n: nat): (p: nat)
    ensures p >= 1
  {
    if n == 0 then 1 else 10 * Pow10(n - 1)
  }

  predicate IsDigit(c: char) {
    '0' <= c <= '9'
  }

  predicate AllDigits(s: string) {
    forall i :: 0 <= i < |s| ==> IsDigit(s[i])
  }

  /** Digits never contain a separator that is not a digit. */
  lemma DigitsHaveNoSeparator(s: string, sep: char)
    requires AllDigits(s) && !IsDigit(sep)
    ensures sep !in s
  {
    forall i | 0 <= i < |s| ensures s[i] != sep { assert IsDigit(s[i]); }
  }

  function DigitChar(d: nat): (c: char)
    requires d < 10
    ensures IsDigit(c) && c as int - '0' as int == d
  {
    ('0' as int + d) as char
  }

  /** The number a string of decimal digits denotes. */
  function DigitsValue(s: string): nat
    requires AllDigits(s)
  {
    if s == [] then 0 else 10 * DigitsValue(s[..|s| - 1]) + (s[|s| - 1] as int - '0' as int)
  }

  /** `'%0*d' % (width, n)`: `n` in exactly `width` decimal digits, leading zeros kept. */
  function Pad(n: nat, width: nat): (r: string)
    requires n < Pow10(width)
    ensures |r| == width
    ensures AllDigits(r)
    ensures DigitsValue(r) == n
    decreases width
  {
    if width == 0 then []
    else
      var front := Pad(n / 10, width - 1);
      var r := front + [DigitChar(n % 10)];
      assert r[..|r| - 1] == front;
      r
  }

  /** `s[i..j]` is a run of digits that reads as `n`. */
  predicate DigitsAt(s: string, i: int, j: int, n: nat) {
    && 0 <= i <= j <= |s|
    && AllDigits(s[i..j])
    && DigitsValue(s[i..j]) == n
  }

  /** A slice equal to a run of digits reads as that run. */
  lemma DigitsFrom(s: string, i: int, j: int, digits: string)
    requires 0 <= i <= j <= |s| && s[i..j] == digits && AllDigits(digits)
    ensures DigitsAt(s, i, j, DigitsValue(digits))
  {
  }
}

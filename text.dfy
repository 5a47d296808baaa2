/** Character-level helpers used by the notifier: decimal rendering of integers,
    ASCII lower-casing, substring search, and the local part of a mail address. */
module Text {

  /** The decimal digit character for `d`. */
  function Digit(d: nat): (c: char)
    requires d < 10
    ensures '0' <= c <= '9'
    ensures c as int - '0' as int == d
  {
    ('0' as int + d) as char
  }

  /** The value of a decimal digit character. */
  function DigitValue(c: char): int
  {
    c as int - '0' as int
  }

  /** The number a string of decimal digits denotes, most significant digit first. */
  function DecimalValue(s: string): int
  {
    if s == [] then 0 else DecimalValue(s[..|s| - 1]) * 10 + DigitValue(s[|s| - 1])
  }

  /** The number a decimal text denotes, a leading `-` negating it. */
  function SignedValue(s: string): int
  {
    if s != [] && s[0] == '-' then -DecimalValue(s[1..]) else DecimalValue(s)
  }

  /** Python's `str(n)` for a non-negative integer: most significant digit first,
      and read back it denotes `n`. */
  function NatText(n: nat): (r: string)
    ensures 1 <= |r|
    ensures n < 10 <==> |r| == 1
    ensures forall i :: 0 <= i < |r| ==> '0' <= r[i] <= '9'
    ensures DecimalValue(r) == n
  {
    if n < 10 then [Digit(n)]
    else
      var r := NatText(n / 10) + [Digit(n % 10)];
      assert r[..|r| - 1] == NatText(n / 10);
      r
  }

  /** Python's `str(i)` for any integer: a leading minus sign for negatives, and
      read back it denotes `i`. */
  function IntText(i: int): (r: string)
    ensures 1 <= |r|
    ensures r[0] == '-' <==> i < 0
    ensures SignedValue(r) == i
  {
    if i < 0 then
      var r := "-" + NatText(-i);
      assert r[1..] == NatText(-i);
      r
    else NatText(i)
  }

  /** Different integers are rendered differently: the text reads back as the
      number it renders. */
  lemma IntTextInjective(i: int, j: int)
    requires IntText(i) == IntText(j)
    ensures i == j
  {
    assert i == SignedValue(IntText(i)) == SignedValue(IntText(j)) == j;
  }

  /** `%02d`: two digits, zero-padded, for a value below 100; read back as a
      two-digit decimal number they give `n`. */
  function Pad2(n: nat): (r: string)
    requires n < 100
    ensures |r| == 2
    ensures '0' <= r[0] <= '9' && '0' <= r[1] <= '9'
    ensures DigitValue(r[0]) * 10 + DigitValue(r[1]) == n
  {
    if n < 10 then "0" + NatText(n)
    else assert NatText(n) == [Digit(n / 10), Digit(n % 10)]; NatText(n)
  }

  /** Python's `str.lower()` restricted to ASCII letters. */
  function LowerChar(c: char): char
  {
    if 'A' <= c <= 'Z' then (c as int + 32) as char else c
  }

  function Lower(s: string): (r: string)
    ensures |r| == |s|
    ensures forall i :: 0 <= i < |s| ==> r[i] == LowerChar(s[i])
  {
    seq(|s|, i requires 0 <= i < |s| => LowerChar(s[i]))
  }

  /** Lower-casing commutes with taking a prefix. */
  lemma LowerPrefix(s: string, n: nat)
    requires n <= |s|
    ensures Lower(s[..n]) == Lower(s)[..n]
  {
  }

  /** `needle` occurs in `hay` starting at position `i`. */
  predicate OccursAt(hay: string, needle: string, i: int)
  {
    0 <= i && i + |needle| <= |hay| && hay[i..i + |needle|] == needle
  }

  /** Python's `needle in hay` on strings: the search for an occurrence from
      position 0 on. */
  predicate Contains(hay: string, needle: string)
  {
    ContainsFrom(hay, needle, 0)
  }

  /** The search succeeds exactly when the needle occurs somewhere. */
  lemma SearchFindsOccurrence(hay: string, needle: string)
    ensures Contains(hay, needle) <==> exists j :: 0 <= j && OccursAt(hay, needle, j)
  {
    if Contains(hay, needle) {
      var j := Find(hay, needle, 0);
    }
    if j :| 0 <= j && OccursAt(hay, needle, j) {
      OccurrenceFound(hay, needle, 0, j);
    }
  }

  /** `needle` occurs in `hay` at position `i` or later. */
  predicate ContainsFrom(hay: string, needle: string, i: nat)
    decreases |hay| - i
  {
    i <= |hay| && (OccursAt(hay, needle, i) || ContainsFrom(hay, needle, i + 1))
  }

  /** An occurrence at `j` is found by a search that starts at or before `j`. */
  lemma {:induction false} OccurrenceFound(hay: string, needle: string, i: nat, j: nat)
    requires i <= j && OccursAt(hay, needle, j)
    ensures ContainsFrom(hay, needle, i)
    decreases j - i
  {
    if i < j {
      OccurrenceFound(hay, needle, i + 1, j);
    }
  }

  /** `hay.find(needle, i)` for a needle the search finds: the first position at
      or after `i` where it occurs. */
  function Find(hay: string, needle: string, i: nat): (j: nat)
    requires ContainsFrom(hay, needle, i)
    ensures i <= j && OccursAt(hay, needle, j)
    ensures forall k :: i <= k < j ==> !OccursAt(hay, needle, k)
    decreases |hay| - i
  {
    if OccursAt(hay, needle, i) then i else Find(hay, needle, i + 1)
  }

  /** A text contains a non-empty needle only if it contains the needle's first character. */
  lemma ContainsFirstChar(hay: string, needle: string)
    ensures needle != [] && Contains(hay, needle) ==> needle[0] in hay
  {
    if needle != [] && Contains(hay, needle) {
      var i := Find(hay, needle, 0);
      assert hay[i] == hay[i..i + |needle|][0];
    }
  }

  /** Containment is transitive: a substring of a substring is a substring. */
  lemma ContainsTransitive(a: string, b: string, c: string)
    requires Contains(a, b) && Contains(b, c)
    ensures Contains(a, c)
  {
    var i := Find(a, b, 0);
    var j := Find(b, c, 0);
    forall k | 0 <= k < |c|
      ensures a[i + j + k] == c[k]
    {
      assert c[k] == b[j + k] == a[i + j + k];
    }
    assert a[i + j..i + j + |c|] == c;
    OccurrenceFound(a, c, 0, i + j);
  }

  /** Every string contains each of its prefixes. */
  lemma ContainsPrefix(s: string, n: nat)
    requires n <= |s|
    ensures Contains(s, s[..n])
  {
    assert OccursAt(s, s[..n], 0);
  }

  /** Every string contains each of its middle pieces. */
  lemma InfixContained(p: string, x: string, q: string)
    ensures Contains(p + x + q, x)
  {
    assert OccursAt(p + x + q, x, |p|);
    OccurrenceFound(p + x + q, x, 0, |p|);
  }

  /** `s.split('@')[0]`: the text before the first `@`, or all of `s` when it has none. */
  function LocalPart(s: string): (r: string)
    ensures |r| <= |s| && r == s[..|r|]
    ensures '@' !in r
    ensures |r| < |s| ==> s[|r|] == '@'
  {
    if s == [] || s[0] == '@' then [] else [s[0]] + LocalPart(s[1..])
  }
}

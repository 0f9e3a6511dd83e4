/** What the core uses of Python's `str`: the whitespace and word-character
    classes behind `\s`, `\w` and `strip()`, lower-casing, the `in`
    substring test, decimal rendering of integers and the code-point order
    that `sorted` applies to strings. */
module Text {

  /** Python's `str.isspace()`; a `str` pattern's `\s` matches the same characters. */
  predicate IsSpace(c: char) {
    || ('\t' <= c <= '\r')
    || ('\U{1C}' <= c <= ' ')
    || c == '\U{85}' || c == '\U{A0}' || c == '\U{1680}'
    || ('\U{2000}' <= c <= '\U{200A}')
    || c == '\U{2028}' || c == '\U{2029}' || c == '\U{202F}' || c == '\U{205F}' || c == '\U{3000}'
  }

  /** The characters `\w` matches, restricted to Latin, digits, `_` and the Cyrillic block. */
  predicate IsWordChar(c: char) {
    || ('a' <= c <= 'z') || ('A' <= c <= 'Z') || ('0' <= c <= '9') || c == '_'
    || ('\U{0400}' <= c <= '\U{0481}') || ('\U{048A}' <= c <= '\U{04FF}')
  }

  /** A capital letter of the case table: Latin `A`–`Z` or Cyrillic `Ѐ`–`Я`. */
  predicate IsCapital(c: char) {
    ('A' <= c <= 'Z') || ('\U{0400}' <= c <= '\U{042F}')
  }

  /** `str.lower()` on one character, for Latin and basic Cyrillic capitals (Ё included):
      `A`–`Z` and `А`–`Я` move 32 code points down the table to their small letters,
      `Ѐ`–`Џ` move 80 to `ѐ`–`џ`, and every other character is kept. */
  function LowerChar(c: char): (r: char)
    ensures !IsCapital(r)
    ensures ('A' <= c <= 'Z' || '\U{0410}' <= c <= '\U{042F}') ==> r as int == c as int + 32
    ensures '\U{0400}' <= c <= '\U{040F}' ==> r as int == c as int + 80
    ensures !IsCapital(c) ==> r == c
  {
    if 'A' <= c <= 'Z' then (c as int + 32) as char
    else if '\U{0410}' <= c <= '\U{042F}' then (c as int + 32) as char
    else if '\U{0400}' <= c <= '\U{040F}' then (c as int + 80) as char
    else c
  }

  /** `str.lower()`: character by character, length preserved. */
  function Lower(s: string): (r: string)
    ensures |r| == |s|
    ensures forall i :: 0 <= i < |s| ==> r[i] == LowerChar(s[i])
  {
    seq(|s|, i requires 0 <= i < |s| => LowerChar(s[i]))
  }

  lemma LowerIdempotent(s: string)
    ensures Lower(Lower(s)) == Lower(s)
  {
  }

  /** Two characters lower to the same one only when they are equal or one is
      the other's capital. */
  lemma LowerCharInjectiveOnCapitals(c: char, d: char)
    requires IsCapital(c) && IsCapital(d) && LowerChar(c) == LowerChar(d)
    ensures c == d
  {
  }

  predicate StartsWith(s: string, prefix: string) {
    |prefix| <= |s| && s[..|prefix|] == prefix
  }

  /** Python's `needle in hay` for strings. */
  predicate Contains(hay: string, needle: string)
    decreases |hay|
  {
    StartsWith(hay, needle) || (hay != [] && Contains(hay[1..], needle))
  }

  /** `needle` occurs in `hay` starting at position `i`. */
  predicate OccursAt(hay: string, needle: string, i: int) {
    0 <= i <= |hay| - |needle| && hay[i..i + |needle|] == needle
  }

  /** `Contains` agrees with the positional definition of an occurrence. */
  lemma {:induction false} ContainsIffOccurs(hay: string, needle: string)
    ensures Contains(hay, needle) <==> exists i :: OccursAt(hay, needle, i)
    decreases |hay|
  {
    if StartsWith(hay, needle) {
      assert OccursAt(hay, needle, 0);
    } else if hay == [] {
      assert forall i :: !OccursAt(hay, needle, i);
    } else {
      ContainsIffOccurs(hay[1..], needle);
      if Contains(hay, needle) {
        var i :| OccursAt(hay[1..], needle, i);
        assert hay[i + 1..i + 1 + |needle|] == hay[1..][i..i + |needle|];
        assert OccursAt(hay, needle, i + 1);
      }
      if exists i :: OccursAt(hay, needle, i) {
        var i :| OccursAt(hay, needle, i);
        assert hay[..|needle|] == hay[0..0 + |needle|];
        assert i != 0;
        assert hay[1..][i - 1..i - 1 + |needle|] == hay[i..i + |needle|];
        assert OccursAt(hay[1..], needle, i - 1);
      }
    }
  }

  /** Number of leading whitespace characters. */
  function LeadCount(s: string): (n: nat)
    ensures n <= |s|
    ensures forall i :: 0 <= i < n ==> IsSpace(s[i])
    ensures n < |s| ==> !IsSpace(s[n])
  {
    if s == [] || !IsSpace(s[0]) then 0 else 1 + LeadCount(s[1..])
  }

  /** Number of trailing whitespace characters. */
  function TrailCount(s: string): (n: nat)
    ensures n <= |s|
    ensures forall i :: |s| - n <= i < |s| ==> IsSpace(s[i])
    ensures n < |s| ==> !IsSpace(s[|s| - 1 - n])
  {
    if s == [] || !IsSpace(s[|s| - 1]) then 0 else 1 + TrailCount(s[..|s| - 1])
  }

  predicate AllSpace(s: string) {
    forall i :: 0 <= i < |s| ==> IsSpace(s[i])
  }

  /** Python's `str.strip()`: the text without its leading and trailing whitespace. */
  function Strip(s: string): (r: string)
    ensures |r| <= |s|
    ensures r != [] ==> !IsSpace(r[0]) && !IsSpace(r[|r| - 1])
    ensures AllSpace(s) <==> r == []
    ensures exists a, b :: s == a + r + b && AllSpace(a) && AllSpace(b)
  {
    var n := LeadCount(s);
    var l := s[n..];
    var r := l[..|l| - TrailCount(l)];
    StripParts(s, n, l, r);
    r
  }

  /** The two whitespace ends that `Strip` removes. */
  lemma StripParts(s: string, n: nat, l: string, r: string)
    requires n == LeadCount(s) && l == s[n..] && r == l[..|l| - TrailCount(l)]
    ensures exists a, b :: s == a + r + b && AllSpace(a) && AllSpace(b)
  {
    var m := TrailCount(l);
    LeadIsSpace(s);
    TrailIsSpace(l);
    assert s[|s| - m..] == l[|l| - m..];
    assert r == s[n..|s| - m];
    SpaceEnds(s, n, m);
  }

  lemma SpaceEnds(s: string, n: nat, m: nat)
    requires n + m <= |s| && AllSpace(s[..n]) && AllSpace(s[|s| - m..])
    ensures exists a, b :: s == a + s[n..|s| - m] + b && AllSpace(a) && AllSpace(b)
  {
    assert s == s[..n] + s[n..|s| - m] + s[|s| - m..];
  }

  lemma LeadIsSpace(s: string)
    ensures AllSpace(s[..LeadCount(s)])
  {
    var a := s[..LeadCount(s)];
    forall j | 0 <= j < |a| ensures IsSpace(a[j]) {
      assert a[j] == s[j];
    }
  }

  lemma TrailIsSpace(l: string)
    ensures AllSpace(l[|l| - TrailCount(l)..])
  {
    var m := TrailCount(l);
    var b := l[|l| - m..];
    forall j | 0 <= j < |b| ensures IsSpace(b[j]) {
      assert b[j] == l[|l| - m + j];
    }
  }

  function DigitChar(d: nat): (c: char)
    requires d < 10
    ensures '0' <= c <= '9'
  {
    ('0' as int + d) as char
  }

  /** Python's `str(n)` for a natural number. */
  function NatText(n: nat): (r: string)
    ensures r != []
    ensures forall i :: 0 <= i < |r| ==> '0' <= r[i] <= '9'
    ensures |r| > 1 ==> r[0] != '0'
  {
    if n < 10 then [DigitChar(n)] else NatText(n / 10) + [DigitChar(n % 10)]
  }

  /** Python's `str(n)` for an integer. */
  function IntText(n: int): (r: string)
    ensures r != []
    ensures n >= 0 ==> r == NatText(n)
    ensures n < 0 ==> r[0] == '-'
  {
    if n < 0 then "-" + NatText(-n) else NatText(n)
  }

  /** Python's `<=` on strings: lexicographic by code point, a prefix first. */
  predicate LessEq(a: string, b: string)
    decreases |a|
  {
    a == [] || (b != [] && (a[0] < b[0] || (a[0] == b[0] && LessEq(a[1..], b[1..]))))
  }

  lemma {:induction false} LessEqTotal(a: string, b: string)
    ensures LessEq(a, b) || LessEq(b, a)
    decreases |a|
  {
    if a != [] && b != [] && a[0] == b[0] {
      LessEqTotal(a[1..], b[1..]);
    }
  }

  lemma {:induction false} LessEqTransitive(a: string, b: string, c: string)
    requires LessEq(a, b) && LessEq(b, c)
    ensures LessEq(a, c)
    decreases |a|
  {
    if a != [] && a[0] == b[0] && b[0] == c[0] {
      LessEqTransitive(a[1..], b[1..], c[1..]);
    }
  }

  lemma {:induction false} LessEqAntisymmetric(a: string, b: string)
    requires LessEq(a, b) && LessEq(b, a)
    ensures a == b
    decreases |a|
  {
    if a != [] {
      LessEqAntisymmetric(a[1..], b[1..]);
      assert a == [a[0]] + a[1..] && b == [b[0]] + b[1..];
    }
  }
}

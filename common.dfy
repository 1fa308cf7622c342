/** Value types and string helpers shared by every module of the model. */
module Common {

  datatype Option<+T> = None | Some(value: T)

  datatype Result<+T, +E> = Ok(value: T) | Err(error: E)

  // ---------------------------------------------------------------------
  // Decimal digits
  // ---------------------------------------------------------------------

  predicate IsDigit(c: char) { '0' <= c <= '9' }

  predicate AllDigits(s: string) { forall i :: 0 <= i < |s| ==> IsDigit(s[i]) }

  function DigitValue(c: char): nat
    requires IsDigit(c)
  {
    c as int - '0' as int
  }

  function DigitChar(d: nat): (c: char)
    requires d < 10
    ensures IsDigit(c) && DigitValue(c) == d
  {
    ('0' as int + d) as char
  }

  /** Decimal text of a natural number, without leading zeros (Python `str`, JavaScript `String`). */
  function NatToString(n: nat): (s: string)
    ensures |s| > 0 && AllDigits(s)
    ensures s[0] == '0' ==> n == 0
    decreases n
  {
    if n < 10 then [DigitChar(n)] else NatToString(n / 10) + [DigitChar(n % 10)]
  }

  /** Value of a run of decimal digits, most significant first. */
  function DigitsValue(s: string): nat
    requires AllDigits(s)
    decreases |s|
  {
    if s == [] then 0 else DigitsValue(s[..|s| - 1]) * 10 + DigitValue(s[|s| - 1])
  }

  lemma {:induction false} NatToStringRoundTrip(n: nat)
    ensures DigitsValue(NatToString(n)) == n
    decreases n
  {
    if n >= 10 {
      NatToStringRoundTrip(n / 10);
      var s := NatToString(n / 10) + [DigitChar(n % 10)];
      assert s[..|s| - 1] == NatToString(n / 10);
    }
  }

  /** Python's `str` on an integer: a leading '-' for negative values. */
  function IntToString(i: int): (s: string)
    ensures |s| > 0
    ensures i >= 0 <==> IsDigit(s[0])
    ensures i < 0 ==> s[0] == '-' && s[1..] == NatToString(-i)
  {
    if i < 0 then "-" + NatToString(-i) else NatToString(i)
  }

  function Pow10(k: nat): (p: nat)
    ensures p > 0
  {
    if k == 0 then 1 else 10 * Pow10(k - 1)
  }

  lemma AllDigitsConcat(a: string, b: string)
    requires AllDigits(a) && AllDigits(b)
    ensures AllDigits(a + b)
  {
    forall i | 0 <= i < |a + b| ensures IsDigit((a + b)[i]) {
      if i >= |a| { assert (a + b)[i] == b[i - |a|]; }
    }
  }

  lemma ShiftDigit(x: int, p: int, y: int, d: int)
    ensures (x * p + y) * 10 + d == x * (10 * p) + (y * 10 + d)
  {
  }

  lemma {:induction false} DigitsValueConcat(a: string, b: string)
    requires AllDigits(a) && AllDigits(b)
    ensures AllDigits(a + b)
    ensures DigitsValue(a + b) == DigitsValue(a) * Pow10(|b|) + DigitsValue(b)
    decreases |b|
  {
    AllDigitsConcat(a, b);
    if b == [] {
      assert a + b == a;
    } else {
      var b' := b[..|b| - 1];
      var last := b[|b| - 1];
      assert (a + b)[..|a + b| - 1] == a + b';
      assert (a + b)[|a + b| - 1] == last;
      DigitsValueConcat(a, b');
      assert DigitsValue(a + b) == DigitsValue(a + b') * 10 + DigitValue(last);
      ShiftDigit(DigitsValue(a), Pow10(|b'|), DigitsValue(b'), DigitValue(last));
    }
  }

  /** `n / size` to the nearest tenth, in tenths, ties rounded up (`toFixed(1)` on exact values). */
  function RoundTenths(n: nat, size: nat): nat
    requires size > 0
  {
    (n * 10 + size / 2) / size
  }

  /** A count of tenths written with one decimal place. */
  function Tenths(t: nat): (s: string)
    ensures |s| >= 3 && IsDigit(s[0]) && IsDigit(s[|s| - 1])
  {
    NatToString(t / 10) + "." + [DigitChar(t % 10)]
  }

  // ---------------------------------------------------------------------
  // Characters and substrings
  // ---------------------------------------------------------------------

  /** Lower-casing of ASCII letters; every other character is left as it is. */
  function LowerChar(c: char): char
  {
    if 'A' <= c <= 'Z' then (c as int + 32) as char else c
  }

  function Lower(s: string): (r: string)
    ensures |r| == |s|
    ensures forall i :: 0 <= i < |s| ==> r[i] == LowerChar(s[i])
  {
    if s == [] then [] else [LowerChar(s[0])] + Lower(s[1..])
  }

  /** `sub` occurs in `s` as a contiguous run: Python's `in` on strings, JavaScript's `includes`. */
  predicate IsSubstring(sub: string, s: string)
    decreases |s|
  {
    |sub| <= |s| && (sub == s[..|sub|] || IsSubstring(sub, s[1..]))
  }

  lemma {:induction false} IsSubstringAt(sub: string, s: string, i: nat)
    requires i + |sub| <= |s| && s[i..i + |sub|] == sub
    ensures IsSubstring(sub, s)
    decreases i
  {
    if i > 0 {
      assert s[1..][i - 1..i - 1 + |sub|] == sub;
      IsSubstringAt(sub, s[1..], i - 1);
    }
  }

  lemma {:induction false} SubstringOfSelf(s: string)
    ensures IsSubstring(s, s)
  {
    IsSubstringAt(s, s, 0);
  }

  /** `s` with every occurrence of `c` removed (JavaScript's `replace(/c/g, '')`). */
  function Without(s: string, c: char): (r: string)
    ensures c !in r
    ensures |r| <= |s|
  {
    if s == [] then [] else (if s[0] == c then [] else [s[0]]) + Without(s[1..], c)
  }

  lemma {:induction false} WithoutConcat(a: string, b: string, c: char)
    ensures Without(a + b, c) == Without(a, c) + Without(b, c)
    decreases |a|
  {
    if a == [] {
      assert a + b == b;
    } else {
      assert (a + b)[0] == a[0];
      assert (a + b)[1..] == a[1..] + b;
      WithoutConcat(a[1..], b, c);
    }
  }

  lemma {:induction false} WithoutAbsent(s: string, c: char)
    requires c !in s
    ensures Without(s, c) == s
    decreases |s|
  {
    if s != [] { WithoutAbsent(s[1..], c); }
  }

  /**
   * Lexicographic order on characters: the order of JavaScript's default
   * `sort` on strings and of SQLite's binary text comparison.
   */
  predicate StrLe(a: string, b: string)
    decreases |a|
  {
    a == [] || (b != [] && (a[0] < b[0] || (a[0] == b[0] && StrLe(a[1..], b[1..]))))
  }

  lemma {:induction false} StrLeTotal(a: string, b: string)
    ensures StrLe(a, b) || StrLe(b, a)
    decreases |a|
  {
    if a != [] && b != [] && a[0] == b[0] { StrLeTotal(a[1..], b[1..]); }
  }

  lemma {:induction false} StrLeAntisymmetric(a: string, b: string)
    requires StrLe(a, b) && StrLe(b, a)
    ensures a == b
    decreases |a|
  {
    if a != [] {
      StrLeAntisymmetric(a[1..], b[1..]);
      assert a == [a[0]] + a[1..] && b == [b[0]] + b[1..];
    }
  }

  // ---------------------------------------------------------------------
  // Integer grouping, as Intl.NumberFormat('ko-KR') writes integers
  // ---------------------------------------------------------------------

  /** Three digits with leading zeros, for the groups after the first. */
  function Pad3(n: nat): (s: string)
    requires n < 1000
    ensures |s| == 3 && AllDigits(s) && DigitsValue(s) == n
  {
    var s := [DigitChar(n / 100), DigitChar(n / 10 % 10), DigitChar(n % 10)];
    assert s[..2][..1] == [s[0]] && s[..2][..1][..0] == [];
    assert DigitsValue(s[..2][..1]) == n / 100;
    assert DigitsValue(s[..2]) == n / 100 * 10 + n / 10 % 10;
    s
  }

  /** A natural number with a ',' between every group of three digits. */
  function Grouped(n: nat): (s: string)
    ensures |s| > 0 && IsDigit(s[0]) && IsDigit(s[|s| - 1])
    decreases n
  {
    if n < 1000 then NatToString(n) else Grouped(n / 1000) + "," + Pad3(n % 1000)
  }

  /** A small integer has no separator. */
  lemma GroupedSmall(n: nat)
    requires n < 1000
    ensures Grouped(n) == NatToString(n) && ',' !in Grouped(n)
  {
  }

  lemma WithoutGroup(hi: string, lo: string)
    requires ',' !in lo
    ensures Without(hi + "," + lo, ',') == Without(hi, ',') + lo
  {
    var tail := "," + lo;
    assert hi + "," + lo == hi + tail;
    WithoutConcat(hi, tail, ',');
    assert tail[0] == ',' && tail[1..] == lo;
    assert Without(tail, ',') == Without(lo, ',');
    WithoutAbsent(lo, ',');
  }

  /** Removing the separators and reading the digits gives the number back. */
  lemma {:induction false} GroupedRoundTrip(n: nat)
    ensures AllDigits(Without(Grouped(n), ','))
    ensures DigitsValue(Without(Grouped(n), ',')) == n
    decreases n
  {
    if n < 1000 {
      WithoutAbsent(NatToString(n), ',');
      NatToStringRoundTrip(n);
    } else {
      var hi := Grouped(n / 1000);
      var lo := Pad3(n % 1000);
      GroupedRoundTrip(n / 1000);
      WithoutGroup(hi, lo);
      var digits := Without(hi, ',');
      DigitsValueConcat(digits, lo);
      assert Pow10(|lo|) == 1000;
      assert DigitsValue(digits + lo) == n / 1000 * 1000 + n % 1000;
    }
  }

  /** An integer as Intl.NumberFormat('ko-KR') writes it: grouped, with '-' before negatives. */
  function FormatInteger(i: int): (s: string)
  {
    if i < 0 then "-" + Grouped(-i) else Grouped(i)
  }

  lemma FormatIntegerSign(i: int)
    ensures |FormatInteger(i)| > 0
    ensures FormatInteger(i)[0] == '-' <==> i < 0
    ensures i < 0 ==> FormatInteger(i)[1..] == Grouped(-i)
  {
  }
}

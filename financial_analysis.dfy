/**
 * The list and formatting logic of the financial analysis screen: the account
 * choices offered by the account filter, the filtered statement list, the
 * number and growth-rate cells of the data table, the business years offered,
 * and the filter state.
 */
module FinancialAnalysis {
  import opened Common

  // ---------------------------------------------------------------------
  // JavaScript numbers and parseFloat
  // ---------------------------------------------------------------------

  /** A JavaScript number: NaN, an infinity, or the exact decimal `mantissa / 10^scale`. */
  datatype JsNumber = NaN | Infinity(negative: bool) | Finite(mantissa: int, scale: nat)

  predicate IsZero(n: JsNumber) { n.Finite? && n.mantissa == 0 }

  /** Greater than zero, as `x > 0` compares a number with 0. */
  predicate IsPositive(n: JsNumber)
  {
    (n.Infinity? && !n.negative) || (n.Finite? && n.mantissa > 0)
  }

  /** The white space `parseFloat` skips before the number. */
  predicate IsJsSpace(c: char)
  {
    c == ' ' || c == '\t' || c == '\n' || c == '\r' || c == '\U{000B}' || c == '\U{000C}'
    || c == '\U{00A0}' || c == '\U{FEFF}' || c == '\U{2028}' || c == '\U{2029}'
  }

  function TrimStart(s: string): (r: string)
    ensures |r| <= |s| && r == s[|s| - |r|..]
    ensures r == [] || !IsJsSpace(r[0])
  {
    if s != [] && IsJsSpace(s[0]) then TrimStart(s[1..]) else s
  }

  /** The length of the run of decimal digits that `s` starts with. */
  function DigitRun(s: string): (n: nat)
    ensures n <= |s| && AllDigits(s[..n])
    ensures n < |s| ==> !IsDigit(s[n])
  {
    if s != [] && IsDigit(s[0]) then
      var n := 1 + DigitRun(s[1..]);
      assert s[..n] == [s[0]] + s[1..][..n - 1];
      n
    else 0
  }

  /** The fraction digits after a leading '.', if any. */
  function FractionDigits(rest: string): (f: string)
    ensures AllDigits(f)
  {
    if |rest| > 0 && rest[0] == '.' then rest[1..][..DigitRun(rest[1..])] else ""
  }

  /** digits [. digits] with at least one digit, read as an exact decimal; NaN when there is no digit. */
  function ParseDecimal(u: string): JsNumber
  {
    var i := DigitRun(u);
    var whole := u[..i];
    var fraction := FractionDigits(u[i..]);
    if whole == [] && fraction == [] then NaN
    else
      AllDigitsConcat(whole, fraction);
      Finite(DigitsValue(whole + fraction), |fraction|)
  }

  predicate StartsWithInfinity(u: string)
  {
    |u| >= 8 && u[..8] == "Infinity"
  }

  function ParseUnsigned(u: string): JsNumber
  {
    if StartsWithInfinity(u) then Infinity(false) else ParseDecimal(u)
  }

  function Negate(n: JsNumber): JsNumber
  {
    match n
    case NaN => NaN
    case Infinity(negative) => Infinity(!negative)
    case Finite(m, k) => Finite(-m, k)
  }

  /**
   * `parseFloat`: leading white space, an optional sign, then either
   * `Infinity` or the longest prefix of the form digits [. digits] with at
   * least one digit; NaN when there is no such prefix.
   */
  function ParseFloat(s: string): JsNumber
  {
    var t := TrimStart(s);
    if |t| > 0 && t[0] == '-' then Negate(ParseUnsigned(t[1..]))
    else if |t| > 0 && t[0] == '+' then ParseUnsigned(t[1..])
    else ParseUnsigned(t)
  }

  /** A run of digits parses to its value. */
  lemma ParseDigits(s: string)
    requires s != [] && AllDigits(s)
    ensures ParseFloat(s) == Finite(DigitsValue(s), 0)
    ensures ParseFloat("-" + s) == Finite(-(DigitsValue(s) as int), 0)
  {
    ParsePositiveDigits(s);
    ParseNegativeDigits(s);
  }

  lemma ParsePositiveDigits(s: string)
    requires s != [] && AllDigits(s)
    ensures ParseFloat(s) == Finite(DigitsValue(s), 0)
  {
    ParseUnsignedDigits(s);
    NoSpaceTrim(s);
    assert s[0] != '-' && s[0] != '+' by { assert IsDigit(s[0]); }
  }

  lemma ParseNegativeDigits(s: string)
    requires s != [] && AllDigits(s)
    ensures ParseFloat("-" + s) == Finite(-(DigitsValue(s) as int), 0)
  {
    var t := "-" + s;
    assert t[0] == '-' && t[1..] == s;
    NoSpaceTrim(t);
    ParseMinus(t);
    ParseUnsignedDigits(s);
  }

  lemma ParseMinus(t: string)
    requires t != [] && t[0] == '-' && TrimStart(t) == t
    ensures ParseFloat(t) == Negate(ParseUnsigned(t[1..]))
  {
  }

  lemma NoSpaceTrim(s: string)
    requires s != [] && (s[0] == '-' || IsDigit(s[0]))
    ensures TrimStart(s) == s
  {
    assert !IsJsSpace(s[0]);
  }

  lemma ParseUnsignedDigits(s: string)
    requires s != [] && AllDigits(s)
    ensures ParseUnsigned(s) == Finite(DigitsValue(s), 0)
  {
    ParseDecimalDigits(s);
    assert IsDigit(s[0]);
    assert s[0] != "Infinity"[0];
    assert !StartsWithInfinity(s);
  }

  lemma ParseDecimalDigits(s: string)
    requires s != [] && AllDigits(s)
    ensures ParseDecimal(s) == Finite(DigitsValue(s), 0)
  {
    DigitRunAll(s);
    assert s[..|s|] == s;
    assert s[|s|..] == [];
    assert FractionDigits([]) == [];
    assert s + [] == s;
  }

  lemma {:induction false} DigitRunAll(s: string)
    requires AllDigits(s)
    ensures DigitRun(s) == |s|
  {
    if s != [] { DigitRunAll(s[1..]); }
  }

  // ---------------------------------------------------------------------
  // formatNumber
  // ---------------------------------------------------------------------

  /** The values a statement cell can hold: missing (`null`/`undefined`), a string or a number. */
  datatype JsValue = Missing | Text(text: string) | Number(number: JsNumber)

  /** JavaScript falsiness of a cell value. */
  predicate Falsy(v: JsValue)
  {
    v.Missing? || v == Text("") || (v.Number? && (v.number.NaN? || IsZero(v.number)))
  }

  /** The number `formatNumber` reads from a value: strings lose their commas first. */
  function CellNumber(v: JsValue): JsNumber
  {
    match v
    case Missing => NaN
    case Text(s) => ParseFloat(Without(s, ','))
    case Number(n) => n
  }

  /** `s` without its trailing zeros. */
  function TrimZeros(s: string): (r: string)
    ensures |r| <= |s| && r == s[..|r|]
    ensures r == [] || r[|r| - 1] != '0'
  {
    if s != [] && s[|s| - 1] == '0' then TrimZeros(s[..|s| - 1]) else s
  }

  /** A positive decimal rounded to three fraction digits, ties away from zero, grouped as ko-KR does. */
  function FormatDecimal(m: int, scale: nat): (s: string)
    ensures |s| > 0
    ensures m < 0 <==> s[0] == '-'
    ensures m < 0 ==> |s| > 1
  {
    var text := DecimalText(RoundThousandths(if m < 0 then -m else m, Pow10(scale)));
    if m < 0 then "-" + text else text
  }

  /** `a / size` in thousandths, ties rounded up. */
  function RoundThousandths(a: nat, size: nat): nat
    requires size > 0
  {
    (a * 1000 + size / 2) / size
  }

  /** A count of thousandths, grouped, with the fraction's trailing zeros dropped. */
  function DecimalText(q: nat): (s: string)
    ensures |s| > 0 && IsDigit(s[0])
  {
    var fraction := TrimZeros(Pad3(q % 1000));
    Grouped(q / 1000) + (if fraction == [] then "" else "." + fraction)
  }

  /** formatNumber: "-" for falsy, unparsable or infinite values, "0" for zero, otherwise the ko-KR text. */
  function FormatNumber(v: JsValue): (s: string)
    ensures s == "-" <==> Falsy(v) || !CellNumber(v).Finite?
    ensures !Falsy(v) && IsZero(CellNumber(v)) ==> s == "0"
  {
    if Falsy(v) then "-"
    else
      var n := CellNumber(v);
      if !n.Finite? then "-"
      else if n.mantissa == 0 then "0"
      else FormatDecimal(n.mantissa, n.scale)
  }

  lemma Pow10Positive(k: nat)
    ensures Pow10(k) > 0
  {
  }

  /** A whole number formatted and read back formats the same: the cell text is a fixed point. */
  lemma FormatNumberInteger(i: int)
    requires i != 0
    ensures FormatNumber(Number(Finite(i, 0))) == FormatInteger(i)
    ensures FormatNumber(Text(FormatInteger(i))) == FormatInteger(i)
  {
    FormatNumberWhole(i);
    FormatNumberReadBack(i);
  }

  lemma FormatNumberWhole(i: int)
    requires i != 0
    ensures FormatNumber(Number(Finite(i, 0))) == FormatInteger(i)
  {
    FormatDecimalWhole(i);
  }

  lemma FormatNumberReadBack(i: int)
    requires i != 0
    ensures FormatNumber(Text(FormatInteger(i))) == FormatInteger(i)
  {
    var v := Text(FormatInteger(i));
    CellNumberInteger(i);
    FormatIntegerSign(i);
    assert !Falsy(v);
    assert CellNumber(v) == Finite(i, 0);
    FormatDecimalWhole(i);
  }

  /** Whole numbers are written with no fraction part. */
  lemma FormatDecimalWhole(i: int)
    requires i != 0
    ensures FormatDecimal(i, 0) == FormatInteger(i)
  {
    var n: nat := if i < 0 then -i else i;
    assert Pow10(0) == 1;
    WholeThousandths(n);
    assert RoundThousandths(n, 1) == n * 1000;
    assert TrimZeros(Pad3(0)) == [] by {
      assert Pad3(0) == "000";
      assert "000"[..2] == "00" && "00"[..1] == "0" && "0"[..0] == "";
    }
  }

  lemma WholeThousandths(n: nat)
    ensures (n * 1000 + 1 / 2) / 1 == n * 1000
    ensures (n * 1000) / 1000 == n && (n * 1000) % 1000 == 0
  {
  }

  /** The cell text of a whole number reads back as that number. */
  lemma CellNumberInteger(i: int)
    ensures CellNumber(Text(FormatInteger(i))) == Finite(i, 0)
  {
    var n: nat := if i < 0 then -i else i;
    GroupedRoundTrip(n);
    var digits := Without(Grouped(n), ',');
    WithoutKeeps(Grouped(n), ',');
    assert Grouped(n)[0] in digits;
    if i < 0 {
      WithoutConcat("-", Grouped(n), ',');
      assert Without("-", ',') == "-";
      assert Without(FormatInteger(i), ',') == "-" + digits;
      ParseNegativeDigits(digits);
    } else {
      ParsePositiveDigits(digits);
    }
  }

  /** Every character other than `c` survives removal of `c`. */
  lemma {:induction false} WithoutKeeps(s: string, c: char)
    ensures forall x :: x in s && x != c ==> x in Without(s, c)
  {
    if s != [] {
      WithoutKeeps(s[1..], c);
      assert forall x :: x in s ==> x == s[0] || x in s[1..];
    }
  }

  /** Text with no number in it parses to NaN. */
  lemma ParseNoNumber(s: string)
    requires s != [] && !IsJsSpace(s[0]) && !IsDigit(s[0])
    requires s[0] != '-' && s[0] != '+' && s[0] != '.' && s[0] != 'I'
    ensures ParseFloat(s) == NaN
  {
    assert TrimStart(s) == s;
    assert !StartsWithInfinity(s) by { assert "Infinity"[0] == 'I'; }
    assert DigitRun(s) == 0;
    assert s[..0] == [] && s[0..] == s;
    assert FractionDigits(s) == [];
  }

  lemma ParseInfinity()
    ensures ParseFloat("Infinity") == Infinity(false)
  {
    var s := "Infinity";
    assert TrimStart(s) == s by { assert !IsJsSpace(s[0]); }
    assert StartsWithInfinity(s) by { assert s[..8] == s; }
  }

  lemma ParseZero()
    ensures ParseFloat(Without("0", ',')) == Finite(0, 0)
  {
    assert Without("0", ',') == "0";
    ParsePositiveDigits("0");
    assert DigitsValue("0") == 0 by { assert "0"[..0] == ""; }
  }

  /** The string "0" is truthy, so it is formatted as "0"; the number 0 is falsy and shows "-". */
  lemma FormatNumberZero()
    ensures FormatNumber(Text("0")) == "0"
    ensures FormatNumber(Number(Finite(0, 0))) == "-"
  {
    ParseZero();
    assert CellNumber(Text("0")) == Finite(0, 0);
    assert !Falsy(Text("0"));
    assert Falsy(Number(Finite(0, 0)));
  }

  // ---------------------------------------------------------------------
  // calculateGrowthRate
  // ---------------------------------------------------------------------

  /** `parseFloat((x || '0').replace(/,/g, '')) || 0`. */
  function GrowthOperand(x: Option<string>): (n: JsNumber)
    ensures !n.NaN?
  {
    var s := if x.None? || x.value == "" then "0" else x.value;
    var n := ParseFloat(Without(s, ','));
    if n.NaN? then Finite(0, 0) else n
  }

  /** The mantissa of `n` written at `scale` decimal places (`scale` at least `n.scale`). */
  function AtScale(n: JsNumber, scale: nat): int
    requires n.Finite? && n.scale <= scale
  {
    n.mantissa * Pow10(scale - n.scale)
  }

  function CommonScale(a: JsNumber, b: JsNumber): nat
    requires a.Finite? && b.Finite?
  {
    if a.scale < b.scale then b.scale else a.scale
  }

  /**
   * The growth cell: "+∞%" or "0%" when the previous value is 0, otherwise
   * (current − previous) / |previous| · 100 with one decimal and a "+" when
   * it is not negative. NaN and infinities print as JavaScript prints them.
   */
  function GrowthRate(current: Option<string>, previous: Option<string>): (r: string)
    ensures |r| >= 2 && r[|r| - 1] == '%'
  {
    GrowthText(GrowthOperand(current), GrowthOperand(previous))
  }

  /** The growth cell for the operands as numbers. */
  function GrowthText(c: JsNumber, p: JsNumber): (r: string)
    ensures |r| >= 2 && r[|r| - 1] == '%'
  {
    if IsZero(p) then (if IsPositive(c) then "+∞%" else "0%")
    else if p.Infinity? || p.NaN? || c.NaN? then "NaN%"
    else if c.Infinity? then (if c.negative then "-Infinity%" else "+Infinity%")
    else FiniteGrowth(c, p)
  }

  /** The growth text for a finite current and a finite, non-zero previous value. */
  function FiniteGrowth(c: JsNumber, p: JsNumber): (r: string)
    requires c.Finite? && p.Finite? && p.mantissa != 0
    ensures |r| >= 2 && r[0] in "+-" && r[|r| - 1] == '%'
  {
    var k := CommonScale(c, p);
    var cs := AtScale(c, k);
    var ps := AtScale(p, k);
    AtScaleZero(p, k);
    var diff := if cs >= ps then cs - ps else ps - cs;
    var size := if ps < 0 then -ps else ps;
    (if cs >= ps then "+" else "-") + Tenths(RoundTenths(diff * 100, size)) + "%"
  }

  lemma AtScaleZero(n: JsNumber, scale: nat)
    requires n.Finite? && n.scale <= scale
    ensures AtScale(n, scale) == 0 <==> n.mantissa == 0
    ensures AtScale(n, scale) > 0 <==> n.mantissa > 0
  {
    Pow10Positive(scale - n.scale);
  }

  /** With a previous value of 0 the cell is "+∞%" exactly when the current value is positive, else "0%". */
  lemma GrowthFromZero(c: JsNumber, p: JsNumber)
    requires IsZero(p)
    ensures GrowthText(c, p) == "+∞%" <==> IsPositive(c)
    ensures GrowthText(c, p) != "+∞%" ==> GrowthText(c, p) == "0%"
  {
  }

  /**
   * Over a non-zero previous value, an infinite previous value or a NaN
   * operand gives "NaN%", and an infinite current value over a finite one
   * gives a signed infinity.
   */
  lemma GrowthInfinite(c: JsNumber, p: JsNumber)
    requires !IsZero(p)
    ensures p.Infinity? ==> GrowthText(c, p) == "NaN%"
    ensures p.NaN? || c.NaN? ==> GrowthText(c, p) == "NaN%"
    ensures p.Finite? && c.Infinity? ==>
      GrowthText(c, p) == if c.negative then "-Infinity%" else "+Infinity%"
  {
  }

  /** Missing and empty operands count as 0. */
  lemma GrowthOperandMissing(x: Option<string>)
    requires x.None? || x == Some("")
    ensures IsZero(GrowthOperand(x))
  {
    ParseZero();
  }

  /** An operand with no number in it counts as 0. */
  lemma GrowthOperandUnparsable(x: string)
    requires x != "" && ParseFloat(Without(x, ',')) == NaN
    ensures IsZero(GrowthOperand(Some(x)))
  {
  }

  /**
   * With finite values and a non-zero previous value, the cell carries "+"
   * exactly when current >= previous, and "-" otherwise, followed by the
   * rounded magnitude and "%".
   */
  lemma GrowthSign(c: JsNumber, p: JsNumber)
    requires c.Finite? && p.Finite? && !IsZero(p)
    ensures var k := CommonScale(c, p);
            var r := GrowthText(c, p);
            && |r| >= 5 && r[|r| - 1] == '%' && IsDigit(r[1])
            && (r[0] == '+' <==> AtScale(c, k) >= AtScale(p, k))
            && (r[0] == '-' <==> AtScale(c, k) < AtScale(p, k))
  {
    AtScaleZero(p, CommonScale(c, p));
  }

  /** The colour class of a growth cell (`isPositive` / `isNegative`). */
  datatype Trend = Rising | Falling | Flat

  function TrendOf(rate: string): Trend
  {
    if |rate| > 0 && rate[0] == '+' && '∞' !in rate then Rising
    else if |rate| > 0 && rate[0] == '-' then Falling
    else Flat
  }

  lemma TenthsNoInfinity(t: nat)
    ensures '∞' !in Tenths(t)
  {
    var s := Tenths(t);
    assert s == NatToString(t / 10) + "." + [DigitChar(t % 10)];
    forall i | 0 <= i < |s| ensures s[i] != '∞' {
      if i < |NatToString(t / 10)| {
        assert IsDigit(NatToString(t / 10)[i]);
      }
    }
  }

  /**
   * For finite values the cell is coloured rising exactly when the previous
   * value is non-zero and current >= previous, falling exactly when the
   * previous value is non-zero and current < previous, and plain when the
   * previous value is 0.
   */
  lemma TrendMeaning(c: JsNumber, p: JsNumber)
    requires c.Finite? && p.Finite?
    ensures var k := CommonScale(c, p);
            var t := TrendOf(GrowthText(c, p));
            && (t == Rising <==> !IsZero(p) && AtScale(c, k) >= AtScale(p, k))
            && (t == Falling <==> !IsZero(p) && AtScale(c, k) < AtScale(p, k))
            && (t == Flat <==> IsZero(p))
  {
    var r := GrowthText(c, p);
    if IsZero(p) {
      assert r == "+∞%" || r == "0%";
      assert "+∞%"[1] == '∞';
    } else {
      GrowthSign(c, p);
      var k := CommonScale(c, p);
      var cs := AtScale(c, k);
      var ps := AtScale(p, k);
      AtScaleZero(p, k);
      var diff := if cs >= ps then cs - ps else ps - cs;
      var size := if ps < 0 then -ps else ps;
      var body := Tenths(RoundTenths(diff * 100, size));
      TenthsNoInfinity(RoundTenths(diff * 100, size));
      assert r == [r[0]] + body + "%";
      assert '∞' !in r;
    }
  }

  // ---------------------------------------------------------------------
  // The statement list, the account choices and the filter
  // ---------------------------------------------------------------------

  /** One line of the statement list: the account name and the amounts of the three periods. */
  datatype Item = Item(
    accountName: Option<string>,
    currentAmount: JsValue,
    previousAmount: JsValue,
    beforePreviousAmount: JsValue)

  /** The truthy account names in list order (`map(item => item.account_nm).filter(Boolean)`). */
  function AccountNames(items: seq<Item>): (r: seq<string>)
    ensures forall x :: x in r <==> x != "" && exists i :: 0 <= i < |items| && items[i].accountName == Some(x)
    decreases |items|
  {
    if items == [] then []
    else
      var rest := AccountNames(items[1..]);
      var head := if items[0].accountName.Some? && items[0].accountName.value != "" then [items[0].accountName.value] else [];
      assert forall i :: 0 < i < |items| ==> items[1..][i - 1] == items[i];
      head + rest
  }

  /** `[...new Set(s)]`: the first occurrence of every element, in order. */
  function Dedup(s: seq<string>): (r: seq<string>)
    ensures forall x :: x in r <==> x in s
    ensures Distinct(r)
    decreases |s|
  {
    if s == [] then []
    else
      var d := Dedup(s[..|s| - 1]);
      var last := s[|s| - 1];
      assert forall x :: x in s <==> x in s[..|s| - 1] || x == last;
      if last in d then d else d + [last]
  }

  predicate Distinct(s: seq<string>)
  {
    forall i, j :: 0 <= i < j < |s| ==> s[i] != s[j]
  }

  predicate Sorted(s: seq<string>)
  {
    forall i :: 0 < i < |s| ==> StrLe(s[i - 1], s[i])
  }

  function Insert(x: string, s: seq<string>): (r: seq<string>)
    ensures |r| == |s| + 1
    ensures forall y :: y in r <==> y == x || y in s
    ensures r[0] == x || (s != [] && r[0] == s[0])
  {
    if s == [] || StrLe(x, s[0]) then [x] + s else [s[0]] + Insert(x, s[1..])
  }

  lemma {:induction false} InsertSorted(x: string, s: seq<string>)
    requires Sorted(s)
    ensures Sorted(Insert(x, s))
  {
    if s != [] && !StrLe(x, s[0]) {
      StrLeTotal(x, s[0]);
      assert Sorted(s[1..]) by {
        forall i | 0 < i < |s[1..]| ensures StrLe(s[1..][i - 1], s[1..][i]) {
          assert s[1..][i - 1] == s[i] && s[1..][i] == s[i + 1];
        }
      }
      InsertSorted(x, s[1..]);
      var r := Insert(x, s);
      var tail := Insert(x, s[1..]);
      assert r == [s[0]] + tail;
      forall i | 0 < i < |r| ensures StrLe(r[i - 1], r[i]) {
        if i == 1 {
          assert r[1] == tail[0];
          if s[1..] != [] { assert s[1..][0] == s[1]; }
        } else {
          assert r[i - 1] == tail[i - 2] && r[i] == tail[i - 1];
        }
      }
    }
  }

  lemma {:induction false} InsertDistinct(x: string, s: seq<string>)
    requires Distinct(s) && x !in s
    ensures Distinct(Insert(x, s))
  {
    if s != [] && !StrLe(x, s[0]) {
      assert Distinct(s[1..]) by {
        forall i, j | 0 <= i < j < |s[1..]| ensures s[1..][i] != s[1..][j] {
          assert s[1..][i] == s[i + 1] && s[1..][j] == s[j + 1];
        }
      }
      assert x !in s[1..];
      InsertDistinct(x, s[1..]);
      var tail := Insert(x, s[1..]);
      assert s[0] !in s[1..] by {
        forall j | 0 <= j < |s[1..]| ensures s[1..][j] != s[0] { assert s[1..][j] == s[j + 1]; }
      }
      assert s[0] !in tail;
      var r := [s[0]] + tail;
      forall i, j | 0 <= i < j < |r| ensures r[i] != r[j] {
        if i == 0 { assert r[j] == tail[j - 1]; assert r[j] in tail; }
        else { assert r[i] == tail[i - 1] && r[j] == tail[j - 1]; }
      }
    }
  }

  /** `Array.prototype.sort()` with the default comparison, as insertion sort. */
  function Sort(s: seq<string>): (r: seq<string>)
    ensures |r| == |s|
    ensures forall y :: y in r <==> y in s
  {
    if s == [] then [] else Insert(s[0], Sort(s[1..]))
  }

  lemma {:induction false} SortSorted(s: seq<string>)
    ensures Sorted(Sort(s))
  {
    if s != [] {
      SortSorted(s[1..]);
      InsertSorted(s[0], Sort(s[1..]));
    }
  }

  lemma {:induction false} SortDistinct(s: seq<string>)
    requires Distinct(s)
    ensures Distinct(Sort(s))
  {
    if s != [] {
      assert Distinct(s[1..]) by {
        forall i, j | 0 <= i < j < |s[1..]| ensures s[1..][i] != s[1..][j] {
          assert s[1..][i] == s[i + 1] && s[1..][j] == s[j + 1];
        }
      }
      SortDistinct(s[1..]);
      assert s[0] !in s[1..] by {
        forall j | 0 <= j < |s[1..]| ensures s[1..][j] != s[0] { assert s[1..][j] == s[j + 1]; }
      }
      InsertDistinct(s[0], Sort(s[1..]));
    }
  }

  /** availableAccounts: the distinct truthy account names, sorted; [] when there is no list. */
  function AvailableAccounts(list: Option<seq<Item>>): seq<string>
  {
    if list.None? then [] else Sort(Dedup(AccountNames(list.value)))
  }

  /**
   * The account choices are sorted and free of duplicates, and a name is
   * offered exactly when it is the non-empty account name of some item.
   */
  lemma AvailableAccountsSpec(list: Option<seq<Item>>)
    ensures var r := AvailableAccounts(list);
            && Sorted(r) && Distinct(r)
            && (list.None? ==> r == [])
            && (list.Some? ==> forall x :: x in r <==>
                  x != "" && exists i :: 0 <= i < |list.value| && list.value[i].accountName == Some(x))
  {
    if list.Some? {
      var d := Dedup(AccountNames(list.value));
      SortSorted(d);
      SortDistinct(d);
    }
  }

  /** Sorted and duplicate-free means strictly increasing. */
  lemma SortedDistinctStrict(s: seq<string>, i: int)
    requires Sorted(s) && Distinct(s) && 0 < i < |s|
    ensures StrLe(s[i - 1], s[i]) && !StrLe(s[i], s[i - 1])
  {
    if StrLe(s[i], s[i - 1]) { StrLeAntisymmetric(s[i - 1], s[i]); }
  }

  predicate HasAccount(item: Item, account: string)
  {
    item.accountName.Some? && item.accountName.value != "" && item.accountName.value == account
  }

  function KeepAccount(items: seq<Item>, account: string): (r: seq<Item>)
    ensures forall x :: x in r <==> x in items && HasAccount(x, account)
    decreases |items|
  {
    if items == [] then []
    else
      var rest := KeepAccount(items[1..], account);
      assert forall x :: x in items <==> x == items[0] || x in items[1..];
      (if HasAccount(items[0], account) then [items[0]] else []) + rest
  }

  /** Filtering a concatenation filters each part: the kept items stay in list order. */
  lemma {:induction false} KeepAccountConcat(a: seq<Item>, b: seq<Item>, account: string)
    ensures KeepAccount(a + b, account) == KeepAccount(a, account) + KeepAccount(b, account)
    decreases |a|
  {
    if a == [] {
      assert a + b == b;
    } else {
      assert (a + b)[0] == a[0] && (a + b)[1..] == a[1..] + b;
      KeepAccountConcat(a[1..], b, account);
    }
  }

  /** filteredFinancialData: [] without a list, the whole list for an empty filter, else the matching items. */
  function FilteredFinancialData(list: Option<seq<Item>>, accountFilter: string): seq<Item>
  {
    if list.None? then []
    else if accountFilter == "" then list.value
    else KeepAccount(list.value, accountFilter)
  }

  /**
   * With a non-empty filter the result holds exactly the items whose account
   * name is the filter, and no item changes its relative order.
   */
  lemma FilteredSpec(list: Option<seq<Item>>, accountFilter: string)
    ensures list.None? ==> FilteredFinancialData(list, accountFilter) == []
    ensures list.Some? && accountFilter == "" ==> FilteredFinancialData(list, accountFilter) == list.value
    ensures list.Some? && accountFilter != "" ==>
      forall x :: x in FilteredFinancialData(list, accountFilter) <==>
        x in list.value && x.accountName == Some(accountFilter)
  {
  }

  lemma FilteredSplit(a: seq<Item>, b: seq<Item>, accountFilter: string)
    ensures FilteredFinancialData(Some(a + b), accountFilter)
      == FilteredFinancialData(Some(a), accountFilter) + FilteredFinancialData(Some(b), accountFilter)
  {
    if accountFilter != "" { KeepAccountConcat(a, b, accountFilter); }
  }

  /** The data table shows the first 20 filtered items. */
  const TableLimit: nat := 20

  function DisplayedItems(items: seq<Item>): (r: seq<Item>)
    ensures |r| <= TableLimit && |r| <= |items|
    ensures r == items[..|r|]
    ensures |items| <= TableLimit ==> r == items
    ensures |items| > TableLimit ==> |r| == TableLimit
  {
    if |items| <= TableLimit then items else items[..TableLimit]
  }

  // ---------------------------------------------------------------------
  // Years and filter state
  // ---------------------------------------------------------------------

  const CurrentYear: int := 2024

  /** The business years offered: the ten years from 2024 down to 2015. */
  function Years(): (r: seq<int>)
    ensures |r| == 10
  {
    seq(10, i requires 0 <= i < 10 => CurrentYear - i)
  }

  lemma YearsDescending()
    ensures Years()[0] == 2024 && Years()[9] == 2015
    ensures forall i, j :: 0 <= i < j < |Years()| ==> Years()[i] > Years()[j]
    ensures forall y :: y in Years() <==> 2015 <= y <= 2024
  {
    var r := Years();
    forall y | 2015 <= y <= 2024 ensures y in r { assert r[2024 - y] == y; }
  }

  const DefaultFilters: map<string, string> := map["bsns_year" := "2023", "reprt_code" := "11011"]

  /** The filter state of the screen. */
  class AnalysisFilters {
    var filters: map<string, string>
    var accountFilter: string

    constructor ()
      ensures filters == DefaultFilters && accountFilter == ""
    {
      filters := DefaultFilters;
      accountFilter := "";
    }

    /** A select changed: only the named field takes the new value. */
    method HandleFilterChange(name: string, value: string)
      modifies this
      ensures filters == old(filters)[name := value]
      ensures accountFilter == old(accountFilter)
    {
      filters := filters[name := value];
    }

    /** The account filter select changed. */
    method SetAccountFilter(value: string)
      modifies this
      ensures accountFilter == value && filters == old(filters)
    {
      accountFilter := value;
    }

    /** Reset: no account filter, the 2023 annual report. */
    method HandleClearFilter()
      modifies this
      ensures accountFilter == "" && filters == DefaultFilters
    {
      accountFilter := "";
      filters := DefaultFilters;
    }

    function Filtered(list: Option<seq<Item>>): seq<Item>
      reads this
    {
      FilteredFinancialData(list, accountFilter)
    }
  }

  /** After a reset the table shows the whole list again. */
  method ClearShowsAll(view: AnalysisFilters, list: seq<Item>) returns (shown: seq<Item>)
    modifies view
    ensures shown == DisplayedItems(list)
  {
    view.HandleClearFilter();
    shown := DisplayedItems(view.Filtered(Some(list)));
  }
}

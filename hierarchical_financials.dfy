/**
 * The hierarchical statement view: amount formatting in 조/억/만 units, the
 * depth-first flattening of a statement tree into rows under an expanded-key
 * set, the expand/collapse toggle, and the choice between the loading, error
 * and statement screens.
 */
module HierarchicalFinancials {
  import opened Common
  import opened FinancialTree

  /** The year columns every row shows, most recent first. */
  const DisplayYears: seq<string> := ["2023", "2022", "2021", "2020", "2019"]

  /** The keys expanded when the view is first shown. */
  const DefaultExpanded: set<string> := {"유동자산", "비유동자산"}

  // ---------------------------------------------------------------------
  // formatAmount
  // ---------------------------------------------------------------------

  /** The three scaled units: 조 (10^12), 억 (10^8) and 만 (10^4). */
  datatype Unit = Jo | Eok | Man

  function UnitSize(u: Unit): nat
  {
    match u
    case Jo => 1_000_000_000_000
    case Eok => 100_000_000
    case Man => 10_000
  }

  function UnitSuffix(u: Unit): char
  {
    match u
    case Jo => '조'
    case Eok => '억'
    case Man => '만'
  }

  predicate IsUnitSuffix(c: char)
  {
    c == '조' || c == '억' || c == '만'
  }

  /** The unit a magnitude is written in; below 10^4 it is written as a plain integer. */
  function UnitFor(n: nat): Option<Unit>
  {
    if n >= 1_000_000_000_000 then Some(Jo)
    else if n >= 100_000_000 then Some(Eok)
    else if n >= 10_000 then Some(Man)
    else None
  }

  /** The text for a non-negative amount. */
  function FormatMagnitude(n: nat): (s: string)
    ensures |s| > 0 && IsDigit(s[0])
    ensures IsDigit(s[|s| - 1]) || IsUnitSuffix(s[|s| - 1])
  {
    match UnitFor(n)
    case Some(u) => Tenths(RoundTenths(n, UnitSize(u))) + [UnitSuffix(u)]
    case None => Grouped(n)
  }

  /** formatAmount: "-" when there is no amount, accounting parentheses around negatives. */
  function FormatAmount(amount: Option<int>): (s: string)
    ensures s == "-" <==> amount.None?
    ensures amount.Some? ==> |s| > 0 && (s[0] == '(' <==> amount.value < 0)
  {
    match amount
    case None => "-"
    case Some(a) => if a < 0 then "(" + FormatMagnitude(-a) + ")" else FormatMagnitude(a)
  }

  /** Negative amounts are the parenthesised text of their magnitude; others are never parenthesised. */
  lemma FormatAmountSign(a: int)
    ensures a < 0 ==> FormatAmount(Some(a)) == "(" + FormatAmount(Some(-a)) + ")"
    ensures a >= 0 ==> var s := FormatAmount(Some(a)); s[0] != '(' && s[|s| - 1] != ')'
  {
    if a < 0 {
      FormatNegative(a);
    } else {
      FormatNonNegative(a);
    }
  }

  lemma FormatNegative(a: int)
    requires a < 0
    ensures FormatAmount(Some(a)) == "(" + FormatAmount(Some(-a)) + ")"
  {
  }

  lemma FormatNonNegative(a: int)
    requires a >= 0
    ensures var s := FormatAmount(Some(a)); s[0] != '(' && s[|s| - 1] != ')'
  {
  }

  /** The suffix of the text says which magnitude range the amount lies in. */
  lemma FormatMagnitudeUnit(n: nat)
    ensures var s := FormatMagnitude(n);
      && (s[|s| - 1] == '조' <==> n >= 1_000_000_000_000)
      && (s[|s| - 1] == '억' <==> 100_000_000 <= n < 1_000_000_000_000)
      && (s[|s| - 1] == '만' <==> 10_000 <= n < 100_000_000)
      && (IsDigit(s[|s| - 1]) <==> n < 10_000)
  {
  }

  /** Removing the point from a one-decimal text gives back the count of tenths. */
  lemma TenthsRoundTrip(t: nat)
    ensures AllDigits(Without(Tenths(t), '.'))
    ensures DigitsValue(Without(Tenths(t), '.')) == t
  {
    var hi := NatToString(t / 10);
    var d := DigitChar(t % 10);
    assert Tenths(t) == hi + "." + [d];
    WithoutAbsent(hi, '.');
    WithoutPoint(hi, d);
    NatToStringRoundTrip(t / 10);
    DigitsValueLastDigit(hi, d);
    assert DigitsValue(hi) * 10 + DigitValue(d) == t;
  }

  lemma WithoutPoint(hi: string, d: char)
    requires d != '.'
    ensures Without(hi + "." + [d], '.') == Without(hi, '.') + [d]
  {
    var tail := "." + [d];
    assert hi + "." + [d] == hi + tail;
    WithoutConcat(hi, tail, '.');
    assert tail[0] == '.' && tail[1..] == [d];
    assert Without(tail, '.') == Without([d], '.');
  }

  lemma DigitsValueLastDigit(s: string, d: char)
    requires AllDigits(s) && IsDigit(d)
    ensures AllDigits(s + [d]) && DigitsValue(s + [d]) == DigitsValue(s) * 10 + DigitValue(d)
  {
    var c := s + [d];
    assert c[..|c| - 1] == s && c[|c| - 1] == d;
  }

  lemma RoundTenthsNearest(n: nat, size: nat)
    requires size > 0 && size % 2 == 0
    ensures RoundTenths(n, size) * size <= n * 10 + size / 2 < (RoundTenths(n, size) + 1) * size
  {
    var q := RoundTenths(n, size);
    var m := n * 10 + size / 2;
    assert m == q * size + m % size;
  }

  /**
   * A scaled amount is written as its value in the unit, to the nearest tenth,
   * followed by the unit's character.
   */
  lemma FormatMagnitudeScaled(n: nat)
    requires n >= 10_000
    ensures var s := FormatMagnitude(n);
      var digits := Without(s[..|s| - 1], '.');
      var size := UnitSize(UnitFor(n).value);
      && IsUnitSuffix(s[|s| - 1])
      && AllDigits(digits)
      && DigitsValue(digits) * size <= n * 10 + size / 2 < (DigitsValue(digits) + 1) * size
  {
    var u := UnitFor(n).value;
    var t := RoundTenths(n, UnitSize(u));
    var s := FormatMagnitude(n);
    assert s == Tenths(t) + [UnitSuffix(u)];
    assert s[..|s| - 1] == Tenths(t);
    TenthsRoundTrip(t);
    RoundTenthsNearest(n, UnitSize(u));
  }

  /** Below 10^4 the text is the grouped integer, which reads back as the amount. */
  lemma FormatMagnitudeSmall(n: nat)
    requires n < 10_000
    ensures FormatMagnitude(n) == Grouped(n)
    ensures AllDigits(Without(FormatMagnitude(n), ','))
    ensures DigitsValue(Without(FormatMagnitude(n), ',')) == n
  {
    GroupedRoundTrip(n);
  }

  lemma FormatAmountExamples()
    ensures FormatAmount(Some(1_000_000_000_000)) == "1.0조"
    ensures FormatAmount(Some(150_000_000)) == "1.5억"
    ensures FormatAmount(Some(25_000)) == "2.5만"
  {
    FormatAmountJoExample();
    FormatAmountEokExample();
    FormatAmountManExample();
  }

  lemma FormatAmountJoExample()
    ensures FormatAmount(Some(1_000_000_000_000)) == "1.0조"
  {
    assert RoundTenths(1_000_000_000_000, 1_000_000_000_000) == 10;
    assert Tenths(10) == "1.0";
  }

  lemma FormatAmountEokExample()
    ensures FormatAmount(Some(150_000_000)) == "1.5억"
  {
    assert RoundTenths(150_000_000, 100_000_000) == 15;
    assert Tenths(15) == "1.5";
  }

  lemma FormatAmountManExample()
    ensures FormatAmount(Some(25_000)) == "2.5만"
  {
    assert RoundTenths(25_000, 10_000) == 25;
    assert Tenths(25) == "2.5";
  }

  lemma FormatAmountSmallExamples()
    ensures FormatAmount(Some(999)) == "999"
    ensures FormatAmount(Some(0)) == "0"
    ensures FormatAmount(None) == "-"
  {
    assert NatToString(999) == "999" by {
      assert NatToString(99) == "99";
    }
  }

  lemma FormatAmountNegativeExample()
    ensures FormatAmount(Some(-500_000_000)) == "(5.0억)"
  {
    assert RoundTenths(500_000_000, 100_000_000) == 50;
    assert Tenths(50) == "5.0";
  }

  /** A magnitude just under 10^8 stays in 만 and rounds up to 10000.0 of it. */
  lemma FormatAmountUnitBoundary()
    ensures FormatAmount(Some(99_999_999)) == "10000.0만"
  {
    assert RoundTenths(99_999_999, 10_000) == 100_000;
    assert NatToString(10_000) == "10000" by {
      assert NatToString(1000) == "1000" by {
        assert NatToString(100) == "100" by {
          assert NatToString(10) == "10";
        }
      }
    }
  }

  // ---------------------------------------------------------------------
  // Rows
  // ---------------------------------------------------------------------

  /**
   * One rendered row: its full key, its label, its indentation level, the
   * formatted amount and the negative flag of each display year, whether it is
   * clickable, and the expand icon (shown only on nodes with details, holding
   * whether the node is expanded).
   */
  datatype Row = Row(
    key: string,
    name: string,
    level: nat,
    cells: seq<string>,
    negative: seq<bool>,
    clickable: bool,
    icon: Option<bool>)

  /** The key of a child: a top-level node's key is its label, a child's is the parent's key, ".", label. */
  function FullKey(parentKey: string, name: string): string
  {
    if parentKey == "" then name else parentKey + "." + name
  }

  function AmountFor(amount: Amounts, year: string): Option<int>
  {
    if year in amount then Some(amount[year]) else None
  }

  function MakeRow(name: string, n: Node, level: nat, key: string, expanded: set<string>): Row
  {
    Row(key, name, level,
        seq(|DisplayYears|, i requires 0 <= i < |DisplayYears| => FormatAmount(AmountFor(n.amount, DisplayYears[i]))),
        seq(|DisplayYears|, i requires 0 <= i < |DisplayYears| => DisplayYears[i] in n.amount && n.amount[DisplayYears[i]] < 0),
        n.hasDetails,
        if n.hasDetails then Some(key in expanded) else None)
  }

  /** The node is descended into: it has details, its key is expanded, and it carries a details mapping. */
  predicate Descends(e: Entry, parentKey: string, expanded: set<string>)
  {
    e.node.hasDetails && FullKey(parentKey, e.name) in expanded && e.node.details.Present?
  }

  /** renderFinancialRow: the row of one node followed, when it is descended into, by its children's rows. */
  function RenderEntry(e: Entry, level: nat, parentKey: string, expanded: set<string>): seq<Row>
    decreases e
  {
    var key := FullKey(parentKey, e.name);
    [MakeRow(e.name, e.node, level, key, expanded)]
    + (if Descends(e, parentKey, expanded)
       then RenderEntries(e.node.details.entries, level + 1, key, expanded)
       else [])
  }

  /** The rows of a mapping's entries, in insertion order. */
  function RenderEntries(es: seq<Entry>, level: nat, parentKey: string, expanded: set<string>): seq<Row>
    decreases es
  {
    if es == [] then [] else RenderEntry(es[0], level, parentKey, expanded) + RenderEntries(es[1..], level, parentKey, expanded)
  }

  /** The rows of a whole statement tree, starting at level 0 with no parent key. */
  function Render(t: Tree, expanded: set<string>): seq<Row>
  {
    RenderEntries(t, 0, "", expanded)
  }

  /** Every row of one node shows the five display years in order. */
  lemma RowCells(name: string, n: Node, level: nat, key: string, expanded: set<string>)
    ensures var r := MakeRow(name, n, level, key, expanded);
      && |r.cells| == |DisplayYears| == 5
      && r.cells[0] == FormatAmount(AmountFor(n.amount, "2023"))
      && r.cells[1] == FormatAmount(AmountFor(n.amount, "2022"))
      && r.cells[2] == FormatAmount(AmountFor(n.amount, "2021"))
      && r.cells[3] == FormatAmount(AmountFor(n.amount, "2020"))
      && r.cells[4] == FormatAmount(AmountFor(n.amount, "2019"))
      && (r.icon.Some? <==> r.clickable) && (r.clickable <==> n.hasDetails)
  {
  }

  // ----- structure of the row sequence ----------------------------------

  ghost predicate AllAtLeast(rows: seq<Row>, level: nat)
  {
    forall i :: 0 <= i < |rows| ==> rows[i].level >= level
  }

  /** Indentation never jumps by more than one level from one row to the next. */
  ghost predicate Outline(rows: seq<Row>)
  {
    forall i :: 0 < i < |rows| ==> rows[i].level <= rows[i - 1].level + 1
  }

  lemma OutlineConcat(a: seq<Row>, b: seq<Row>, level: nat)
    requires Outline(a) && Outline(b) && AllAtLeast(a, level) && AllAtLeast(b, level)
    requires |a| > 0 && |b| > 0 ==> b[0].level <= a[|a| - 1].level + 1
    ensures Outline(a + b) && AllAtLeast(a + b, level)
  {
    var c := a + b;
    forall i | 0 < i < |c| ensures c[i].level <= c[i - 1].level + 1 {
      if i > |a| {
        assert c[i] == b[i - |a|] && c[i - 1] == b[i - 1 - |a|];
      } else if i == |a| {
        assert c[i] == b[0] && c[i - 1] == a[|a| - 1];
      }
    }
  }

  lemma {:induction false} EntryShape(e: Entry, level: nat, parentKey: string, expanded: set<string>)
    ensures var rows := RenderEntry(e, level, parentKey, expanded);
      && |rows| >= 1 && rows[0].level == level && AllAtLeast(rows, level) && Outline(rows)
    decreases e
  {
    var key := FullKey(parentKey, e.name);
    var head := [MakeRow(e.name, e.node, level, key, expanded)];
    SingleRowShape(head, level);
    if Descends(e, parentKey, expanded) {
      var kids := RenderEntries(e.node.details.entries, level + 1, key, expanded);
      assert RenderEntry(e, level, parentKey, expanded) == head + kids;
      EntriesShape(e.node.details.entries, level + 1, key, expanded);
      OutlineConcat(head, kids, level);
    } else {
      assert RenderEntry(e, level, parentKey, expanded) == head;
    }
  }

  lemma SingleRowShape(rows: seq<Row>, level: nat)
    requires |rows| == 1 && rows[0].level == level
    ensures AllAtLeast(rows, level) && Outline(rows)
  {
  }

  /**
   * The rows of a mapping: at least one per entry, the first at the mapping's
   * level, none above it, and no indentation jump of more than one level.
   */
  lemma {:induction false} EntriesShape(es: seq<Entry>, level: nat, parentKey: string, expanded: set<string>)
    ensures var rows := RenderEntries(es, level, parentKey, expanded);
      && |rows| >= |es|
      && (|es| > 0 ==> rows[0].level == level)
      && AllAtLeast(rows, level) && Outline(rows)
    decreases es
  {
    if es != [] {
      EntryShape(es[0], level, parentKey, expanded);
      EntriesShape(es[1..], level, parentKey, expanded);
      OutlineConcat(RenderEntry(es[0], level, parentKey, expanded), RenderEntries(es[1..], level, parentKey, expanded), level);
    }
  }

  // ----- the rows at one level -------------------------------------------

  /** The rows at exactly the given level, in order. */
  function AtLevel(rows: seq<Row>, level: nat): (r: seq<Row>)
    ensures |r| <= |rows|
  {
    if rows == [] then [] else (if rows[0].level == level then [rows[0]] else []) + AtLevel(rows[1..], level)
  }

  lemma {:induction false} AtLevelConcat(a: seq<Row>, b: seq<Row>, level: nat)
    ensures AtLevel(a + b, level) == AtLevel(a, level) + AtLevel(b, level)
    decreases |a|
  {
    if a == [] {
      assert a + b == b;
    } else {
      var c := a + b;
      assert c[0] == a[0];
      assert c[1..] == a[1..] + b;
      AtLevelConcat(a[1..], b, level);
      var h := if a[0].level == level then [a[0]] else [];
      assert AtLevel(c, level) == h + AtLevel(c[1..], level);
      assert AtLevel(a, level) == h + AtLevel(a[1..], level);
    }
  }

  lemma {:induction false} AtLevelDeeper(rows: seq<Row>, level: nat)
    requires AllAtLeast(rows, level + 1)
    ensures AtLevel(rows, level) == []
    decreases |rows|
  {
    if rows != [] {
      assert AllAtLeast(rows[1..], level + 1) by {
        forall i | 0 <= i < |rows[1..]| ensures rows[1..][i].level >= level + 1 {
          assert rows[1..][i] == rows[i + 1];
        }
      }
      AtLevelDeeper(rows[1..], level);
    }
  }

  /** The rows of the entries themselves: the i-th one names the i-th entry, under its full key. */
  ghost predicate NamesEntries(rows: seq<Row>, es: seq<Entry>, parentKey: string)
  {
    && |rows| == |es|
    && forall i :: 0 <= i < |es| ==> rows[i].name == es[i].name && rows[i].key == FullKey(parentKey, es[i].name)
  }

  /**
   * Among the rows of a mapping, those at the mapping's own level are exactly
   * one per entry, in insertion order.
   */
  lemma {:induction false} TopRows(es: seq<Entry>, level: nat, parentKey: string, expanded: set<string>)
    ensures NamesEntries(AtLevel(RenderEntries(es, level, parentKey, expanded), level), es, parentKey)
    decreases es
  {
    if es != [] {
      var e := es[0];
      var key := FullKey(parentKey, e.name);
      var head := [MakeRow(e.name, e.node, level, key, expanded)];
      var first := RenderEntry(e, level, parentKey, expanded);
      if Descends(e, parentKey, expanded) {
        var kids := RenderEntries(e.node.details.entries, level + 1, key, expanded);
        EntriesShape(e.node.details.entries, level + 1, key, expanded);
        AtLevelDeeper(kids, level);
        AtLevelConcat(head, kids, level);
      } else {
        assert first == head;
      }
      assert AtLevel(first, level) == head;
      TopRows(es[1..], level, parentKey, expanded);
      AtLevelConcat(first, RenderEntries(es[1..], level, parentKey, expanded), level);
    }
  }

  /** The top-level rows of a statement are one per top-level label, in order, keyed by the label. */
  lemma RenderTopLevel(t: Tree, expanded: set<string>)
    ensures var top := AtLevel(Render(t, expanded), 0);
      |top| == |t| && forall i :: 0 <= i < |t| ==> top[i].name == t[i].name && top[i].key == t[i].name
  {
    TopRows(t, 0, "", expanded);
  }

  /**
   * A node that is descended into is followed immediately by its descendants,
   * all deeper than it, whose own top rows are its children in insertion order
   * and keyed under its key; a node that is not descended into yields its row alone.
   */
  lemma RenderEntryChildren(e: Entry, level: nat, parentKey: string, expanded: set<string>)
    ensures var rows := RenderEntry(e, level, parentKey, expanded);
      && rows[0] == MakeRow(e.name, e.node, level, FullKey(parentKey, e.name), expanded)
      && (!Descends(e, parentKey, expanded) ==> |rows| == 1)
      && (Descends(e, parentKey, expanded) ==>
            && AllAtLeast(rows[1..], level + 1)
            && NamesEntries(AtLevel(rows[1..], level + 1), e.node.details.entries, rows[0].key))
  {
    var key := FullKey(parentKey, e.name);
    var rows := RenderEntry(e, level, parentKey, expanded);
    if Descends(e, parentKey, expanded) {
      var kids := RenderEntries(e.node.details.entries, level + 1, key, expanded);
      assert rows[1..] == kids;
      EntriesShape(e.node.details.entries, level + 1, key, expanded);
      TopRows(e.node.details.entries, level + 1, key, expanded);
    }
  }

  /** With nothing expanded, a mapping yields exactly one row per entry, all at its level. */
  lemma {:induction false} RenderCollapsed(es: seq<Entry>, level: nat, parentKey: string)
    ensures var rows := RenderEntries(es, level, parentKey, {});
      && NamesEntries(rows, es, parentKey)
      && forall i :: 0 <= i < |rows| ==> rows[i].level == level
    decreases es
  {
    if es != [] {
      RenderCollapsed(es[1..], level, parentKey);
      var rest := RenderEntries(es[1..], level, parentKey, {});
      var rows := RenderEntries(es, level, parentKey, {});
      assert !Descends(es[0], parentKey, {});
      assert RenderEntry(es[0], level, parentKey, {}) == [MakeRow(es[0].name, es[0].node, level, FullKey(parentKey, es[0].name), {})];
      assert rows == [MakeRow(es[0].name, es[0].node, level, FullKey(parentKey, es[0].name), {})] + rest;
      forall i | 1 <= i < |rows| ensures rows[i] == rest[i - 1] && es[i] == es[1..][i - 1] {
      }
    }
  }

  // ----- which keys matter ------------------------------------------------

  function KeysOfEntry(e: Entry, parentKey: string): set<string>
    decreases e
  {
    var key := FullKey(parentKey, e.name);
    (if e.node.hasDetails then {key} else {})
    + (if e.node.details.Present? then KeysOfEntries(e.node.details.entries, key) else {})
  }

  /** The full keys of every node with details in a mapping: the only keys a click can toggle. */
  function KeysOfEntries(es: seq<Entry>, parentKey: string): set<string>
    decreases es
  {
    if es == [] then {} else KeysOfEntry(es[0], parentKey) + KeysOfEntries(es[1..], parentKey)
  }

  function ToggleKeys(t: Tree): set<string>
  {
    KeysOfEntries(t, "")
  }

  ghost predicate AgreeOn(keys: set<string>, e1: set<string>, e2: set<string>)
  {
    forall k :: k in keys ==> (k in e1 <==> k in e2)
  }

  lemma {:induction false} EntryCongruence(e: Entry, level: nat, parentKey: string, e1: set<string>, e2: set<string>)
    requires AgreeOn(KeysOfEntry(e, parentKey), e1, e2)
    ensures RenderEntry(e, level, parentKey, e1) == RenderEntry(e, level, parentKey, e2)
    decreases e
  {
    var key := FullKey(parentKey, e.name);
    if e.node.hasDetails {
      assert key in KeysOfEntry(e, parentKey);
    }
    if e.node.details.Present? {
      assert AgreeOn(KeysOfEntries(e.node.details.entries, key), e1, e2) by {
        forall k | k in KeysOfEntries(e.node.details.entries, key) ensures k in e1 <==> k in e2 {
          assert k in KeysOfEntry(e, parentKey);
        }
      }
      EntriesCongruence(e.node.details.entries, level + 1, key, e1, e2);
    }
  }

  /** The rows depend on the expanded set only through the keys of nodes with details. */
  lemma {:induction false} EntriesCongruence(es: seq<Entry>, level: nat, parentKey: string, e1: set<string>, e2: set<string>)
    requires AgreeOn(KeysOfEntries(es, parentKey), e1, e2)
    ensures RenderEntries(es, level, parentKey, e1) == RenderEntries(es, level, parentKey, e2)
    decreases es
  {
    if es != [] {
      assert AgreeOn(KeysOfEntry(es[0], parentKey), e1, e2) by {
        forall k | k in KeysOfEntry(es[0], parentKey) ensures k in e1 <==> k in e2 {
          assert k in KeysOfEntries(es, parentKey);
        }
      }
      assert AgreeOn(KeysOfEntries(es[1..], parentKey), e1, e2) by {
        forall k | k in KeysOfEntries(es[1..], parentKey) ensures k in e1 <==> k in e2 {
          assert k in KeysOfEntries(es, parentKey);
        }
      }
      EntryCongruence(es[0], level, parentKey, e1, e2);
      EntriesCongruence(es[1..], level, parentKey, e1, e2);
    }
  }

  /** Every clickable row's key is the key of a node with details. */
  ghost predicate ClickableWithin(rows: seq<Row>, keys: set<string>)
  {
    forall i :: 0 <= i < |rows| && rows[i].clickable ==> rows[i].key in keys
  }

  lemma {:induction false} ClickableRowKeys(es: seq<Entry>, level: nat, parentKey: string, expanded: set<string>)
    ensures ClickableWithin(RenderEntries(es, level, parentKey, expanded), KeysOfEntries(es, parentKey))
    decreases es
  {
    if es != [] {
      var e := es[0];
      var key := FullKey(parentKey, e.name);
      var first := RenderEntry(e, level, parentKey, expanded);
      var rest := RenderEntries(es[1..], level, parentKey, expanded);
      ClickableRowKeys(es[1..], level, parentKey, expanded);
      if Descends(e, parentKey, expanded) {
        ClickableRowKeys(e.node.details.entries, level + 1, key, expanded);
      }
      var rows := first + rest;
      assert RenderEntries(es, level, parentKey, expanded) == rows;
      assert KeysOfEntries(es, parentKey) == KeysOfEntry(e, parentKey) + KeysOfEntries(es[1..], parentKey);
      if !Descends(e, parentKey, expanded) {
        assert |first| == 1;
      }
      forall i | 0 <= i < |rows| && rows[i].clickable ensures rows[i].key in KeysOfEntries(es, parentKey) {
        if i >= |first| {
          assert rows[i] == rest[i - |first|];
          assert rest[i - |first|].clickable;
        } else if i > 0 {
          assert Descends(e, parentKey, expanded);
          var kids := RenderEntries(e.node.details.entries, level + 1, key, expanded);
          assert first == [MakeRow(e.name, e.node, level, key, expanded)] + kids;
          assert rows[i] == kids[i - 1];
          assert ClickableWithin(kids, KeysOfEntries(e.node.details.entries, key));
          assert kids[i - 1].clickable;
          assert rows[i].key in KeysOfEntries(e.node.details.entries, key);
          assert rows[i].key in KeysOfEntry(e, parentKey);
        } else {
          assert rows[i] == MakeRow(e.name, e.node, level, key, expanded);
          assert rows[i].key in KeysOfEntry(e, parentKey);
        }
      }
    }
  }

  // ---------------------------------------------------------------------
  // The expanded set
  // ---------------------------------------------------------------------

  /** toggleExpand on a set: the key flips membership and every other key keeps it. */
  function Toggled(expanded: set<string>, key: string): (r: set<string>)
    ensures key in r <==> key !in expanded
    ensures forall k :: k != key ==> (k in r <==> k in expanded)
  {
    if key in expanded then expanded - {key} else expanded + {key}
  }

  lemma ToggleTwice(expanded: set<string>, key: string)
    ensures Toggled(Toggled(expanded, key), key) == expanded
  {
  }

  /** Toggling a key that belongs to no node with details changes no row at all. */
  lemma ToggleElsewhere(t: Tree, expanded: set<string>, key: string)
    requires key !in ToggleKeys(t)
    ensures Render(t, Toggled(expanded, key)) == Render(t, expanded)
  {
    EntriesCongruence(t, 0, "", Toggled(expanded, key), expanded);
  }

  /**
   * Toggling a node with a non-empty details mapping flips it between its
   * row alone and its row followed by its children's rows.
   */
  lemma ToggleFlipsChildren(e: Entry, level: nat, parentKey: string, expanded: set<string>)
    requires e.node.hasDetails && e.node.details.Present? && |e.node.details.entries| > 0
    ensures var key := FullKey(parentKey, e.name);
            |RenderEntry(e, level, parentKey, Toggled(expanded, key))| > 1 <==> |RenderEntry(e, level, parentKey, expanded)| == 1
  {
    var key := FullKey(parentKey, e.name);
    EntriesShape(e.node.details.entries, level + 1, key, expanded);
    EntriesShape(e.node.details.entries, level + 1, key, Toggled(expanded, key));
  }

  /** The view's expand/collapse state. */
  class ExpandState {
    var expanded: set<string>

    constructor ()
      ensures expanded == DefaultExpanded
    {
      expanded := DefaultExpanded;
    }

    /** toggleExpand: copy the set, delete the key if present and add it otherwise. */
    method Toggle(key: string)
      modifies this
      ensures expanded == Toggled(old(expanded), key)
    {
      var next := expanded;
      if key in next {
        next := next - {key};
      } else {
        next := next + {key};
      }
      expanded := next;
    }

    /** A click on a row's label toggles it only when the row has details. */
    method Click(row: Row)
      modifies this
      ensures row.clickable ==> expanded == Toggled(old(expanded), row.key)
      ensures !row.clickable ==> expanded == old(expanded)
    {
      if row.clickable {
        Toggle(row.key);
      }
    }

    function Rows(t: Tree): seq<Row>
      reads this
    {
      Render(t, expanded)
    }
  }

  // ---------------------------------------------------------------------
  // Screen selection
  // ---------------------------------------------------------------------

  /** The three screens: loading, error, and the statement (with the "no data" notice when empty). */
  datatype Screen = Loading | Failed | Statement(rows: seq<Row>, emptyNotice: bool)

  /**
   * Loading wins over an error, an error over the data; a missing payload is an
   * empty tree, and the notice is shown exactly when no row is.
   */
  function SelectScreen(isLoading: bool, failed: bool, payload: Option<Tree>, expanded: set<string>): (s: Screen)
    ensures isLoading ==> s == Loading
    ensures !isLoading && failed ==> s == Failed
    ensures !isLoading && !failed ==> s.Statement? && (s.emptyNotice <==> s.rows == [])
    ensures !isLoading && !failed && payload.Some? ==> s.rows == Render(payload.value, expanded)
    ensures !isLoading && !failed && payload.None? ==> s.emptyNotice
  {
    if isLoading then Loading
    else if failed then Failed
    else
      var t := if payload.Some? then payload.value else [];
      EntriesShape(t, 0, "", expanded);
      Statement(Render(t, expanded), |t| == 0)
  }
}

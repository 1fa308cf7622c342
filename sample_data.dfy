/**
 * The constant sample statement served when no XBRL document is available,
 * and the consistency properties it is meant to exhibit.
 */
module SampleData {
  import opened Common
  import opened FinancialTree

  /** Amounts for the five sample years, most recent first. */
  function Yearly(a2023: int, a2022: int, a2021: int, a2020: int, a2019: int): Amounts
  {
    map["2023" := a2023, "2022" := a2022, "2021" := a2021, "2020" := a2020, "2019" := a2019]
  }

  function Leaf(name: string, amount: Amounts): Entry
  {
    Entry(name, Node(amount, false, Absent))
  }

  function Branch(name: string, amount: Amounts, children: seq<Entry>): Entry
  {
    Entry(name, Node(amount, true, Present(children)))
  }

  const Receivables: seq<Entry> := [
    Leaf("매출채권", Yearly(37_000_000, 34_000_000, 32_000_000, 30_000_000, 27_000_000)),
    Leaf("미수금", Yearly(1_000_000, 900_000, 800_000, 700_000, 600_000)),
    Leaf("대손충당금", Yearly(-3_000_000, -2_900_000, -2_800_000, -2_700_000, -2_600_000))
  ]

  const Inventories: seq<Entry> := [
    Leaf("제품", Yearly(15_000_000, 14_000_000, 13_000_000, 12_000_000, 11_000_000)),
    Leaf("원재료", Yearly(8_000_000, 7_500_000, 7_000_000, 6_500_000, 6_000_000)),
    Leaf("재공품", Yearly(2_000_000, 1_500_000, 2_000_000, 1_500_000, 1_000_000))
  ]

  const OtherCurrentAssets: seq<Entry> := [
    Leaf("선급금", Yearly(15_000_000, 14_000_000, 13_000_000, 12_000_000, 11_000_000)),
    Leaf("예치금", Yearly(12_000_000, 12_000_000, 11_000_000, 10_000_000, 9_000_000)),
    Leaf("단기대여금", Yearly(8_000_000, 9_000_000, 9_000_000, 8_000_000, 8_000_000)),
    Leaf("부가세대급금", Yearly(5_000_000, 5_000_000, 5_000_000, 4_000_000, 4_000_000))
  ]

  const CurrentAssets: seq<Entry> := [
    Leaf("현금및현금성자산", Yearly(50_000_000, 45_000_000, 40_000_000, 38_000_000, 35_000_000)),
    Branch("매출채권", Yearly(35_000_000, 32_000_000, 30_000_000, 28_000_000, 25_000_000), Receivables),
    Branch("재고자산", Yearly(25_000_000, 23_000_000, 22_000_000, 20_000_000, 18_000_000), Inventories),
    Branch("기타유동자산", Yearly(40_000_000, 40_000_000, 38_000_000, 34_000_000, 32_000_000), OtherCurrentAssets)
  ]

  const Tangibles: seq<Entry> := [
    Leaf("토지", Yearly(80_000_000, 80_000_000, 80_000_000, 80_000_000, 80_000_000)),
    Leaf("건물", Yearly(70_000_000, 65_000_000, 60_000_000, 55_000_000, 50_000_000)),
    Leaf("기계장치", Yearly(50_000_000, 45_000_000, 40_000_000, 35_000_000, 30_000_000))
  ]

  const Intangibles: seq<Entry> := [
    Leaf("영업권", Yearly(30_000_000, 28_000_000, 26_000_000, 24_000_000, 22_000_000)),
    Leaf("특허권", Yearly(20_000_000, 18_000_000, 16_000_000, 14_000_000, 12_000_000)),
    Leaf("소프트웨어", Yearly(10_000_000, 9_000_000, 8_000_000, 7_000_000, 6_000_000))
  ]

  const NonCurrentAssets: seq<Entry> := [
    Branch("유형자산", Yearly(200_000_000, 190_000_000, 180_000_000, 170_000_000, 160_000_000), Tangibles),
    Branch("무형자산", Yearly(60_000_000, 55_000_000, 50_000_000, 45_000_000, 40_000_000), Intangibles),
    Leaf("기타비유동자산", Yearly(40_000_000, 35_000_000, 30_000_000, 25_000_000, 20_000_000))
  ]

  /** generate_sample_hierarchical_data: current and non-current assets over five years. */
  const SampleTree: Tree := [
    Branch("유동자산", Yearly(150_000_000, 140_000_000, 130_000_000, 120_000_000, 110_000_000), CurrentAssets),
    Branch("비유동자산", Yearly(300_000_000, 280_000_000, 260_000_000, 240_000_000, 220_000_000), NonCurrentAssets)
  ]

  predicate YearKeys(a: Amounts)
  {
    a.Keys == {"2023", "2022", "2021", "2020", "2019"}
  }

  // ----- sums over short literal lists -------------------------------------

  lemma Sum3(a: Entry, b: Entry, c: Entry)
    ensures ChildYears([a, b, c]) == a.node.amount.Keys + b.node.amount.Keys + c.node.amount.Keys
    ensures forall y :: (ChildSum([a, b, c], y)
      == AmountOf(a.node.amount, y) + AmountOf(b.node.amount, y) + AmountOf(c.node.amount, y))
  {
    assert [a, b, c] == [a, b] + [c];
    assert [a, b] == [a] + [b];
    assert [a] == [] + [a];
    ChildSnoc([a, b], c);
    ChildSnoc([a], b);
    ChildSnoc([], a);
  }

  lemma Sum4(a: Entry, b: Entry, c: Entry, d: Entry)
    ensures ChildYears([a, b, c, d]) == a.node.amount.Keys + b.node.amount.Keys + c.node.amount.Keys + d.node.amount.Keys
    ensures forall y :: (ChildSum([a, b, c, d], y)
      == AmountOf(a.node.amount, y) + AmountOf(b.node.amount, y) + AmountOf(c.node.amount, y) + AmountOf(d.node.amount, y))
  {
    assert [a, b, c, d] == [a, b, c] + [d];
    Sum3(a, b, c);
    ChildSnoc([a, b, c], d);
  }

  lemma YearlyKeys(a2023: int, a2022: int, a2021: int, a2020: int, a2019: int)
    ensures YearKeys(Yearly(a2023, a2022, a2021, a2020, a2019))
  {
  }

  /** Three children with amounts for the five sample years add up, year by year. */
  lemma YearlyTotal3(x: Entry, y: Entry, z: Entry,
                     a1: int, a2: int, a3: int, a4: int, a5: int,
                     b1: int, b2: int, b3: int, b4: int, b5: int,
                     c1: int, c2: int, c3: int, c4: int, c5: int)
    requires x.node.amount == Yearly(a1, a2, a3, a4, a5)
    requires y.node.amount == Yearly(b1, b2, b3, b4, b5)
    requires z.node.amount == Yearly(c1, c2, c3, c4, c5)
    ensures IsChildTotal(Yearly(a1 + b1 + c1, a2 + b2 + c2, a3 + b3 + c3, a4 + b4 + c4, a5 + b5 + c5), [x, y, z])
  {
    var p := Yearly(a1 + b1 + c1, a2 + b2 + c2, a3 + b3 + c3, a4 + b4 + c4, a5 + b5 + c5);
    Sum3(x, y, z);
    YearlyKeys(a1, a2, a3, a4, a5);
    YearlyKeys(b1, b2, b3, b4, b5);
    YearlyKeys(c1, c2, c3, c4, c5);
    YearlyKeys(a1 + b1 + c1, a2 + b2 + c2, a3 + b3 + c3, a4 + b4 + c4, a5 + b5 + c5);
    forall yr | yr in p ensures p[yr] == ChildSum([x, y, z], yr) {
      assert yr in {"2023", "2022", "2021", "2020", "2019"};
    }
  }

  /** Four children with amounts for the five sample years add up, year by year. */
  lemma YearlyTotal4(w: Entry, x: Entry, y: Entry, z: Entry,
                     a1: int, a2: int, a3: int, a4: int, a5: int,
                     b1: int, b2: int, b3: int, b4: int, b5: int,
                     c1: int, c2: int, c3: int, c4: int, c5: int,
                     d1: int, d2: int, d3: int, d4: int, d5: int)
    requires w.node.amount == Yearly(a1, a2, a3, a4, a5)
    requires x.node.amount == Yearly(b1, b2, b3, b4, b5)
    requires y.node.amount == Yearly(c1, c2, c3, c4, c5)
    requires z.node.amount == Yearly(d1, d2, d3, d4, d5)
    ensures IsChildTotal(Yearly(a1 + b1 + c1 + d1, a2 + b2 + c2 + d2, a3 + b3 + c3 + d3,
                                a4 + b4 + c4 + d4, a5 + b5 + c5 + d5), [w, x, y, z])
  {
    var p := Yearly(a1 + b1 + c1 + d1, a2 + b2 + c2 + d2, a3 + b3 + c3 + d3, a4 + b4 + c4 + d4, a5 + b5 + c5 + d5);
    Sum4(w, x, y, z);
    YearlyKeys(a1, a2, a3, a4, a5);
    YearlyKeys(b1, b2, b3, b4, b5);
    YearlyKeys(c1, c2, c3, c4, c5);
    YearlyKeys(d1, d2, d3, d4, d5);
    YearlyKeys(a1 + b1 + c1 + d1, a2 + b2 + c2 + d2, a3 + b3 + c3 + d3, a4 + b4 + c4 + d4, a5 + b5 + c5 + d5);
    forall yr | yr in p ensures p[yr] == ChildSum([w, x, y, z], yr) {
      assert yr in {"2023", "2022", "2021", "2020", "2019"};
    }
  }

  lemma LeavesConsistent(es: seq<Entry>)
    requires forall i :: 0 <= i < |es| ==> !es[i].node.hasDetails && es[i].node.details.Absent?
    ensures forall i :: 0 <= i < |es| ==> NodeTotalsConsistent(es[i].node) && NodeDetailsMatchFlag(es[i].node)
  {
  }

  lemma BranchConsistent(e: Entry)
    requires e.node.hasDetails && e.node.details.Present?
    requires IsChildTotal(e.node.amount, e.node.details.entries)
    requires forall i :: 0 <= i < |e.node.details.entries| ==>
      NodeTotalsConsistent(e.node.details.entries[i].node) && NodeDetailsMatchFlag(e.node.details.entries[i].node)
    ensures NodeTotalsConsistent(e.node) && NodeDetailsMatchFlag(e.node)
  {
  }

  lemma ReceivablesTotal()
    ensures IsChildTotal(Yearly(35_000_000, 32_000_000, 30_000_000, 28_000_000, 25_000_000), Receivables)
  {
    var c := Receivables;
    YearlyTotal3(c[0], c[1], c[2],
      37_000_000, 34_000_000, 32_000_000, 30_000_000, 27_000_000,
      1_000_000, 900_000, 800_000, 700_000, 600_000,
      -3_000_000, -2_900_000, -2_800_000, -2_700_000, -2_600_000);
  }

  lemma InventoriesTotal()
    ensures IsChildTotal(Yearly(25_000_000, 23_000_000, 22_000_000, 20_000_000, 18_000_000), Inventories)
  {
    var c := Inventories;
    YearlyTotal3(c[0], c[1], c[2],
      15_000_000, 14_000_000, 13_000_000, 12_000_000, 11_000_000,
      8_000_000, 7_500_000, 7_000_000, 6_500_000, 6_000_000,
      2_000_000, 1_500_000, 2_000_000, 1_500_000, 1_000_000);
  }

  lemma OtherCurrentAssetsTotal()
    ensures IsChildTotal(Yearly(40_000_000, 40_000_000, 38_000_000, 34_000_000, 32_000_000), OtherCurrentAssets)
  {
    var c := OtherCurrentAssets;
    YearlyTotal4(c[0], c[1], c[2], c[3],
      15_000_000, 14_000_000, 13_000_000, 12_000_000, 11_000_000,
      12_000_000, 12_000_000, 11_000_000, 10_000_000, 9_000_000,
      8_000_000, 9_000_000, 9_000_000, 8_000_000, 8_000_000,
      5_000_000, 5_000_000, 5_000_000, 4_000_000, 4_000_000);
  }

  lemma CurrentAssetsTotal()
    ensures IsChildTotal(Yearly(150_000_000, 140_000_000, 130_000_000, 120_000_000, 110_000_000), CurrentAssets)
  {
    var c := CurrentAssets;
    YearlyTotal4(c[0], c[1], c[2], c[3],
      50_000_000, 45_000_000, 40_000_000, 38_000_000, 35_000_000,
      35_000_000, 32_000_000, 30_000_000, 28_000_000, 25_000_000,
      25_000_000, 23_000_000, 22_000_000, 20_000_000, 18_000_000,
      40_000_000, 40_000_000, 38_000_000, 34_000_000, 32_000_000);
  }

  lemma TangiblesTotal()
    ensures IsChildTotal(Yearly(200_000_000, 190_000_000, 180_000_000, 170_000_000, 160_000_000), Tangibles)
  {
    var c := Tangibles;
    YearlyTotal3(c[0], c[1], c[2],
      80_000_000, 80_000_000, 80_000_000, 80_000_000, 80_000_000,
      70_000_000, 65_000_000, 60_000_000, 55_000_000, 50_000_000,
      50_000_000, 45_000_000, 40_000_000, 35_000_000, 30_000_000);
  }

  lemma IntangiblesTotal()
    ensures IsChildTotal(Yearly(60_000_000, 55_000_000, 50_000_000, 45_000_000, 40_000_000), Intangibles)
  {
    var c := Intangibles;
    YearlyTotal3(c[0], c[1], c[2],
      30_000_000, 28_000_000, 26_000_000, 24_000_000, 22_000_000,
      20_000_000, 18_000_000, 16_000_000, 14_000_000, 12_000_000,
      10_000_000, 9_000_000, 8_000_000, 7_000_000, 6_000_000);
  }

  lemma NonCurrentAssetsTotal()
    ensures IsChildTotal(Yearly(300_000_000, 280_000_000, 260_000_000, 240_000_000, 220_000_000), NonCurrentAssets)
  {
    var c := NonCurrentAssets;
    YearlyTotal3(c[0], c[1], c[2],
      200_000_000, 190_000_000, 180_000_000, 170_000_000, 160_000_000,
      60_000_000, 55_000_000, 50_000_000, 45_000_000, 40_000_000,
      40_000_000, 35_000_000, 30_000_000, 25_000_000, 20_000_000);
  }

  /**
   * In the sample statement every node with details carries, for every year,
   * the sum of its children, and a node has a details mapping exactly when
   * its flag says so.
   */
  lemma SampleTreeConsistent()
    ensures TotalsConsistent(SampleTree)
    ensures DetailsMatchFlag(SampleTree)
  {
    CurrentAssetsChildren();
    NonCurrentAssetsChildren();
    CurrentAssetsTotal();
    NonCurrentAssetsTotal();
    BranchConsistent(SampleTree[0]);
    BranchConsistent(SampleTree[1]);
  }

  lemma CurrentAssetsChildren()
    ensures forall i :: 0 <= i < |CurrentAssets| ==>
      NodeTotalsConsistent(CurrentAssets[i].node) && NodeDetailsMatchFlag(CurrentAssets[i].node)
  {
    LeavesConsistent(Receivables);
    LeavesConsistent(Inventories);
    LeavesConsistent(OtherCurrentAssets);
    ReceivablesTotal();
    InventoriesTotal();
    OtherCurrentAssetsTotal();
    BranchConsistent(CurrentAssets[1]);
    BranchConsistent(CurrentAssets[2]);
    BranchConsistent(CurrentAssets[3]);
    LeavesConsistent([CurrentAssets[0]]);
    assert [CurrentAssets[0]][0] == CurrentAssets[0];
  }

  lemma NonCurrentAssetsChildren()
    ensures forall i :: 0 <= i < |NonCurrentAssets| ==>
      NodeTotalsConsistent(NonCurrentAssets[i].node) && NodeDetailsMatchFlag(NonCurrentAssets[i].node)
  {
    LeavesConsistent(Tangibles);
    LeavesConsistent(Intangibles);
    TangiblesTotal();
    IntangiblesTotal();
    BranchConsistent(NonCurrentAssets[0]);
    BranchConsistent(NonCurrentAssets[1]);
    LeavesConsistent([NonCurrentAssets[2]]);
    assert [NonCurrentAssets[2]][0] == NonCurrentAssets[2];
  }
}

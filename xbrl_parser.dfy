/**
 * The XBRL side of the statement tree: the account-name and category tables,
 * the pure helpers that classify an element and read its account name and
 * year, the accumulation of element amounts into an account → year → amount
 * table, and the builder that arranges that table into the statement tree with
 * per-year subtotals and totals.
 */
module XbrlParser {
  import opened Common
  import opened FinancialTree

  // ---------------------------------------------------------------------
  // Tables
  // ---------------------------------------------------------------------

  /** One `korean: english` pair of the account-name mapping. */
  datatype Mapping = Mapping(korean: string, english: string)

  /** The account-name mapping, in its insertion order. */
  const AccountMapping: seq<Mapping> := [
    Mapping("선급금", "PrepaidExpenses"),
    Mapping("선급비용", "PrepaidExpenses"),
    Mapping("예치금", "DepositsMade"),
    Mapping("당좌자산", "QuickAssets"),
    Mapping("단기금융상품", "ShortTermInvestments"),
    Mapping("매출채권", "AccountsReceivable"),
    Mapping("재고자산", "Inventory"),
    Mapping("기타유동자산", "OtherCurrentAssets"),
    Mapping("유형자산", "PropertyPlantAndEquipment"),
    Mapping("토지", "Land"),
    Mapping("건물", "Buildings"),
    Mapping("기계장치", "MachineryAndEquipment"),
    Mapping("무형자산", "IntangibleAssets"),
    Mapping("영업권", "Goodwill"),
    Mapping("특허권", "Patents"),
    Mapping("상표권", "Trademarks"),
    Mapping("장기투자자산", "LongTermInvestments"),
    Mapping("기타비유동자산", "OtherNonCurrentAssets"),
    Mapping("매입채무", "AccountsPayable"),
    Mapping("단기차입금", "ShortTermDebt"),
    Mapping("미지급금", "AccruedExpenses"),
    Mapping("선수금", "AdvancePayments"),
    Mapping("기타유동부채", "OtherCurrentLiabilities"),
    Mapping("장기차입금", "LongTermDebt"),
    Mapping("사채", "Bonds"),
    Mapping("퇴직급여부채", "RetirementBenefitLiabilities"),
    Mapping("기타비유동부채", "OtherNonCurrentLiabilities"),
    Mapping("자본금", "ShareCapital"),
    Mapping("주식발행초과금", "SharePremium"),
    Mapping("이익잉여금", "RetainedEarnings"),
    Mapping("기타자본구성요소", "OtherEquityComponents")
  ]

  /** A sub-category and the ordered list of detail accounts summed into it. */
  datatype SubCategory = SubCategory(name: string, items: seq<string>)

  /** A main category and its sub-categories, in order. */
  datatype Category = Category(name: string, subs: seq<SubCategory>)

  /** The category table: five main categories, their sub-categories and detail accounts. */
  const AccountHierarchy: seq<Category> := [
    Category("유동자산", [
      SubCategory("현금및현금성자산", []),
      SubCategory("단기금융상품", []),
      SubCategory("매출채권", ["매출채권", "미수금", "대손충당금"]),
      SubCategory("재고자산", ["제품", "상품", "원재료", "재공품"]),
      SubCategory("선급금", ["선급비용", "선급금"]),
      SubCategory("기타유동자산", ["단기대여금", "미수수익", "부가세대급금"])
    ]),
    Category("비유동자산", [
      SubCategory("유형자산", ["토지", "건물", "기계장치", "차량운반구", "감가상각누계액"]),
      SubCategory("무형자산", ["영업권", "특허권", "상표권", "소프트웨어"]),
      SubCategory("투자자산", ["장기금융상품", "관계기업투자", "기타투자자산"]),
      SubCategory("기타비유동자산", ["장기대여금", "보증금", "기타"])
    ]),
    Category("유동부채", [
      SubCategory("매입채무", ["매입채무", "미지급금"]),
      SubCategory("단기차입금", ["단기차입금", "유동성장기부채"]),
      SubCategory("기타유동부채", ["선수금", "예수금", "미지급비용", "충당부채"])
    ]),
    Category("비유동부채", [
      SubCategory("장기차입금", ["장기차입금", "사채"]),
      SubCategory("기타비유동부채", ["퇴직급여부채", "장기성충당부채", "기타장기부채"])
    ]),
    Category("자본", [
      SubCategory("자본금", ["보통주자본금", "우선주자본금"]),
      SubCategory("자본잉여금", ["주식발행초과금", "기타자본잉여금"]),
      SubCategory("이익잉여금", ["이익준비금", "미처분이익잉여금"]),
      SubCategory("기타자본구성요소", ["자기주식", "기타포괄손익누계액"])
    ])
  ]

  /** Tag fragments that mark an element as a financial amount. */
  const FinancialTags: seq<string> :=
    ["Assets", "Liabilities", "Equity", "Revenue", "Expenses", "Cash", "Receivables", "Inventory", "Debt", "Capital"]

  // ---------------------------------------------------------------------
  // Element helpers
  // ---------------------------------------------------------------------

  /** The local part of a tag: everything after its last '}', or the whole tag when it has none. */
  function LocalTag(tag: string): (r: string)
    ensures '}' !in r
    ensures |r| <= |tag| && tag[|tag| - |r|..] == r
    ensures |r| < |tag| ==> tag[|tag| - |r| - 1] == '}'
  {
    if tag == [] then []
    else if tag[|tag| - 1] == '}' then []
    else LocalTag(tag[..|tag| - 1]) + [tag[|tag| - 1]]
  }

  /** Some needle occurs in `s`. */
  function AnyOccurs(needles: seq<string>, s: string): (r: bool)
    ensures r <==> exists i :: 0 <= i < |needles| && IsSubstring(needles[i], s)
  {
    if needles == [] then false else IsSubstring(needles[0], s) || AnyOccurs(needles[1..], s)
  }

  /** _is_financial_element: a case-sensitive search for a financial tag fragment in the local tag. */
  function IsFinancialElement(tag: string): bool
  {
    AnyOccurs(FinancialTags, LocalTag(tag))
  }

  predicate MatchesAt(m: seq<Mapping>, i: nat, lowered: string)
    requires i < |m|
  {
    IsSubstring(Lower(m[i].english), lowered)
  }

  /** The first mapping index, from `from` on, whose lowered English name occurs in `lowered`. */
  function FirstMatchFrom(m: seq<Mapping>, lowered: string, from: nat): (r: Option<nat>)
    requires from <= |m|
    ensures r.Some? ==> from <= r.value < |m| && MatchesAt(m, r.value, lowered)
    ensures r.Some? ==> forall j :: from <= j < r.value ==> !MatchesAt(m, j, lowered)
    ensures r.None? ==> forall j :: from <= j < |m| ==> !MatchesAt(m, j, lowered)
    decreases |m| - from
  {
    if from == |m| then None
    else if MatchesAt(m, from, lowered) then Some(from)
    else FirstMatchFrom(m, lowered, from + 1)
  }

  /**
   * _extract_account_name over a mapping table: the Korean name of the first
   * entry whose lowered English name occurs in the lowered local tag, else the local tag.
   */
  function ExtractAccountName(m: seq<Mapping>, tag: string): string
  {
    var local := LocalTag(tag);
    match FirstMatchFrom(m, Lower(local), 0)
    case Some(i) => m[i].korean
    case None => local
  }

  /** The entry that decides the name is the first one that matches. */
  lemma FirstMatchDecides(m: seq<Mapping>, tag: string, i: nat)
    requires i < |m| && MatchesAt(m, i, Lower(LocalTag(tag)))
    requires forall j :: 0 <= j < i ==> !MatchesAt(m, j, Lower(LocalTag(tag)))
    ensures ExtractAccountName(m, tag) == m[i].korean
  {
    var r := FirstMatchFrom(m, Lower(LocalTag(tag)), 0);
    assert r.Some?;
  }

  /**
   * Of two entries with the same English name, the later one's Korean name is
   * the result only when the local tag itself is that name.
   */
  lemma ShadowedEntry(m: seq<Mapping>, tag: string, first: nat, later: nat)
    requires first < later < |m| && m[first].english == m[later].english
    requires forall k :: 0 <= k < |m| && k != later ==> m[k].korean != m[later].korean
    ensures ExtractAccountName(m, tag) == m[later].korean ==> LocalTag(tag) == m[later].korean
  {
    var lowered := Lower(LocalTag(tag));
    var r := FirstMatchFrom(m, lowered, 0);
    if r.Some? && r.value == later {
      assert MatchesAt(m, later, lowered);
      assert MatchesAt(m, first, lowered);
      assert false;
    }
  }

  lemma AccountMappingPrepaid()
    ensures |AccountMapping| == 31
    ensures AccountMapping[0] == Mapping("선급금", "PrepaidExpenses")
    ensures AccountMapping[1] == Mapping("선급비용", "PrepaidExpenses")
    ensures forall k :: 0 <= k < |AccountMapping| && k != 1 ==> AccountMapping[k].korean != "선급비용"
  {
  }

  /** Any tag whose lowered local part contains PrepaidExpenses, lowered, reads as 선급금, the first of the two names mapped to it. */
  lemma PrepaidExpensesName(tag: string)
    requires IsSubstring(Lower("PrepaidExpenses"), Lower(LocalTag(tag)))
    ensures ExtractAccountName(AccountMapping, tag) == "선급금"
  {
    AccountMappingPrepaid();
    FirstMatchDecides(AccountMapping, tag, 0);
  }

  /** The second name mapped to PrepaidExpenses is only ever the result when it is the tag itself. */
  lemma PrepaidCostNameOnlyLiteral(tag: string)
    ensures ExtractAccountName(AccountMapping, tag) == "선급비용" ==> LocalTag(tag) == "선급비용"
  {
    AccountMappingPrepaid();
    ShadowedEntry(AccountMapping, tag, 0, 1);
  }

  lemma PrepaidExpensesTagExample()
    ensures ExtractAccountName(AccountMapping, "{http://dart.fss.or.kr}PrepaidExpenses") == "선급금"
  {
    var tag := "{http://dart.fss.or.kr}PrepaidExpenses";
    PrepaidExpensesLocalTag();
    SubstringOfSelf(Lower("PrepaidExpenses"));
    PrepaidExpensesName(tag);
  }

  lemma PrepaidExpensesLocalTag()
    ensures LocalTag("{http://dart.fss.or.kr}PrepaidExpenses") == "PrepaidExpenses"
  {
    var ns := "{http://dart.fss.or.kr";
    var local := "PrepaidExpenses";
    assert "{http://dart.fss.or.kr}PrepaidExpenses" == ns + ['}'] + local;
    assert '}' !in local;
    LocalTagQualified(ns, local);
  }

  /** The local tag of `{namespace}name` is `name`. */
  lemma {:induction false} LocalTagQualified(ns: string, local: string)
    requires '}' !in local
    ensures LocalTag(ns + ['}'] + local) == local
    decreases |local|
  {
    var t := ns + ['}'] + local;
    if local != [] {
      var init := local[..|local| - 1];
      assert t[..|t| - 1] == ns + ['}'] + init;
      assert local[|local| - 1] in local;
      LocalTagQualified(ns, init);
      assert local == init + [local[|local| - 1]];
    }
  }

  /** Four ASCII digits start at index `i`. */
  predicate YearAt(s: string, i: nat)
  {
    i + 4 <= |s| && AllDigits(s[i..i + 4])
  }

  /** The leftmost index, from `from` on, at which four digits start. */
  function FirstYearFrom(s: string, from: nat): (r: Option<nat>)
    ensures r.Some? ==> from <= r.value && YearAt(s, r.value)
    ensures r.Some? ==> forall j :: from <= j < r.value ==> !YearAt(s, j)
    ensures r.None? ==> forall j :: from <= j ==> !YearAt(s, j)
    decreases |s| - from
  {
    if from + 4 > |s| then None
    else if AllDigits(s[from..from + 4]) then Some(from)
    else FirstYearFrom(s, from + 1)
  }

  /** _extract_context: the first run of four digits in the context reference, or "unknown". */
  function ExtractContext(contextRef: string): (r: string)
    ensures r == "unknown" <==> forall i :: !YearAt(contextRef, i)
    ensures r != "unknown" ==> |r| == 4 && AllDigits(r)
  {
    match FirstYearFrom(contextRef, 0)
    case Some(i) => contextRef[i..i + 4]
    case None => assert !AllDigits("unknown") by { assert !IsDigit("unknown"[0]); } "unknown"
  }

  /** When four digits start at `i` and nowhere earlier, the year is those four digits. */
  lemma ExtractContextFirst(contextRef: string, i: nat)
    requires YearAt(contextRef, i)
    requires forall j :: 0 <= j < i ==> !YearAt(contextRef, j)
    ensures ExtractContext(contextRef) == contextRef[i..i + 4]
  {
  }

  lemma ExtractContextExample()
    ensures ExtractContext("2023_12_31") == "2023"
    ensures ExtractContext("CFY2022dFY") == "2022"
    ensures ExtractContext("") == "unknown"
  {
    ExtractContextFirst("2023_12_31", 0);
    var s := "CFY2022dFY";
    assert !YearAt(s, 0) by { assert s[0..4][0] == 'C'; }
    assert !YearAt(s, 1) by { assert s[1..5][0] == 'F'; }
    assert !YearAt(s, 2) by { assert s[2..6][0] == 'Y'; }
    assert s[3..7] == "2022";
    ExtractContextFirst(s, 3);
    assert forall i :: !YearAt("", i);
  }

  // ---------------------------------------------------------------------
  // Accumulating element amounts
  // ---------------------------------------------------------------------

  /** A parsed XML element: its tag, its amount if the text reads as a number, and its contextRef (default ""). */
  datatype Element = Element(tag: string, amount: Option<int>, contextRef: string)

  /** Account name → year → amount. */
  type FinancialData = map<string, Amounts>

  /** The element is recorded: it is financial, its account name is non-empty and it has an amount. */
  predicate Recorded(m: seq<Mapping>, e: Element)
  {
    IsFinancialElement(e.tag) && ExtractAccountName(m, e.tag) != "" && e.amount.Some?
  }

  /** One step of the accumulation loop: the element's amount overwrites the entry for its account and year. */
  function Record(m: seq<Mapping>, data: FinancialData, e: Element): FinancialData
  {
    if Recorded(m, e) then
      var name := ExtractAccountName(m, e.tag);
      var row := if name in data then data[name] else map[];
      data[name := row[ExtractContext(e.contextRef) := e.amount.value]]
    else data
  }

  /** The table after the accumulation loop has seen every element in document order. */
  function CollectData(m: seq<Mapping>, elems: seq<Element>): FinancialData
  {
    if elems == [] then map[] else Record(m, CollectData(m, elems[..|elems| - 1]), elems[|elems| - 1])
  }

  /** The amount of the last recorded element for the account and year, searching back from the end. */
  function LastAmount(m: seq<Mapping>, elems: seq<Element>, name: string, year: string): Option<int>
  {
    if elems == [] then None
    else
      var e := elems[|elems| - 1];
      if Recorded(m, e) && ExtractAccountName(m, e.tag) == name && ExtractContext(e.contextRef) == year
      then e.amount
      else LastAmount(m, elems[..|elems| - 1], name, year)
  }

  /** Account names that some recorded element carries. */
  function RecordedNames(m: seq<Mapping>, elems: seq<Element>): set<string>
  {
    if elems == [] then {}
    else
      var e := elems[|elems| - 1];
      RecordedNames(m, elems[..|elems| - 1]) + (if Recorded(m, e) then {ExtractAccountName(m, e.tag)} else {})
  }

  /**
   * The table has an entry for an account and year exactly when some recorded
   * element carries them, and the entry is the amount of the last such element.
   */
  lemma {:induction false} CollectDataLookup(m: seq<Mapping>, elems: seq<Element>, name: string, year: string)
    ensures var d := CollectData(m, elems);
      && (name in d <==> name in RecordedNames(m, elems))
      && (name in d && year in d[name] <==> LastAmount(m, elems, name, year).Some?)
      && (name in d && year in d[name] ==> d[name][year] == LastAmount(m, elems, name, year).value)
    decreases |elems|
  {
    if elems != [] {
      CollectDataLookup(m, elems[..|elems| - 1], name, year);
    }
  }

  /** Every account in the table has at least one year. */
  lemma {:induction false} CollectDataRowsNonEmpty(m: seq<Mapping>, elems: seq<Element>)
    ensures forall name :: name in CollectData(m, elems) ==> |CollectData(m, elems)[name]| > 0
    decreases |elems|
  {
    if elems != [] {
      CollectDataRowsNonEmpty(m, elems[..|elems| - 1]);
    }
  }

  /** The accumulation loop of parse_xbrl_content. */
  method CollectFinancialData(m: seq<Mapping>, elems: seq<Element>) returns (data: FinancialData)
    ensures data == CollectData(m, elems)
  {
    data := map[];
    var i := 0;
    while i < |elems|
      invariant 0 <= i <= |elems|
      invariant data == CollectData(m, elems[..i])
    {
      data := RecordElement(m, data, elems[i]);
      CollectDataPrefix(m, elems, i);
      i := i + 1;
    }
    assert elems[..i] == elems;
  }

  /** The body of the accumulation loop for one element. */
  method RecordElement(m: seq<Mapping>, data: FinancialData, e: Element) returns (r: FinancialData)
    ensures r == Record(m, data, e)
  {
    r := data;
    if IsFinancialElement(e.tag) {
      var name := ExtractAccountName(m, e.tag);
      var context := ExtractContext(e.contextRef);
      if name != "" && e.amount.Some? {
        if name !in r {
          r := r[name := map[]];
        }
        r := r[name := r[name][context := e.amount.value]];
      }
    }
    RecordStep(m, data, e, r);
  }

  /** The loop body's updates are one step of the accumulation. */
  lemma RecordStep(m: seq<Mapping>, before: FinancialData, e: Element, after: FinancialData)
    requires Recorded(m, e) ==>
      var name := ExtractAccountName(m, e.tag);
      after == (if name in before then before else before[name := map[]])[name :=
        (if name in before then before else before[name := map[]])[name][ExtractContext(e.contextRef) := e.amount.value]]
    requires !Recorded(m, e) ==> after == before
    ensures after == Record(m, before, e)
  {
    if Recorded(m, e) {
      PutAmount(before, ExtractAccountName(m, e.tag), ExtractContext(e.contextRef), e.amount.value, after);
    }
  }

  /** Creating a missing row and then writing into it is writing into the row, or into an empty one. */
  lemma PutAmount(before: FinancialData, name: string, year: string, v: int, after: FinancialData)
    requires var mid := if name in before then before else before[name := map[]];
             after == mid[name := mid[name][year := v]]
    ensures after == before[name := (if name in before then before[name] else map[])[year := v]]
  {
  }

  lemma CollectDataPrefix(m: seq<Mapping>, elems: seq<Element>, i: nat)
    requires i < |elems|
    ensures CollectData(m, elems[..i + 1]) == Record(m, CollectData(m, elems[..i]), elems[i])
  {
    assert elems[..i + 1][..i] == elems[..i];
  }

  // ---------------------------------------------------------------------
  // Building the hierarchy
  // ---------------------------------------------------------------------

  /** Adding one amount map into a running total year by year, a missing year starting from 0. */
  function AddAmounts(total: Amounts, add: Amounts): Amounts
  {
    map y | y in total.Keys + add.Keys :: AmountOf(total, y) + AmountOf(add, y)
  }

  /** The detail entries of a sub-category: each listed account present in the data, as a leaf, by dict assignment. */
  function LeafEntries(items: seq<string>, data: FinancialData): seq<Entry>
  {
    if items == [] then []
    else
      var prev := LeafEntries(items[..|items| - 1], data);
      var item := items[|items| - 1];
      if item in data then Put(prev, item, Node(data[item], false, Absent)) else prev
  }

  /** The running sub_total over the listed accounts present in the data. */
  function LeafTotal(items: seq<string>, data: FinancialData): Amounts
  {
    if items == [] then map[]
    else
      var prev := LeafTotal(items[..|items| - 1], data);
      var item := items[|items| - 1];
      if item in data then AddAmounts(prev, data[item]) else prev
  }

  /**
   * A sub-category node: with a non-empty detail list, its present details and
   * their total, flagged as having details; with an empty list, the data's own
   * row for it (or nothing), an empty details mapping, and no details flag.
   */
  function SubNode(sub: SubCategory, data: FinancialData): Node
  {
    if |sub.items| > 0 then Node(LeafTotal(sub.items, data), true, Present(LeafEntries(sub.items, data)))
    else Node(if sub.name in data then data[sub.name] else map[], false, Present([]))
  }

  function SubEntries(subs: seq<SubCategory>, data: FinancialData): (r: seq<Entry>)
    ensures |r| == |subs|
  {
    seq(|subs|, i requires 0 <= i < |subs| => Entry(subs[i].name, SubNode(subs[i], data)))
  }

  /** The running category_total over the sub-category nodes. */
  function CategoryTotal(subs: seq<SubCategory>, data: FinancialData): Amounts
  {
    if subs == [] then map[]
    else AddAmounts(CategoryTotal(subs[..|subs| - 1], data), SubNode(subs[|subs| - 1], data).amount)
  }

  function CategoryNode(cat: Category, data: FinancialData): Node
  {
    Node(CategoryTotal(cat.subs, data), true, Present(SubEntries(cat.subs, data)))
  }

  /** _build_hierarchy: one main node per category of the table, in table order. */
  function Hierarchy(table: seq<Category>, data: FinancialData): (t: Tree)
    ensures |t| == |table|
  {
    seq(|table|, i requires 0 <= i < |table| => Entry(table[i].name, CategoryNode(table[i], data)))
  }

  // ----- properties of the built tree --------------------------------------

  function CategoryNames(table: seq<Category>): (r: seq<string>)
    ensures |r| == |table|
  {
    seq(|table|, i requires 0 <= i < |table| => table[i].name)
  }

  /** The built tree has exactly the table's main categories, in order, all flagged as having details. */
  lemma HierarchyCategories(table: seq<Category>, data: FinancialData)
    ensures Labels(Hierarchy(table, data)) == CategoryNames(table)
    ensures forall i :: 0 <= i < |table| ==> Hierarchy(table, data)[i].node.hasDetails
  {
  }

  lemma AccountHierarchyNames()
    ensures CategoryNames(AccountHierarchy) == ["유동자산", "비유동자산", "유동부채", "비유동부채", "자본"]
  {
  }

  /** Whatever the data, the built tree's top level is the five main categories. */
  lemma BuiltTopLevel(data: FinancialData)
    ensures Labels(Hierarchy(AccountHierarchy, data)) == ["유동자산", "비유동자산", "유동부채", "비유동부채", "자본"]
  {
    HierarchyCategories(AccountHierarchy, data);
    AccountHierarchyNames();
  }

  /** A sub-category is flagged as having details exactly when its detail list is non-empty. */
  lemma SubNodeFlag(sub: SubCategory, data: FinancialData)
    ensures SubNode(sub, data).hasDetails <==> |sub.items| > 0
    ensures SubNode(sub, data).details.Present?
    ensures |sub.items| == 0 ==> SubNode(sub, data).details.entries == []
    ensures |sub.items| == 0 && sub.name in data ==> SubNode(sub, data).amount == data[sub.name]
    ensures |sub.items| == 0 && sub.name !in data ==> SubNode(sub, data).amount == map[]
  {
  }

  /**
   * A detail account appears under its sub-category exactly when it is listed
   * and present in the data, as a leaf carrying the data's row unchanged.
   */
  lemma {:induction false} LeafEntriesFind(items: seq<string>, data: FinancialData, name: string)
    ensures Find(LeafEntries(items, data), name)
         == if name in items && name in data then Some(Node(data[name], false, Absent)) else None
    decreases |items|
  {
    if items != [] {
      var init := items[..|items| - 1];
      var item := items[|items| - 1];
      LeafEntriesFind(init, data, name);
      assert items == init + [item];
      assert name in items <==> name in init || name == item;
      if item in data {
        FindPut(LeafEntries(init, data), item, Node(data[item], false, Absent), name);
      }
    }
  }

  lemma {:induction false} LeafEntriesLabels(items: seq<string>, data: FinancialData)
    ensures forall k :: k in Labels(LeafEntries(items, data)) ==> k in items && k in data
    decreases |items|
  {
    if items != [] {
      var init := items[..|items| - 1];
      var item := items[|items| - 1];
      LeafEntriesLabels(init, data);
      assert items == init + [item];
      if item in data {
        LabelsPut(LeafEntries(init, data), item, Node(data[item], false, Absent));
      }
    }
  }

  predicate NoDuplicates(s: seq<string>)
  {
    forall i, j :: 0 <= i < j < |s| ==> s[i] != s[j]
  }

  /** Adding one more child's amounts into a child total gives the total over the longer list. */
  lemma AddChildTotal(total: Amounts, children: seq<Entry>, e: Entry)
    requires IsChildTotal(total, children)
    ensures IsChildTotal(AddAmounts(total, e.node.amount), children + [e])
  {
    ChildSnoc(children, e);
    var r := AddAmounts(total, e.node.amount);
    assert r.Keys == total.Keys + e.node.amount.Keys;
    forall y | y in r ensures r[y] == ChildSum(children + [e], y) {
      if y !in total {
        ChildSumOutside(children, y);
      }
    }
  }

  /** A year on which no child has an amount sums to 0. */
  lemma {:induction false} ChildSumOutside(children: seq<Entry>, y: string)
    requires y !in ChildYears(children)
    ensures ChildSum(children, y) == 0
    decreases |children|
  {
    if children != [] {
      ChildSumOutside(children[..|children| - 1], y);
    }
  }

  /** Over distinct detail accounts, the sub-category total is, year by year, the total of its leaves. */
  lemma {:induction false} LeafTotalIsChildTotal(items: seq<string>, data: FinancialData)
    requires NoDuplicates(items)
    ensures IsChildTotal(LeafTotal(items, data), LeafEntries(items, data))
    decreases |items|
  {
    if items != [] {
      var init := items[..|items| - 1];
      var item := items[|items| - 1];
      assert NoDuplicates(init);
      LeafTotalIsChildTotal(init, data);
      if item in data {
        var prev := LeafEntries(init, data);
        var leaf := Entry(item, Node(data[item], false, Absent));
        LeafEntriesLabels(init, data);
        assert item !in init;
        assert item !in Labels(prev);
        PutAbsent(prev, item, leaf.node);
        AddChildTotal(LeafTotal(init, data), prev, leaf);
      }
    }
  }

  /** The category total is, year by year, the total of its sub-category nodes. */
  lemma {:induction false} CategoryTotalIsChildTotal(subs: seq<SubCategory>, data: FinancialData)
    ensures IsChildTotal(CategoryTotal(subs, data), SubEntries(subs, data))
    decreases |subs|
  {
    if subs != [] {
      var init := subs[..|subs| - 1];
      var last := subs[|subs| - 1];
      CategoryTotalIsChildTotal(init, data);
      assert SubEntries(subs, data) == SubEntries(init, data) + [Entry(last.name, SubNode(last, data))];
      AddChildTotal(CategoryTotal(init, data), SubEntries(init, data), Entry(last.name, SubNode(last, data)));
    }
  }

  /** Every detail list of the table is free of repeats. */
  predicate ItemsDistinct(table: seq<Category>)
  {
    forall i, j :: 0 <= i < |table| && 0 <= j < |table[i].subs| ==> NoDuplicates(table[i].subs[j].items)
  }

  /** Every detail entry is a leaf holding the data's row for its account. */
  lemma {:induction false} LeafEntriesAreLeaves(items: seq<string>, data: FinancialData)
    ensures forall e :: e in LeafEntries(items, data) ==> e.name in data && e.node == Node(data[e.name], false, Absent)
    decreases |items|
  {
    if items != [] {
      var init := items[..|items| - 1];
      var item := items[|items| - 1];
      LeafEntriesAreLeaves(init, data);
      if item in data {
        PutEntries(LeafEntries(init, data), item, Node(data[item], false, Absent));
      }
    }
  }

  /**
   * Over a table whose detail lists have no repeats, every node of the built
   * tree that has details carries the per-year totals of its children.
   */
  lemma HierarchyTotalsConsistent(table: seq<Category>, data: FinancialData)
    requires ItemsDistinct(table)
    ensures TotalsConsistent(Hierarchy(table, data))
  {
    var t := Hierarchy(table, data);
    forall i | 0 <= i < |t| ensures NodeTotalsConsistent(t[i].node) {
      var cat := table[i];
      var subs := SubEntries(cat.subs, data);
      CategoryTotalIsChildTotal(cat.subs, data);
      forall j | 0 <= j < |subs| ensures NodeTotalsConsistent(subs[j].node) {
        var sub := cat.subs[j];
        if |sub.items| > 0 {
          LeafTotalIsChildTotal(sub.items, data);
          LeafEntriesAreLeaves(sub.items, data);
          var leaves := LeafEntries(sub.items, data);
          assert forall k :: 0 <= k < |leaves| ==> leaves[k] in leaves;
        }
      }
    }
  }

  lemma AccountHierarchyItemsDistinct()
    ensures ItemsDistinct(AccountHierarchy)
  {
    forall i | 0 <= i < |AccountHierarchy| ensures SubsDistinct(AccountHierarchy[i]) {
      CategoryItemsDistinct(i);
    }
  }

  predicate SubsDistinct(c: Category)
  {
    forall j :: 0 <= j < |c.subs| ==> NoDuplicates(c.subs[j].items)
  }

  /** The detail accounts of one category's sub-categories are listed without repeats. */
  lemma CategoryItemsDistinct(i: nat)
    requires i < |AccountHierarchy|
    ensures SubsDistinct(AccountHierarchy[i])
  {
    var c := AccountHierarchy[i];
    forall j | 0 <= j < |c.subs| ensures NoDuplicates(c.subs[j].items) {
    }
  }

  /** The built tree from the category table always satisfies the totals invariant. */
  lemma BuiltTotalsConsistent(data: FinancialData)
    ensures TotalsConsistent(Hierarchy(AccountHierarchy, data))
  {
    AccountHierarchyItemsDistinct();
    HierarchyTotalsConsistent(AccountHierarchy, data);
  }

  /**
   * The built tree does not keep "details present iff has_details": a
   * sub-category with an empty detail list carries an empty details mapping
   * while its flag is false.
   */
  lemma BuiltDetailsFlagMismatch(data: FinancialData)
    ensures !DetailsMatchFlag(Hierarchy(AccountHierarchy, data))
  {
    var t := Hierarchy(AccountHierarchy, data);
    var cash := t[0].node.details.entries[0].node;
    assert cash == SubNode(SubCategory("현금및현금성자산", []), data);
    assert cash.details.Present? && !cash.hasDetails;
    assert !NodeDetailsMatchFlag(t[0].node);
  }

  // ----- the builder as evidently intended ----------------------------------

  /**
   * The sub-category node the details flag calls for: the same amounts and
   * flag as `SubNode`, but an empty detail list gives no details mapping.
   */
  function SubNodeIntended(sub: SubCategory, data: FinancialData): (n: Node)
    ensures n.amount == SubNode(sub, data).amount && n.hasDetails == SubNode(sub, data).hasDetails
    ensures n.details.Present? <==> n.hasDetails
  {
    if |sub.items| > 0 then SubNode(sub, data)
    else Node(if sub.name in data then data[sub.name] else map[], false, Absent)
  }

  function SubEntriesIntended(subs: seq<SubCategory>, data: FinancialData): (r: seq<Entry>)
    ensures |r| == |subs|
    ensures forall i :: 0 <= i < |subs| ==> r[i].name == subs[i].name && r[i].node.amount == SubNode(subs[i], data).amount
  {
    seq(|subs|, i requires 0 <= i < |subs| => Entry(subs[i].name, SubNodeIntended(subs[i], data)))
  }

  function CategoryNodeIntended(cat: Category, data: FinancialData): Node
  {
    Node(CategoryTotal(cat.subs, data), true, Present(SubEntriesIntended(cat.subs, data)))
  }

  /** The tree `_build_hierarchy` is evidently meant to build. */
  function HierarchyIntended(table: seq<Category>, data: FinancialData): (t: Tree)
    ensures |t| == |table|
    ensures forall i :: 0 <= i < |table| ==> t[i].name == table[i].name && t[i].node.amount == Hierarchy(table, data)[i].node.amount
  {
    seq(|table|, i requires 0 <= i < |table| => Entry(table[i].name, CategoryNodeIntended(table[i], data)))
  }

  /** Children with the same amounts, one by one, have the same years and sums. */
  lemma {:induction false} SameAmountsSameSums(a: seq<Entry>, b: seq<Entry>)
    requires |a| == |b| && forall i :: 0 <= i < |a| ==> a[i].node.amount == b[i].node.amount
    ensures ChildYears(a) == ChildYears(b)
    ensures forall y :: ChildSum(a, y) == ChildSum(b, y)
    decreases |a|
  {
    if a != [] {
      SameAmountsSameSums(a[..|a| - 1], b[..|b| - 1]);
    }
  }

  /** Every node of the intended tree carries a details mapping exactly when it is flagged. */
  lemma IntendedDetailsMatchFlag(table: seq<Category>, data: FinancialData)
    ensures DetailsMatchFlag(HierarchyIntended(table, data))
  {
    var t := HierarchyIntended(table, data);
    forall i | 0 <= i < |t| ensures NodeDetailsMatchFlag(t[i].node) {
      var subs := SubEntriesIntended(table[i].subs, data);
      forall j | 0 <= j < |subs| ensures NodeDetailsMatchFlag(subs[j].node) {
        var sub := table[i].subs[j];
        if |sub.items| > 0 {
          LeafEntriesAreLeaves(sub.items, data);
          var leaves := LeafEntries(sub.items, data);
          assert forall k :: 0 <= k < |leaves| ==> leaves[k] in leaves;
        }
      }
    }
  }

  /** Over a table without repeated detail accounts the intended tree keeps the totals invariant too. */
  lemma IntendedTotalsConsistent(table: seq<Category>, data: FinancialData)
    requires ItemsDistinct(table)
    ensures TotalsConsistent(HierarchyIntended(table, data))
  {
    var t := HierarchyIntended(table, data);
    forall i | 0 <= i < |t| ensures NodeTotalsConsistent(t[i].node) {
      var cat := table[i];
      var subs := SubEntriesIntended(cat.subs, data);
      CategoryTotalIsChildTotal(cat.subs, data);
      SameAmountsSameSums(SubEntries(cat.subs, data), subs);
      forall j | 0 <= j < |subs| ensures NodeTotalsConsistent(subs[j].node) {
        var sub := cat.subs[j];
        if |sub.items| > 0 {
          LeafTotalIsChildTotal(sub.items, data);
          LeafEntriesAreLeaves(sub.items, data);
          var leaves := LeafEntries(sub.items, data);
          assert forall k :: 0 <= k < |leaves| ==> leaves[k] in leaves;
        }
      }
    }
  }

  /** For all data, the intended tree of the category table keeps both invariants. */
  lemma BuiltIntendedInvariants(data: FinancialData)
    ensures DetailsMatchFlag(HierarchyIntended(AccountHierarchy, data))
    ensures TotalsConsistent(HierarchyIntended(AccountHierarchy, data))
  {
    IntendedDetailsMatchFlag(AccountHierarchy, data);
    AccountHierarchyItemsDistinct();
    IntendedTotalsConsistent(AccountHierarchy, data);
  }

  // ----- the builder as the source writes it ------------------------------

  /** The years of `add` that are in `years`. */
  function Only(add: Amounts, years: set<string>): Amounts
  {
    map y | y in add && y in years :: add[y]
  }

  /** Adding one more pending year of `add` is one update of the running total. */
  lemma AddOneYear(total: Amounts, add: Amounts, pending: set<string>, y: string)
    requires pending <= add.Keys && y in pending
    ensures var r := AddAmounts(total, Only(add, add.Keys - pending));
      AddAmounts(total, Only(add, add.Keys - (pending - {y}))) == r[y := AmountOf(r, y) + add[y]]
  {
    assert add.Keys - (pending - {y}) == (add.Keys - pending) + {y};
  }

  lemma AddNothing(total: Amounts, add: Amounts)
    ensures AddAmounts(total, Only(add, add.Keys - add.Keys)) == total
  {
    assert add.Keys - add.Keys == {};
  }

  lemma OnlyAll(add: Amounts)
    ensures Only(add, add.Keys) == add
  {
  }

  /** Adds each year of `add` into the running total, one year at a time. */
  method AddInto(total: Amounts, add: Amounts) returns (r: Amounts)
    ensures r == AddAmounts(total, add)
  {
    r := total;
    var pending := add.Keys;
    AddNothing(total, add);
    while pending != {}
      invariant pending <= add.Keys
      invariant r == AddAmounts(total, Only(add, add.Keys - pending))
      decreases |pending|
    {
      var y :| y in pending;
      AddOneYear(total, add, pending, y);
      var v := AmountOf(r, y) + add[y];
      r := r[y := v];
      pending := pending - {y};
    }
    assert add.Keys - pending == add.Keys;
    OnlyAll(add);
  }

  /** One sub-category's node: its leaves and sub_total, or the data's own row. */
  method BuildSubNode(sub: SubCategory, data: FinancialData) returns (node: Node)
    ensures node == SubNode(sub, data)
  {
    if |sub.items| > 0 {
      var leaves: seq<Entry> := [];
      var subTotal: Amounts := map[];
      var k := 0;
      while k < |sub.items|
        invariant 0 <= k <= |sub.items|
        invariant leaves == LeafEntries(sub.items[..k], data)
        invariant subTotal == LeafTotal(sub.items[..k], data)
      {
        var item := sub.items[k];
        assert sub.items[..k + 1][..k] == sub.items[..k];
        if item in data {
          leaves := Put(leaves, item, Node(data[item], false, Absent));
          subTotal := AddInto(subTotal, data[item]);
        }
        k := k + 1;
      }
      assert sub.items[..k] == sub.items;
      node := Node(subTotal, true, Present(leaves));
    } else {
      var amount: Amounts := map[];
      if sub.name in data {
        amount := data[sub.name];
      }
      node := Node(amount, false, Present([]));
    }
  }

  /** _build_hierarchy: the loop over the categories of the table. */
  method BuildHierarchy(table: seq<Category>, data: FinancialData) returns (result: Tree)
    ensures result == Hierarchy(table, data)
  {
    result := [];
    var i := 0;
    while i < |table|
      invariant 0 <= i <= |table|
      invariant result == Hierarchy(table[..i], data)
    {
      var node := BuildCategoryNode(table[i], data);
      HierarchySnoc(table, i, data);
      result := result + [Entry(table[i].name, node)];
      i := i + 1;
    }
    assert table[..i] == table;
  }

  /** The inner loop of _build_hierarchy: one category's sub-category nodes and their running total. */
  method BuildCategoryNode(cat: Category, data: FinancialData) returns (node: Node)
    ensures node == CategoryNode(cat, data)
  {
    var details: seq<Entry> := [];
    var categoryTotal: Amounts := map[];
    var j := 0;
    while j < |cat.subs|
      invariant 0 <= j <= |cat.subs|
      invariant details == SubEntries(cat.subs[..j], data)
      invariant categoryTotal == CategoryTotal(cat.subs[..j], data)
    {
      var sub := cat.subs[j];
      var subNode := BuildSubNode(sub, data);
      SubEntriesSnoc(cat.subs, j, data);
      details := details + [Entry(sub.name, subNode)];
      categoryTotal := AddInto(categoryTotal, subNode.amount);
      j := j + 1;
    }
    assert cat.subs[..j] == cat.subs;
    node := Node(categoryTotal, true, Present(details));
  }

  lemma HierarchySnoc(table: seq<Category>, i: nat, data: FinancialData)
    requires i < |table|
    ensures Hierarchy(table[..i + 1], data) == Hierarchy(table[..i], data) + [Entry(table[i].name, CategoryNode(table[i], data))]
  {
  }

  lemma SubEntriesSnoc(subs: seq<SubCategory>, j: nat, data: FinancialData)
    requires j < |subs|
    ensures SubEntries(subs[..j + 1], data) == SubEntries(subs[..j], data) + [Entry(subs[j].name, SubNode(subs[j], data))]
    ensures CategoryTotal(subs[..j + 1], data) == AddAmounts(CategoryTotal(subs[..j], data), SubNode(subs[j], data).amount)
  {
    assert subs[..j + 1][..j] == subs[..j];
  }

  /**
   * parse_xbrl_content: a document that does not parse gives the empty tree;
   * otherwise the elements are accumulated and arranged by the category table.
   */
  method ParseXbrlContent(document: Option<seq<Element>>) returns (tree: Tree)
    ensures document.None? ==> tree == []
    ensures document.Some? ==> tree == Hierarchy(AccountHierarchy, CollectData(AccountMapping, document.value))
  {
    match document {
      case None =>
        tree := [];
      case Some(elems) =>
        var data := CollectFinancialData(AccountMapping, elems);
        tree := BuildHierarchy(AccountHierarchy, data);
    }
  }
}

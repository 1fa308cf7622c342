# DART dashboard core, modelled in Dafny

The system is a dashboard over the Korean DART disclosure service. A Python
backend takes company disclosures and single-company financial statements
from the DART Open API, keeps them in SQLite tables with a response cache,
and turns XBRL statements into a nested tree of per-year amounts. A React
frontend searches companies, filters and formats statement lines, and shows
the nested statement as an expandable table.

This project models the logic of that system and proves what it promises:

- **Statement tree** (`financial_tree.dfy`): an insertion-ordered mapping
  from a label to a node. A node has per-year amounts, a `has_details` flag
  and, optionally, a nested mapping. The module also holds the invariant
  that a node with details carries, year by year, the sum of its children.
- **Hierarchical view** (`hierarchical_financials.dfy`):
  - `formatAmount` in 조/억/만 units, with accounting parentheses for negatives;
  - the depth-first flattening of the tree into rows under an expanded-key set;
  - the expand/collapse toggle, as a class;
  - the choice between the loading, error and statement screens.
- **XBRL hierarchy builder** (`xbrl_parser.dfy`):
  - the account-name, tag and year helpers;
  - the accumulation loop that builds the account → year → amount table;
  - `_build_hierarchy`, as imperative loops proved equal to a functional
    definition, with its totals invariant.
- **Sample statement** (`sample_data.dfy`): the constant sample tree, which is
  proved to satisfy the totals and details invariants.
- **Financial analysis screen** (`financial_analysis.dfy`):
  - the JavaScript `parseFloat` on the inputs that matter;
  - `formatNumber` and `calculateGrowthRate`;
  - the account choices and the account filter;
  - the offered years;
  - the filter state, as a class.
- **Company search screen** (`company_search.dfy`):
  - quick filters and parameter overlay;
  - autocomplete suggestions and the keyboard state machine, as a class;
  - `formatDate`.
- **Backend tables** (`database.dfy`): every table is a map keyed by its
  primary key or unique column, held in a `Store` class. The module also
  models the expired-cache cleanup.
- **Service** (`services.dfy`):
  - paging arithmetic with Python's floor division and SQLite's OFFSET/LIMIT;
  - the cache key, the expiry-guarded lookup and the upsert;
  - the missing-key answer of the API request;
  - the account usage counter;
  - replace-by-report saving of financial statements and insert-if-absent
    saving of disclosures;
  - the local and remote search paths;
  - the financial-data path.

  Each entry point is specified by a function from the tables before the call
  to the tables after it, and by a predicate on its answer (`SearchTables`,
  `SearchAnswer`, `FinancialTables`, `FinancialAnswer`).
- **Loader** (`data_loader.dfy`): seeding the popular account names, and the
  preload of each major company's disclosures and last three annual reports.
  The preload's effect on the tables is a fold of the service's one-call
  specifications, company by company and year by year, so a failure in one
  call never stops the next.

Outside calls are passed in as parameters:

- the clock is a `now: int` in seconds;
- the DART API is a function from an endpoint and its parameters to a
  `Result`;
- `getDateString` is a function from a day offset to a date string.

Shared helpers live in `common.dfy`: Option/Result, decimal digits, ASCII
lower-casing, substrings, and ko-KR digit grouping.

## Model

| member | source | states |
|---|---|---|
| Common.NatToStringRoundTrip | data_loader.py:79 | The decimal text of a natural number reads back as that number. |
| Common.IntToString | data_loader.py:79 | Python `str` of an integer: a leading '-' exactly for negatives, followed by the magnitude's digits. |
| Common.Lower | xbrl_parser.py:145 | Lower-casing keeps the length and maps each character on its own. |
| Common.Without | frontend/src/components/FinancialAnalysis.js:464-465 | Removing a character leaves no occurrence of it and never lengthens the text. |
| Common.SubstringOfSelf | xbrl_parser.py:145 | Every text contains itself, so a tag that is an English name matches that name. |
| Common.StrLeTotal | frontend/src/components/FinancialAnalysis.js:498 | Any two strings are comparable in the order of the default sort. |
| Common.StrLeAntisymmetric | frontend/src/components/FinancialAnalysis.js:498 | Two strings that are each at most the other are equal. |
| Common.Grouped | frontend/src/components/HierarchicalFinancials.js:199 | ko-KR grouping of a natural number begins and ends with a digit. |
| Common.GroupedRoundTrip | frontend/src/components/HierarchicalFinancials.js:199 | Removing the group separators from the grouped text gives back the digits of the number. |
| Common.FormatIntegerSign | frontend/src/components/FinancialAnalysis.js:487 | An integer's ko-KR text starts with '-' exactly when it is negative, and the rest is the grouped magnitude. |
| FinancialTree.Labels | frontend/src/components/HierarchicalFinancials.js:308-310 | The labels of a mapping are its entries' names, in insertion order. |
| FinancialTree.FindPut | xbrl_parser.py:187-201 | After a dictionary assignment, the assigned label finds the new node and every other label finds what it found before. |
| FinancialTree.PutAbsent | xbrl_parser.py:187-201 | Assigning a label that is not yet present appends it at the end of the insertion order. |
| FinancialTree.PutEntries | xbrl_parser.py:187-201 | Every entry after an assignment is the assigned one or was already there. |
| FinancialTree.LabelsPut | xbrl_parser.py:187-201 | After an assignment the labels are the old labels plus the assigned one. |
| FinancialTree.ChildSnoc | xbrl_parser.py:203-207 | Appending a child adds its years to the children's years and, year by year, its amount to the children's sum. |
| HierarchicalFinancials.FormatMagnitude | frontend/src/components/HierarchicalFinancials.js:192-199 | The text of a non-negative amount starts with a digit and ends with a digit or with a unit character. |
| HierarchicalFinancials.FormatAmount | frontend/src/components/HierarchicalFinancials.js:186-203 | The text is "-" exactly when there is no amount, and it starts with "(" exactly when the amount is negative; 0 is never "-". |
| HierarchicalFinancials.FormatAmountSign | frontend/src/components/HierarchicalFinancials.js:189-202 | A negative amount is the parenthesised text of its magnitude; a non-negative amount is never parenthesised. |
| HierarchicalFinancials.FormatNegative | frontend/src/components/HierarchicalFinancials.js:202 | A negative amount is written as "(" + the text of its magnitude + ")". |
| HierarchicalFinancials.FormatNonNegative | frontend/src/components/HierarchicalFinancials.js:189-199 | A non-negative amount neither starts with "(" nor ends with ")". |
| HierarchicalFinancials.FormatMagnitudeUnit | frontend/src/components/HierarchicalFinancials.js:192-200 | The unit is 조 exactly from 10^12, 억 exactly in [10^8, 10^12), 만 exactly in [10^4, 10^8), and none below 10^4. |
| HierarchicalFinancials.TenthsRoundTrip | frontend/src/components/HierarchicalFinancials.js:193-197 | A one-decimal text without its point reads back as its count of tenths. |
| HierarchicalFinancials.RoundTenthsNearest | frontend/src/components/HierarchicalFinancials.js:193-197 | The rounded count of tenths is the nearest one, with halves rounded up. |
| HierarchicalFinancials.FormatMagnitudeScaled | frontend/src/components/HierarchicalFinancials.js:192-197 | From 10^4 up, the text is the amount in its unit to the nearest tenth, followed by the unit's character. |
| HierarchicalFinancials.FormatMagnitudeSmall | frontend/src/components/HierarchicalFinancials.js:199 | Below 10^4 the text is the grouped integer, and it reads back as the amount. |
| HierarchicalFinancials.FormatAmountExamples | frontend/src/components/HierarchicalFinancials.js:192-197 | 10^12 is "1.0조", 150 000 000 is "1.5억" and 25 000 is "2.5만". |
| HierarchicalFinancials.FormatAmountJoExample | frontend/src/components/HierarchicalFinancials.js:192-193 | 10^12 is written "1.0조". |
| HierarchicalFinancials.FormatAmountEokExample | frontend/src/components/HierarchicalFinancials.js:194-195 | 150 000 000 is written "1.5억". |
| HierarchicalFinancials.FormatAmountManExample | frontend/src/components/HierarchicalFinancials.js:196-197 | 25 000 is written "2.5만". |
| HierarchicalFinancials.FormatAmountSmallExamples | frontend/src/components/HierarchicalFinancials.js:187-199 | 999 is "999", 0 is "0" and a missing amount is "-". |
| HierarchicalFinancials.FormatAmountNegativeExample | frontend/src/components/HierarchicalFinancials.js:189-202 | -500 000 000 is written "(5.0억)". |
| HierarchicalFinancials.FormatAmountUnitBoundary | frontend/src/components/HierarchicalFinancials.js:194-197 | 99 999 999 stays in the 만 unit and rounds up to "10000.0만". |
| HierarchicalFinancials.RowCells | frontend/src/components/HierarchicalFinancials.js:221-244 | Every row shows the formatted amounts of 2023, 2022, 2021, 2020 and 2019, in that order. It has an icon exactly when it is clickable, and it is clickable exactly when the node has details. |
| HierarchicalFinancials.OutlineConcat | frontend/src/components/HierarchicalFinancials.js:249-252 | Two outlines joined with no indentation jump of more than one level form an outline. |
| HierarchicalFinancials.EntryShape | frontend/src/components/HierarchicalFinancials.js:215-256 | Of `RenderEntry`: a node's rows begin with its own row at its level, none are shallower, and indentation never jumps by more than one level. |
| HierarchicalFinancials.EntriesShape | frontend/src/components/HierarchicalFinancials.js:249-252 | Of `RenderEntries`: a mapping yields at least one row per entry; the first is at the mapping's level, none is shallower, and indentation never jumps by more than one level. |
| HierarchicalFinancials.AtLevelConcat | frontend/src/components/HierarchicalFinancials.js:249-252 | Selecting the rows of one level distributes over concatenation. |
| HierarchicalFinancials.AtLevelDeeper | frontend/src/components/HierarchicalFinancials.js:249-252 | Rows that are all deeper than a level contain none at that level. |
| HierarchicalFinancials.TopRows | frontend/src/components/HierarchicalFinancials.js:216-252 | The rows at a mapping's own level are exactly one per entry, in insertion order, each keyed parentKey + "." + label. |
| HierarchicalFinancials.RenderTopLevel | frontend/src/components/HierarchicalFinancials.js:308-310 | Of `Render`: the top-level rows are one per top-level label, in order, and each top-level row's key is its label. |
| HierarchicalFinancials.RenderEntryChildren | frontend/src/components/HierarchicalFinancials.js:249-253 | A node that is descended into is followed right away by its descendants, all one level deeper or more, whose own top rows are its children in insertion order. A node that is not descended into yields only its own row. |
| HierarchicalFinancials.RenderCollapsed | frontend/src/components/HierarchicalFinancials.js:249-253 | With nothing expanded, a mapping yields exactly one row per entry, all at its level. |
| HierarchicalFinancials.EntryCongruence | frontend/src/components/HierarchicalFinancials.js:249 | A node's rows depend on the expanded set only through the keys of its nodes with details. |
| HierarchicalFinancials.EntriesCongruence | frontend/src/components/HierarchicalFinancials.js:249 | A mapping's rows depend on the expanded set only through the keys of its nodes with details. |
| HierarchicalFinancials.ClickableRowKeys | frontend/src/components/HierarchicalFinancials.js:228-229 | Every clickable row's key is the key of a node with details. |
| HierarchicalFinancials.Toggled | frontend/src/components/HierarchicalFinancials.js:205-213 | Toggling flips the membership of the given key and keeps every other key's membership. |
| HierarchicalFinancials.ToggleTwice | frontend/src/components/HierarchicalFinancials.js:205-213 | Toggling the same key twice restores the original set. |
| HierarchicalFinancials.ToggleElsewhere | frontend/src/components/HierarchicalFinancials.js:205-213 | Toggling a key that belongs to no node with details leaves every rendered row as it was. |
| HierarchicalFinancials.ToggleFlipsChildren | frontend/src/components/HierarchicalFinancials.js:205-253 | Toggling the key of a node with a non-empty details mapping switches it between its row alone and its row followed by its descendants' rows. |
| HierarchicalFinancials.ExpandState.constructor | frontend/src/components/HierarchicalFinancials.js:171 | The view starts with exactly {"유동자산", "비유동자산"} expanded. |
| HierarchicalFinancials.ExpandState.Toggle | frontend/src/components/HierarchicalFinancials.js:205-213 | The expanded set becomes the old set with the key toggled. |
| HierarchicalFinancials.ExpandState.Click | frontend/src/components/HierarchicalFinancials.js:228-229 | A click toggles the row's key only when the row is clickable; otherwise the set is unchanged. |
| HierarchicalFinancials.SelectScreen | frontend/src/components/HierarchicalFinancials.js:258-323 | Loading wins over an error and an error over the data. A missing payload is an empty tree, and the "no data" notice shows exactly when there is no row. |
| XbrlParser.LocalTag | xbrl_parser.py:135-141 | The local tag is the suffix after the last '}' (the whole tag when there is none) and contains no '}'. |
| XbrlParser.LocalTagQualified | xbrl_parser.py:141 | The local tag of "{namespace}name" is "name". |
| XbrlParser.AnyOccurs | xbrl_parser.py:130-137 | Of `IsFinancialElement`: the element is financial exactly when some tag fragment occurs in its local tag. |
| XbrlParser.FirstMatchFrom | xbrl_parser.py:144-146 | The index found is the first mapping entry whose lowered English name occurs in the lowered tag; none is found only when no entry matches. |
| XbrlParser.FirstMatchDecides | xbrl_parser.py:139-148 | Of `ExtractAccountName`: when entry i is the first match, the account name is entry i's Korean name. |
| XbrlParser.ShadowedEntry | xbrl_parser.py:144-148 | Of two entries with the same English name, the later one's Korean name is the result only when the local tag is that Korean name itself. |
| XbrlParser.AccountMappingPrepaid | xbrl_parser.py:13-54 | The mapping has 31 entries; 선급금 and 선급비용, its first two, both map to PrepaidExpenses. |
| XbrlParser.PrepaidExpensesName | xbrl_parser.py:144-146 | Any tag whose lowered local part contains "prepaidexpenses" reads as 선급금. |
| XbrlParser.PrepaidCostNameOnlyLiteral | xbrl_parser.py:144-148 | 선급비용 is the result only for a tag whose local part is 선급비용 itself. |
| XbrlParser.PrepaidExpensesTagExample | xbrl_parser.py:139-148 | The namespaced tag "{http://dart.fss.or.kr}PrepaidExpenses" reads as 선급금. |
| XbrlParser.PrepaidExpensesLocalTag | xbrl_parser.py:141 | The local tag of "{http://dart.fss.or.kr}PrepaidExpenses" is "PrepaidExpenses". |
| XbrlParser.FirstYearFrom | xbrl_parser.py:167 | The index found is the leftmost start of four digits; none is found only when there is no such start. |
| XbrlParser.ExtractContext | xbrl_parser.py:162-171 | The result is "unknown" exactly when the context reference holds no four digits in a row; otherwise it is four digits. |
| XbrlParser.ExtractContextFirst | xbrl_parser.py:167-169 | The year is the first run of four digits in the context reference. |
| XbrlParser.ExtractContextExample | xbrl_parser.py:166-171 | "2023_12_31" gives "2023", "CFY2022dFY" gives "2022" and "" gives "unknown". |
| XbrlParser.CollectDataLookup | xbrl_parser.py:106-116 | Of `CollectData`: the table has an account exactly when some recorded element names it. It has an account and year exactly when some recorded element carries both, and the amount is that of the last such element. |
| XbrlParser.CollectDataRowsNonEmpty | xbrl_parser.py:112-116 | Every account in the table has at least one year. |
| XbrlParser.CollectFinancialData | xbrl_parser.py:103-116 | The accumulation loop over the elements, in document order, yields the accumulated table. |
| XbrlParser.RecordElement | xbrl_parser.py:107-116 | One loop step writes the element's amount under its account and year when it is financial, named and has an amount; otherwise the table is unchanged. |
| XbrlParser.CollectDataPrefix | xbrl_parser.py:106-116 | The table after one more element is that element recorded into the table so far. |
| XbrlParser.SubEntries | xbrl_parser.py:186-191 | There is one sub-category node per sub-category of the table. |
| XbrlParser.Hierarchy | xbrl_parser.py:177-182 | There is one main node per category of the table. |
| XbrlParser.HierarchyCategories | xbrl_parser.py:177-182 | The built tree's labels are the table's main categories in order, each flagged as having details. |
| XbrlParser.AccountHierarchyNames | xbrl_parser.py:57-87 | The category table's main categories are 유동자산, 비유동자산, 유동부채, 비유동부채 and 자본, in that order. |
| XbrlParser.BuiltTopLevel | xbrl_parser.py:177-182 | Whatever the data, the built tree's top level is those five categories. |
| XbrlParser.SubNodeFlag | xbrl_parser.py:187-213 | Of `SubNode`: a sub-category has details exactly when its detail list is non-empty. With an empty list it takes the data's own row when there is one, else no amount, and its details mapping is empty. |
| XbrlParser.LeafEntriesFind | xbrl_parser.py:196-201 | A detail account appears under its sub-category exactly when it is listed and in the data; it is a leaf that carries the data's row unchanged. |
| XbrlParser.LeafEntriesLabels | xbrl_parser.py:196-201 | Every detail label is a listed account that is in the data. |
| XbrlParser.AddChildTotal | xbrl_parser.py:204-207 | Adding one more child's amounts into a child total gives the total over the longer list of children. |
| XbrlParser.ChildSumOutside | xbrl_parser.py:204-207 | A year on which no child has an amount sums to 0. |
| XbrlParser.LeafTotalIsChildTotal | xbrl_parser.py:195-209 | Over distinct detail accounts, the sub-category's years are exactly its leaves' years, and each year's amount is the sum of the leaves' amounts. |
| XbrlParser.CategoryTotalIsChildTotal | xbrl_parser.py:184-221 | A category's years are exactly its sub-categories' years, and each year's amount is the sum of theirs. |
| XbrlParser.LeafEntriesAreLeaves | xbrl_parser.py:198-201 | Every detail entry is a leaf without details that holds the data's row for its account. |
| XbrlParser.HierarchyTotalsConsistent | xbrl_parser.py:173-223 | Over a table whose detail lists have no repeats, every built node with details carries the per-year totals of its children. |
| XbrlParser.AccountHierarchyItemsDistinct | xbrl_parser.py:57-87 | No detail list of the category table repeats an account. |
| XbrlParser.CategoryItemsDistinct | xbrl_parser.py:57-87 | The detail lists of each one category are free of repeats. |
| XbrlParser.BuiltTotalsConsistent | xbrl_parser.py:173-223 | The tree built from the category table always satisfies the totals invariant, whatever the data. |
| XbrlParser.BuiltDetailsFlagMismatch | xbrl_parser.py:187-191 | The built tree breaks "details present exactly when has_details": 현금및현금성자산 carries an empty details mapping while its flag is false. |
| XbrlParser.AddOneYear | xbrl_parser.py:204-207 | Adding one more year of a row into the running total is one step of the year-by-year sum. |
| XbrlParser.AddInto | xbrl_parser.py:204-219 | The year-by-year loop adds a row into the running total, with a missing year starting from 0. |
| XbrlParser.BuildSubNode | xbrl_parser.py:187-213 | The loop over a sub-category's detail list yields its leaves and sub_total, or the data's own row for an empty list. |
| XbrlParser.BuildCategoryNode | xbrl_parser.py:178-221 | The loop over a category's sub-categories yields its nodes and their running category_total. |
| XbrlParser.BuildHierarchy | xbrl_parser.py:173-223 | The loop over the categories yields the functional hierarchy. |
| XbrlParser.HierarchySnoc | xbrl_parser.py:177-221 | One more category appends its node to the tree built so far. |
| XbrlParser.SubEntriesSnoc | xbrl_parser.py:186-219 | One more sub-category appends its node and adds its amounts into the category total. |
| XbrlParser.ParseXbrlContent | xbrl_parser.py:89-125 | A document that does not parse gives the empty tree; otherwise the tree is the hierarchy of the accumulated table. |
| XbrlParser.SubNodeIntended | xbrl_parser.py:187-213 | The intended sub-category node has the built node's amounts and flag, and has a details mapping exactly when it is flagged. |
| XbrlParser.SubEntriesIntended | xbrl_parser.py:186-219 | There is one intended node per sub-category, with its name and the built node's amounts. |
| XbrlParser.HierarchyIntended | xbrl_parser.py:173-223 | The intended tree has one node per category, with the built tree's names and amounts. |
| XbrlParser.SameAmountsSameSums | xbrl_parser.py:204-207 | Children with the same amounts, one by one, have the same years and the same per-year sums. |
| XbrlParser.IntendedDetailsMatchFlag | xbrl_parser.py:173-223 | Every node of the intended tree has a details mapping exactly when its flag is true. |
| XbrlParser.IntendedTotalsConsistent | xbrl_parser.py:173-223 | Over a table whose detail lists have no repeats, every intended node with details carries the per-year totals of its children. |
| XbrlParser.BuiltIntendedInvariants | xbrl_parser.py:173-223 | For any data, the intended tree of the category table satisfies both the details rule and the totals invariant. |
| SampleData.YearlyTotal3 | xbrl_parser.py:226-343 | Three children with amounts for the five sample years sum, year by year, to the element-wise total. |
| SampleData.YearlyTotal4 | xbrl_parser.py:226-343 | Four children with amounts for the five sample years sum, year by year, to the element-wise total. |
| SampleData.LeavesConsistent | xbrl_parser.py:233-251 | Leaves without a details mapping satisfy both invariants. |
| SampleData.BranchConsistent | xbrl_parser.py:237-254 | A node with details whose amount is its children's total, over consistent children, satisfies both invariants. |
| SampleData.ReceivablesTotal | xbrl_parser.py:237-254 | 매출채권's amounts are the sums of its three children. |
| SampleData.InventoriesTotal | xbrl_parser.py:255-272 | 재고자산's amounts are the sums of its three children. |
| SampleData.OtherCurrentAssetsTotal | xbrl_parser.py:273-294 | 기타유동자산's amounts are the sums of its four children. |
| SampleData.CurrentAssetsTotal | xbrl_parser.py:229-296 | 유동자산's amounts are the sums of its four children. |
| SampleData.TangiblesTotal | xbrl_parser.py:301-318 | 유형자산's amounts are the sums of its three children. |
| SampleData.IntangiblesTotal | xbrl_parser.py:319-336 | 무형자산's amounts are the sums of its three children. |
| SampleData.NonCurrentAssetsTotal | xbrl_parser.py:297-342 | 비유동자산's amounts are the sums of its three children. |
| SampleData.CurrentAssetsChildren | xbrl_parser.py:232-295 | Every child of 유동자산 satisfies both invariants. |
| SampleData.NonCurrentAssetsChildren | xbrl_parser.py:300-341 | Every child of 비유동자산 satisfies both invariants. |
| SampleData.SampleTreeConsistent | xbrl_parser.py:226-343 | In the sample tree every node with details carries, for every year, the sum of its children, and a node has a details mapping exactly when its flag says so. |
| FinancialAnalysis.TrimStart | frontend/src/components/FinancialAnalysis.js:478 | The text parseFloat reads is a suffix of the input that does not start with white space. |
| FinancialAnalysis.DigitRun | frontend/src/components/FinancialAnalysis.js:478 | The leading digit run is all digits, and it is followed by a non-digit or by the end. |
| FinancialAnalysis.ParseDigits | frontend/src/components/FinancialAnalysis.js:478 | Of `ParseFloat`: a run of digits parses to its value, and with a leading '-' to its negation. |
| FinancialAnalysis.ParsePositiveDigits | frontend/src/components/FinancialAnalysis.js:478 | A run of digits parses to its value. |
| FinancialAnalysis.ParseNegativeDigits | frontend/src/components/FinancialAnalysis.js:478 | "-" followed by a run of digits parses to the negated value. |
| FinancialAnalysis.ParseNoNumber | frontend/src/components/FinancialAnalysis.js:478-481 | Text whose first character is none of white space, a digit, '-', '+', '.' and 'I' parses to NaN. |
| FinancialAnalysis.ParseInfinity | frontend/src/components/FinancialAnalysis.js:478-481 | "Infinity" parses to positive infinity. |
| FinancialAnalysis.ParseZero | frontend/src/components/FinancialAnalysis.js:478-484 | The text "0" parses to 0. |
| FinancialAnalysis.FormatDecimal | frontend/src/components/FinancialAnalysis.js:487 | The ko-KR text of a decimal starts with '-' exactly when the value is negative. |
| FinancialAnalysis.FormatNumber | frontend/src/components/FinancialAnalysis.js:473-488 | "-" exactly for falsy values and for values that do not parse to a finite number; a truthy value that parses to 0 gives "0". |
| FinancialAnalysis.FormatNumberZero | frontend/src/components/FinancialAnalysis.js:475-484 | The string "0" is truthy and gives "0"; the number 0 is falsy and gives "-". |
| FinancialAnalysis.FormatNumberInteger | frontend/src/components/FinancialAnalysis.js:473-488 | A non-zero whole number is written in ko-KR grouping, and that text formats to itself again. |
| FinancialAnalysis.FormatNumberWhole | frontend/src/components/FinancialAnalysis.js:487 | A non-zero whole number is written in ko-KR grouping. |
| FinancialAnalysis.FormatNumberReadBack | frontend/src/components/FinancialAnalysis.js:478-487 | The ko-KR text of a non-zero whole number formats to itself. |
| FinancialAnalysis.FormatDecimalWhole | frontend/src/components/FinancialAnalysis.js:487 | Whole numbers are written with no fraction part. |
| FinancialAnalysis.CellNumberInteger | frontend/src/components/FinancialAnalysis.js:478 | The ko-KR text of a whole number, with its commas removed, parses back to that number. |
| FinancialAnalysis.GrowthOperand | frontend/src/components/FinancialAnalysis.js:464-465 | A growth operand is never NaN, because of the `|| 0`. |
| FinancialAnalysis.GrowthOperandMissing | frontend/src/components/FinancialAnalysis.js:464-465 | A missing or empty operand counts as 0. |
| FinancialAnalysis.GrowthOperandUnparsable | frontend/src/components/FinancialAnalysis.js:464-465 | An operand with no number in it counts as 0. |
| FinancialAnalysis.GrowthRate | frontend/src/components/FinancialAnalysis.js:463-470 | The growth cell always ends with "%", with at least one character before it. |
| FinancialAnalysis.GrowthText | frontend/src/components/FinancialAnalysis.js:467-470 | For the operands as numbers the cell always ends with "%", with at least one character before it. |
| FinancialAnalysis.FiniteGrowth | frontend/src/components/FinancialAnalysis.js:469-470 | For a finite current value and a finite non-zero previous value the cell starts with "+" or "-" and ends with "%". |
| FinancialAnalysis.AtScaleZero | frontend/src/components/FinancialAnalysis.js:467-469 | Rewriting a decimal at a finer scale keeps it zero or positive exactly when it was. |
| FinancialAnalysis.GrowthFromZero | frontend/src/components/FinancialAnalysis.js:467 | With a previous value of 0 the cell is "+∞%" exactly when the current value is positive, and "0%" otherwise. |
| FinancialAnalysis.GrowthInfinite | frontend/src/components/FinancialAnalysis.js:469-470 | Over a non-zero previous value, an infinite previous value or a NaN operand gives "NaN%", and an infinite current value over a finite one gives a signed infinity. |
| FinancialAnalysis.GrowthSign | frontend/src/components/FinancialAnalysis.js:469-470 | With a finite non-zero previous value the cell starts with "+" exactly when current >= previous, and with "-" exactly when current < previous; a rounded magnitude and "%" follow. |
| FinancialAnalysis.TenthsNoInfinity | frontend/src/components/FinancialAnalysis.js:749 | A one-decimal number never contains '∞'. |
| FinancialAnalysis.TrendMeaning | frontend/src/components/FinancialAnalysis.js:749-758 | For finite values the cell is coloured rising exactly when previous is non-zero and current >= previous, falling exactly when previous is non-zero and current < previous, and plain when previous is 0. |
| FinancialAnalysis.AccountNames | frontend/src/components/FinancialAnalysis.js:497 | The names kept are exactly the non-empty account names of the items. |
| FinancialAnalysis.Dedup | frontend/src/components/FinancialAnalysis.js:498 | The result has no repeats and the same elements as the input. |
| FinancialAnalysis.Insert | frontend/src/components/FinancialAnalysis.js:498 | Insertion adds exactly one element and keeps the others. |
| FinancialAnalysis.InsertSorted | frontend/src/components/FinancialAnalysis.js:498 | Insertion into a sorted list gives a sorted list. |
| FinancialAnalysis.InsertDistinct | frontend/src/components/FinancialAnalysis.js:498 | Inserting a new element into a list without repeats gives a list without repeats. |
| FinancialAnalysis.Sort | frontend/src/components/FinancialAnalysis.js:498 | Sorting keeps the length and the elements. |
| FinancialAnalysis.SortSorted | frontend/src/components/FinancialAnalysis.js:498 | The sorted list is in the order of the default comparison. |
| FinancialAnalysis.SortDistinct | frontend/src/components/FinancialAnalysis.js:498 | Sorting a list without repeats gives a list without repeats. |
| FinancialAnalysis.AvailableAccountsSpec | frontend/src/components/FinancialAnalysis.js:494-499 | Of `AvailableAccounts`: the account choices are sorted and free of duplicates. They are [] without a list, and otherwise a name is offered exactly when it is some item's non-empty account name. |
| FinancialAnalysis.SortedDistinctStrict | frontend/src/components/FinancialAnalysis.js:498 | In the account choices each name is strictly before the next. |
| FinancialAnalysis.KeepAccount | frontend/src/components/FinancialAnalysis.js:507-509 | The kept items are exactly the items whose account name is the filter. |
| FinancialAnalysis.KeepAccountConcat | frontend/src/components/FinancialAnalysis.js:507-509 | Filtering a concatenation filters each part, so kept items stay in list order. |
| FinancialAnalysis.FilteredSpec | frontend/src/components/FinancialAnalysis.js:502-510 | Of `FilteredFinancialData`: the result is [] without a list and the whole list for an empty filter. Otherwise it holds exactly the items whose account name is the filter. |
| FinancialAnalysis.FilteredSplit | frontend/src/components/FinancialAnalysis.js:502-510 | The filtered list of a concatenation is the concatenation of the filtered parts: relative order is kept. |
| FinancialAnalysis.DisplayedItems | frontend/src/components/FinancialAnalysis.js:747 | The table shows a prefix of at most 20 filtered items, all of them when there are at most 20, and exactly 20 otherwise. |
| FinancialAnalysis.Years | frontend/src/components/FinancialAnalysis.js:490-491 | Ten business years are offered. |
| FinancialAnalysis.YearsDescending | frontend/src/components/FinancialAnalysis.js:490-491 | The years run from 2024 down to 2015, strictly descending, and are exactly the years in that range. |
| FinancialAnalysis.AnalysisFilters.constructor | frontend/src/components/FinancialAnalysis.js:357-364 | The screen starts with business year 2023, report 11011 and no account filter. |
| FinancialAnalysis.AnalysisFilters.HandleFilterChange | frontend/src/components/FinancialAnalysis.js:406-412 | Only the named field takes the new value; the account filter is unchanged. |
| FinancialAnalysis.AnalysisFilters.SetAccountFilter | frontend/src/components/FinancialAnalysis.js:580 | The account filter takes the selected value and the other filters are unchanged. |
| FinancialAnalysis.AnalysisFilters.HandleClearFilter | frontend/src/components/FinancialAnalysis.js:418-424 | The reset clears the account filter and restores business year 2023 and report 11011. |
| FinancialAnalysis.ClearShowsAll | frontend/src/components/FinancialAnalysis.js:418-424 | After a reset the table shows the first 20 of the whole list. |
| CompanySearch.QuickFilterParams | frontend/src/components/CompanySearch.js:385-429 | Exactly the four known ids have parameters. Each sets the periodic type "A", 50 per page, and today as its end date. |
| CompanySearch.Overlay | frontend/src/components/CompanySearch.js:466-469 | The overlay wins on its own keys, and every other key keeps its value. |
| CompanySearch.QuarterlyKeepsMarket | frontend/src/components/CompanySearch.js:385-469 | The quarterly filter keeps the market class chosen before; the KOSPI filter sets "Y" and the recent-reports filter sets "". |
| CompanySearch.SuggestionsFor | frontend/src/components/CompanySearch.js:496-498 | The suggestions are exactly the names whose lower-case form contains the lower-case query. |
| CompanySearch.SuggestionsConcat | frontend/src/components/CompanySearch.js:496-498 | Filtering a concatenation filters each part, so suggestions keep the list order. |
| CompanySearch.SuggestionsOfName | frontend/src/components/CompanySearch.js:496-498 | A company name typed in full is among its own suggestions. |
| CompanySearch.StepDown | frontend/src/components/CompanySearch.js:517-521 | ArrowDown moves one further down but never past the last suggestion, and the selection stays in range. |
| CompanySearch.StepUp | frontend/src/components/CompanySearch.js:522-524 | ArrowUp moves one further up but never below -1, which means no selection. |
| CompanySearch.StepDownReachesLast | frontend/src/components/CompanySearch.js:517-521 | Enough ArrowDown presses reach the last suggestion and stay there. |
| CompanySearch.RepeatDown | frontend/src/components/CompanySearch.js:517-521 | Any number of ArrowDown presses keeps the selection in range. |
| CompanySearch.StepUpReachesNone | frontend/src/components/CompanySearch.js:522-524 | Enough ArrowUp presses end at -1, no selection. |
| CompanySearch.RepeatUp | frontend/src/components/CompanySearch.js:522-524 | ArrowUp presses never raise the selection and never go below -1. |
| CompanySearch.FormatDate | frontend/src/components/CompanySearch.js:546-549 | Eight characters become YYYY-MM-DD; a missing value or one of another length is returned unchanged. |
| CompanySearch.FormatDateRoundTrip | frontend/src/components/CompanySearch.js:546-549 | Dropping the two dashes gives the eight characters back. |
| CompanySearch.SearchView.constructor | frontend/src/components/CompanySearch.js:360-374 | The screen starts with the default parameters, no search, no quick filter, no query, no suggestions and no selection. |
| CompanySearch.SearchView.HandleInputChange | frontend/src/components/CompanySearch.js:449-456 | One parameter takes the typed value and the quick filter is cleared; nothing else changes. |
| CompanySearch.SearchView.HandleSubmit | frontend/src/components/CompanySearch.js:458-461 | Submitting enables the search and changes nothing else. |
| CompanySearch.SearchView.HandleQuickFilter | frontend/src/components/CompanySearch.js:463-473 | A known id lays its parameters over the current ones, becomes active and enables the search; an unknown id changes nothing. |
| CompanySearch.SearchView.ClearFilters | frontend/src/components/CompanySearch.js:475-488 | The default parameters are restored, the query and quick filter are cleared, the search is disabled and the suggestions are hidden. |
| CompanySearch.SearchView.HandleSearchInput | frontend/src/components/CompanySearch.js:490-505 | A non-empty query shows the matching names with nothing selected. An empty query only hides the list; the suggestion list and selection are kept. |
| CompanySearch.SearchView.ExecuteSearch | frontend/src/components/CompanySearch.js:537-544 | A non-empty query enables the search and hides the suggestions; an empty query changes nothing. |
| CompanySearch.SearchView.HandleSuggestionClick | frontend/src/components/CompanySearch.js:507-512 | The chosen suggestion goes into the box, the list is hidden, and a search starts for a non-empty choice. |
| CompanySearch.SearchView.HandleKeyDown | frontend/src/components/CompanySearch.js:514-535 | All keys are ignored while the list is hidden. The arrows move the selection within bounds. Enter takes the selected suggestion, or searches for a non-empty typed query. Escape hides the list and keeps the selection. |
| CompanySearch.SearchView.HandleFocus | frontend/src/components/CompanySearch.js:595 | Focusing shows the suggestions again when there is a query. |
| CompanySearch.SearchView.HandleBlur | frontend/src/components/CompanySearch.js:596 | Leaving the box hides the suggestions and changes nothing else. |
| CompanySearch.SearchView.Highlighted | frontend/src/components/CompanySearch.js:527-528 | There is a highlighted suggestion exactly when the selection is at least 0, and it is one of the suggestions. |
| Database.Cleanup | database.py:154-160 | Exactly the entries with expires_at < now are removed, and the rest are kept unchanged. |
| Database.CleanupIdempotent | database.py:158 | A second cleanup at the same instant removes nothing more. |
| Database.CleanupMonotone | database.py:158 | A later cleanup removes at least what an earlier one did, and an earlier cleanup followed by a later one is just the later one. |
| Database.Store.constructor | database.py:29-135 | The store starts with every table empty. Each keyed table is a map, so there is at most one row per key. |
| Database.Store.CleanupExpiredCache | database.py:154-160 | The API cache becomes its cleanup at now, and every other table is unchanged. |
| Services.FloorDiv | services.py:229 | Python's `//`: for a positive divisor the quotient is rounded down. |
| Services.TotalPage | services.py:229 | There is a page total exactly when the page size is not 0; a page size of 0 raises ZeroDivisionError. |
| Services.TotalPageCeiling | services.py:229 | With a positive page size, total_page is 0 for no rows. Otherwise (total_page − 1)·page_count < total_count ≤ total_page·page_count. |
| Services.PageStart | services.py:195-196 | A page never starts past the end of the rows. |
| Services.PageEnd | services.py:195-196 | A page ends between its start and the end of the rows. |
| Services.PageRows | services.py:195-196 | A page holds at most page_count rows. |
| Services.FirstPage | services.py:195-196 | Page 1 starts at the first row. |
| Services.PagesAdjacent | services.py:195-196 | Each page ends where the next starts, so consecutive pages share no row. |
| Services.FirstPagesPrefix | services.py:195-196 | Pages 1 to k together are exactly the first k·page_count rows, or all of them. |
| Services.PagedResponse | services.py:195-231 | A page size of 0 fails (ZeroDivisionError). Otherwise the answer has status "000", the requested page of the matches, their count and the page total. |
| Services.InsertBy | services.py:189 | Inserting one row keeps the multiset of rows plus that row. |
| Services.InsertBySorted | services.py:189 | Insertion into an ordered list keeps it ordered. |
| Services.SortBy | services.py:189 | ORDER BY returns a permutation of the rows. |
| Services.SortBySorted | services.py:189 | The sorted rows are ordered by the key and are a permutation of the input. |
| Services.GenerateCacheKey | services.py:32-37 | The cache key holds the endpoint and exactly the parameters other than crtfc_key, with their values. |
| Services.CacheKeyIgnoresApiKey | services.py:35 | The API key never changes the cache key. |
| Services.CacheKeyInjective | services.py:32-37 | Two requests share a key exactly when they have the same endpoint and the same other parameters, in whatever order those were given. |
| Services.CachedResponseFor | services.py:39-52 | A lookup gives the stored data exactly when the key has an entry with expires_at > now. |
| Services.CacheUpsert | services.py:54-80 | The key's one entry now holds the data, expiring `hours` from now, and every other entry is unchanged. |
| Services.CacheUpsertThenGet | services.py:39-80 | What was just cached is returned until it expires, and no other key's answer changes. |
| Services.ExpiryBoundary | services.py:44 | An entry with expires_at == now survives the cleanup but is already a cache miss. |
| Services.CleanupPreservesLookups | services.py:44 | Cleaning up never changes what a lookup at the same instant or later returns. |
| Services.MakeApiRequest | services.py:82-97 | Without a key the answer is status "013" with an empty list. With a key it is the remote answer for the parameters plus crtfc_key. |
| Services.NoRequestWithoutKey | services.py:84-90 | Without a key the outcome does not depend on the remote side at all, and the list is empty. |
| Services.AccountNamesIn | services.py:545-548 | The names collected are exactly the non-empty account names of the statements. |
| Services.AccountNamesSnoc | services.py:546-548 | One more statement adds its non-empty account name, if any. |
| Services.AccountNamesRepeated | services.py:545-548 | A name that repeats in the input is collected once. |
| Services.DistinctAccountNames | services.py:545-548 | The first loop collects the set of non-empty account names. |
| Services.AccountsAfterUseAdd | services.py:550-563 | Using one more name is one update of the account rows. |
| Services.AccountsAfterUse | services.py:550-563 | The rows afterwards are the old rows plus one per used name, and every row whose name was not used is unchanged. |
| Services.UseOneName | services.py:550-563 | The update loop's step applies one more pending name to the rows so far. |
| Services.UsageCounted | services.py:543-565 | Each distinct non-empty name gains exactly one use however often it occurs. Unseen names start at 1, and every other row is unchanged. |
| Services.StatementFrom | services.py:521-538 | The row saved for an item belongs to the given report. Its account_nm is the item's, defaulting to "", and its thstrm_amount is the item's. |
| Services.LocalFinancialResponse | services.py:473-496 | The status is "000" exactly when there are rows and "013" exactly when there are none. There is one item per row, in order. |
| Services.SaveAllErrSticks | services.py:360-384 | Once a prefix of the documents fails, the whole save fails. |
| Services.SaveOneInsertsOnly | services.py:360-381 | Of `SaveOne`: stored documents stay as they were, the document's number is then stored, and the count grows by the new keys. |
| Services.SaveAllKeeps | services.py:360-384 | Of `SaveAll`: stored documents are never changed, and the count is the number of new rows. |
| Services.SaveAllSnoc | services.py:360-381 | A successful save is a save of all but the last document, then that one. |
| Services.SaveAllCovers | services.py:360-381 | Every listed document is stored afterwards. |
| Services.SaveOneKeepsKey | services.py:371-381 | A stored document number stays stored after one more document. |
| Services.SaveOneNewKey | services.py:371-381 | The only number one document can add is its own. |
| Services.SaveOneStores | services.py:371-381 | After one document its number is stored. |
| Services.SaveAllStep | services.py:360-381 | Saving one more document is one step of the save. |
| Services.SaveOneKeysMatch | services.py:371-381 | Every stored document stays filed under its own number. |
| Services.SaveAllOnlyListed | services.py:360-381 | Every new document number is that of a listed document. |
| Services.SaveAllPresent | services.py:371-381 | A list whose documents are all stored already adds nothing and counts nothing. |
| Services.SaveAllHasCompanyFields | services.py:386-409 | A successful save read corp_code and corp_name from every document. |
| Services.SaveAllTwice | services.py:352-384 | Saving the same list again leaves the documents as they are and counts no new document. |
| Services.DocumentRecords | services.py:199-224 | There is one list item per stored document, in order. |
| Services.OptParam | services.py:148-159 | A parameter is added only when it is given. |
| Services.SearchParamsKeys | services.py:148-159 | page_no and page_count are always sent, and each optional parameter exactly when it is given. |
| Services.SearchParamsValues | services.py:148-159 | The values sent are the ones given. |
| Services.WithoutReport | services.py:508-517 | The DELETE removes exactly the rows of the report, and the other rows keep their contents. |
| Services.Inserted | services.py:520-539 | The inserted rows sit at consecutive ids from the first free one, and all belong to the report. |
| Services.InsertedAt | services.py:520-539 | The row at first + i is the row for the i-th item. |
| Services.InsertNext | services.py:520-539 | One more insertion extends the merged table by the next row. |
| Services.InsertedSnoc | services.py:520-539 | One more item adds one more row at the next id. |
| Services.ReplaceReportParts | services.py:508-539 | A row of the new table is either a kept row of another report or one of the inserted rows. |
| Services.ReplaceReportIds | services.py:508-539 | Of `ReplaceReport`: after a save the report consists exactly of the new rows, at consecutive ids. |
| Services.ReplaceReportNewRows | services.py:520-539 | The new rows hold the list items in list order. |
| Services.ReplaceReportKeepsOthers | services.py:508-517 | Every row of another report is untouched. |
| Services.DartApiService.CacheResponse | services.py:54-80 | The cache becomes the upsert of the key, and every other table is unchanged. |
| Services.DartApiService.UpdateAccountCache | services.py:543-565 | The account table becomes the old table after one use of each distinct name, and every other table is unchanged. |
| Services.DartApiService.SaveFinancialStatements | services.py:498-541 | The report's rows are replaced by one row per item at fresh ids, and every other table is unchanged. |
| Services.DartApiService.SaveDisclosureDocuments | services.py:352-384 | It fails exactly when the document-by-document save fails, and then the companies and documents are unchanged. Otherwise they are the save's result, and it returns the count of new documents. The other tables never change. |
| Services.DartApiService.QueryDocuments | services.py:180-194 | The rows are exactly the documents the query selects, one per key, newest rcept_dt first. |
| Services.DartApiService.SearchLocal | services.py:180-350 | The rows are a newest-first listing of exactly the documents the query selects, and the answer is their requested page. It fails exactly for a page size of 0. Otherwise it has status "000", the count of all matches and the query's message, and the page is non-empty exactly when it lies within the matches. |
| Services.DartApiService.SearchCompaniesOptimized | services.py:99-178 | The new tables and the answer are those of the one-call specification, branch by branch. Without a key the local name, else code, else recent search answers, and nothing changes. With a key, a local name search and then a local code search that holds a row, or fails for a page size of 0, answers and nothing changes. Otherwise the remote half decides, with the given parameters. |
| Services.DartApiService.SearchRemote | services.py:163-178 | A live cache entry is the answer and nothing changes. Otherwise the API's answer is returned. A successful non-empty answer is saved and cached for 2 hours. A KeyError while saving fails and changes no table, and any other answer changes nothing. |
| Services.DartApiService.ReportRows | services.py:462-471 | The rows read are those of the report's ids, each id once. |
| Services.DartApiService.GetFinancialDataLocal | services.py:453-496 | The rows are a permutation of the rows at the report's ids, each id read once (a value stored at two ids comes twice), ordered by ord, and the answer is the local response of those rows. The status is "000" exactly when the report has rows and "013" exactly when it has none. |
| Services.ReportListingCounts | services.py:462-471 | Of `ReportListing`: every listing of a report holds each value exactly as often as the report's ids hold it, so the SELECT's rows keep their multiplicity. |
| Services.RowsAtCount | services.py:462-471 | Reading the rows at ids that enumerate a set gives each value as often as the set's ids hold it. |
| Services.DuplicateRowsKept | services.py:462-471 | With two ids holding one row and a third holding another, every listing of that report has the first row twice and the second once. |
| Services.DartApiService.GetFinancialDataOptimized | services.py:411-451 | The new tables and the answer are those of the one-call specification. Stored rows of the report answer, as the local response of the rows ordered by ord, and nothing changes. Else a live cache entry answers and nothing changes. Else the API answers; a successful non-empty answer replaces the report's rows at fresh ids, counts each account name once and is cached for 24 hours. |
| Services.RowsOfIds | services.py:462-471 | Rows read at ids listing a set are exactly the rows of that set's ids. |
| Services.LocalAnswerHit | services.py:128-145 | A local answer ends the keyed lookup exactly when it failed or its page holds a row. |
| Services.SearchWithoutKey | services.py:114-125 | Without a key no table changes, and the answer is that of the local name, else code, else recent search. |
| Services.SearchNameHit | services.py:128-136 | With a key, a local name search whose page holds a row, or which fails, answers and changes no table. |
| Services.SearchCodeHit | services.py:139-145 | With a key and no name hit, a local code search whose page holds a row, or which fails, answers and changes no table. |
| Services.SearchMiss | services.py:147-178 | When neither local search ends the lookup, the tables and the answer are those of the remote half for the search parameters. |
| Services.RemoteTablesTwice | services.py:163-178 | Repeating the remote half at the same instant changes no table any further, because what it stored is then a cache hit. |
| Services.SearchTablesTwice | services.py:99-178 | Repeating a search at the same instant changes no table any further. |
| Services.RemoteTablesStoresListed | services.py:163-178 | After an answer is fetched and saved, every listed rcept_no is stored and every stored document is kept. The answer is served from the cache for the next two hours, and statements, the id counter and accounts are untouched. |
| Services.SaveAllKeysMatch | services.py:360-381 | Saving keeps every stored document filed under its own rcept_no. |
| Services.SearchTablesKeeps | services.py:99-178 | A search keeps the store's invariant, never alters or removes a stored document, and never touches the statements, the id counter or the accounts. |
| Services.FinancialTablesKeeps | services.py:411-451 | A financial lookup changes no company or document, and every row of every other report stays as it was. |
| Services.FinancialTablesTwice | services.py:411-451 | Asking again for a report just fetched finds it stored, so the second call changes nothing. |
| Services.ReplaceAbsentReport | services.py:508-539 | Saving a report that has no rows keeps every stored row. The report then consists exactly of the ids first to first + n − 1, holding the items in list order. |
| Services.FinancialTablesFetch | services.py:443-449 | After a fresh successful fetch the report's rows are replaced at ids from the counter, the counter advances by the item count, each account name is used once, and the answer is cached for 24 hours. |
| Services.FinancialTablesValid | services.py:411-451 | A financial lookup keeps the store's invariant: every statement id lies below the counter. |
| DataLoader.SeedAccounts | data_loader.py:118-131 | After seeding, the account names are the old ones plus the listed ones. |
| DataLoader.SeedAccountsRows | data_loader.py:107-136 | Every listed name has a row; existing rows and their counts are untouched; a new row starts at usage count 1. |
| DataLoader.SeedAccountsIdempotent | data_loader.py:122-131 | Seeding twice, at any two times, gives the table seeding once gives. |
| DataLoader.SeedAccountsSnoc | data_loader.py:118-131 | Seeding one more name is one step of the seeding loop. |
| DataLoader.FinancialYears | data_loader.py:78-79 | The years are str(current − i) for i = 0, 1, 2, in that order. |
| DataLoader.FinancialYearsDistinct | data_loader.py:78-79 | The three years are different. |
| DataLoader.CompanyFinancialsInOrder | data_loader.py:76-95 | The annual reports are looked up for the current year first, then for the year before, then for the one before that. |
| DataLoader.FinancialsWithoutKey | data_loader.py:76-99 | Without an API key the annual lookups change no table. |
| DataLoader.PreloadWithoutKey | data_loader.py:27-51 | Without an API key the preload changes no table. |
| DataLoader.FinancialsKeeps | data_loader.py:76-99 | The annual lookups keep the store's invariant and the documents, and every statement row other than this company's annual reports of those years. |
| DataLoader.PreloadKeeps | data_loader.py:27-51 | The preload keeps the store's invariant, never alters or removes a stored document, and keeps every statement row other than the major companies' annual reports of the three years. |
| DataLoader.PreloadStep | data_loader.py:31-43 | One more company extends the preload by that company's disclosure search and annual-report lookups. |
| DataLoader.Loader.LoadPopularAccounts | data_loader.py:101-137 | The account table becomes the seeded table, and every other table is unchanged. |
| DataLoader.Loader.LoadCompanyFinancials | data_loader.py:76-99 | The new tables are those of looking up this company's annual report (11011) for str(current), str(current − 1) and str(current − 2), one after another, each by the service's one-call specification. A failed year does not stop the next. |
| DataLoader.Loader.LoadCompanyDisclosures | data_loader.py:53-74 | The new tables and the outcome are those of one search by this corp code between the two dates, type "A", page 1 of 50, by the service's one-call specification. |
| DataLoader.Loader.LoadMajorCompaniesData | data_loader.py:27-51 | The new tables are those of the ten major companies in list order, each given its disclosure search and then its three annual-report lookups. A company whose calls fail does not stop the next. |

## Left out

- HTTP, sessions and commits: the DART API is an abstract function. Each
  service method is one atomic step; a commit that fails, concurrency,
  `asyncio.sleep` and the `httpx` timeout are not modelled.
- The clock is the `now` parameter. `getDateString` and the preload's date
  range are parameters too (`dateAt`, `startDate`, `endDate`).
- Floating point: amounts are integers or exact decimals. `toFixed(1)` is
  exact rounding to the nearest tenth with halves up, so the binary rounding
  of a float at a tie is not modelled. `Intl.NumberFormat` is modelled only
  for whole numbers and for decimals rounded to three places.
- FinancialAnalysis.GrowthSign: states the sign and the shape of the text,
  not the numeric value of the percentage, because the source computes it in
  floating point.
- The model of `parseFloat` leaves out exponents and white space other than
  the characters it lists; the cells of the source are decimal texts.
- `_extract_amount`: the float parsing of element text is not modelled. An
  element carries its amount as an optional integer.
- XML parsing (`ET.fromstring`): a document is an optional sequence of
  elements in document order, and a parse error is `None`.
- The md5 and `json.dumps` of the cache key: the key is its pre-image, so
  the model rules out hash collisions.
- Lower-casing is ASCII only: `toLowerCase` and `lower` on other letters,
  SQLite LIKE wildcards in a company name, and its case-folding beyond ASCII
  are not modelled.
- Strings sort by code point, where JavaScript sorts by UTF-16 code unit.
  They differ only outside the Basic Multilingual Plane.
- The order of rows with equal sort keys is left open (any permutation that
  is ordered). A null `ord` sorts as the empty text.
- Financial statement ids come from a counter in the store, not from
  SQLite's rowid.
- `created_at` columns, `stock_code`, `modify_date` and `sector` are not
  modelled; `updated_at` and `last_used` are the `now` of the update.
- `_make_api_request` also writes `crtfc_key` into the caller's dictionary.
  The model passes the key to the remote call without modifying the caller's
  parameters.
- `get_popular_accounts` and `search_accounts` in services.py are not part
  of this model.
- `print` and `console.log` output, styled components, charts and icons are
  not modelled.
- The 200 ms delay before the suggestions hide on blur is not modelled.
- Exceptions other than the KeyError of a missing document field and the
  ZeroDivisionError of a page size of 0 are not modelled.
- The React query hooks (`useQuery`, `enabled`, `retry`) are not modelled.
  The search screen's `shouldSearch` flag stands for the query's `enabled`.
- XbrlParser.YearAt: the year pattern accepts only the ASCII digits 0-9,
  while Python's `\d` matches every Unicode decimal digit. So "FY２０２３"
  (full-width digits) gives "unknown" in the model where the source gives
  "２０２３".
- XbrlParser.FirstYearFrom: finds the first run of four ASCII digits only,
  as for XbrlParser.YearAt.
- XbrlParser.ExtractContext: "unknown" exactly when there is no run of four
  ASCII digits; runs of other Unicode decimal digits are not recognised, as
  for XbrlParser.YearAt.
- XbrlParser.ExtractContextFirst: the year is the first run of four ASCII
  digits, as for XbrlParser.YearAt.
- A document field is a `map<string, string>`, so a JSON null reads like a
  missing field. A null `rm`, for instance, is stored as "" where the source
  stores None.
- A KeyError part-way through a disclosure save leaves the rows already added
  pending in the Python session, where a later commit in the same session
  could store them. The model discards them: a failed save changes no table.
- The loader's per-call answers are discarded, as the source only prints
  them; the printing and the one-second pause between years are left out.
- XbrlParser.CollectFinancialData: an element's amount overwrites the
  account's entry for its year, as the source does. The `try/except` around
  the whole parse returns `{}` only for a parse error, which is the `None`
  document.

## Findings

| source | as written | input that shows it | evidently intended | confidence | as-written member | corrected member |
|---|---|---|---|---|---|---|
| xbrl_parser.py:187-191 | a sub-category with an empty detail list is given `details: {}` and `has_details: False` | any data: 현금및현금성자산 has an empty detail list | a node has a details mapping exactly when `has_details` is true, as the sample tree does | medium, not executed | XbrlParser.BuiltDetailsFlagMismatch | XbrlParser.BuiltIntendedInvariants |

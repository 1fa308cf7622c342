/**
 * The company search screen: the search parameters and quick filters, the
 * company-name autocomplete with its keyboard selection, and the date
 * formatting of the result list.
 */
module CompanySearch {
  import opened Common

  // ---------------------------------------------------------------------
  // Search parameters and quick filters
  // ---------------------------------------------------------------------

  /** A search parameter: the text inputs give strings, the defaults hold a number for `page_count`. */
  datatype ParamValue = Str(text: string) | Num(number: int)

  type Params = map<string, ParamValue>

  const DefaultParams: Params := map[
    "corp_code" := Str(""), "bgn_de" := Str(""), "end_de" := Str(""),
    "pblntf_ty" := Str(""), "corp_cls" := Str(""), "page_count" := Num(20)]

  /**
   * The parameters a quick filter lays over the current ones. `dateAt(d)` is
   * the date `d` days from today as the clock gives it (`getDateString`).
   */
  function QuickFilterParams(id: string, dateAt: int -> string): (r: Option<Params>)
    ensures r.Some? <==> id in {"recent_reports", "kospi_companies", "kosdaq_companies", "quarterly_reports"}
    ensures r.Some? ==> "pblntf_ty" in r.value && r.value["pblntf_ty"] == Str("A")
    ensures r.Some? ==> "page_count" in r.value && r.value["page_count"] == Num(50)
    ensures r.Some? ==> "end_de" in r.value && r.value["end_de"] == Str(dateAt(0))
  {
    if id == "recent_reports" then
      Some(map["pblntf_ty" := Str("A"), "bgn_de" := Str(dateAt(-30)), "end_de" := Str(dateAt(0)),
               "corp_cls" := Str(""), "page_count" := Num(50)])
    else if id == "kospi_companies" then
      Some(map["corp_cls" := Str("Y"), "pblntf_ty" := Str("A"), "bgn_de" := Str(dateAt(-90)),
               "end_de" := Str(dateAt(0)), "page_count" := Num(50)])
    else if id == "kosdaq_companies" then
      Some(map["corp_cls" := Str("K"), "pblntf_ty" := Str("A"), "bgn_de" := Str(dateAt(-90)),
               "end_de" := Str(dateAt(0)), "page_count" := Num(50)])
    else if id == "quarterly_reports" then
      Some(map["pblntf_ty" := Str("A"), "bgn_de" := Str(dateAt(-60)), "end_de" := Str(dateAt(0)),
               "page_count" := Num(50)])
    else None
  }

  /** `{...prev, ...overlay}`: the overlay wins on its keys, every other key keeps its value. */
  function Overlay(prev: Params, overlay: Params): (r: Params)
    ensures r.Keys == prev.Keys + overlay.Keys
    ensures forall k :: k in overlay ==> r[k] == overlay[k]
    ensures forall k :: k in prev && k !in overlay ==> r[k] == prev[k]
  {
    map k | k in prev.Keys + overlay.Keys :: if k in overlay then overlay[k] else prev[k]
  }

  /** The quarterly filter keeps whatever market class was chosen before; the others set it. */
  lemma QuarterlyKeepsMarket(prev: Params, dateAt: int -> string)
    ensures var f := QuickFilterParams("quarterly_reports", dateAt).value;
            "corp_cls" !in f && ("corp_cls" in prev ==> Overlay(prev, f)["corp_cls"] == prev["corp_cls"])
    ensures Overlay(prev, QuickFilterParams("kospi_companies", dateAt).value)["corp_cls"] == Str("Y")
    ensures Overlay(prev, QuickFilterParams("recent_reports", dateAt).value)["corp_cls"] == Str("")
  {
  }

  // ---------------------------------------------------------------------
  // Autocomplete
  // ---------------------------------------------------------------------

  predicate Matches(name: string, query: string)
  {
    IsSubstring(Lower(query), Lower(name))
  }

  /** The company names whose lower-case form contains the lower-case query, in list order. */
  function SuggestionsFor(names: seq<string>, query: string): (r: seq<string>)
    ensures |r| <= |names|
    ensures forall x :: x in r <==> x in names && Matches(x, query)
    decreases |names|
  {
    if names == [] then []
    else
      var rest := SuggestionsFor(names[1..], query);
      assert forall x :: x in names <==> x == names[0] || x in names[1..];
      (if Matches(names[0], query) then [names[0]] else []) + rest
  }

  /** Filtering a concatenation filters each part, so the suggestions keep the list order. */
  lemma {:induction false} SuggestionsConcat(a: seq<string>, b: seq<string>, query: string)
    ensures SuggestionsFor(a + b, query) == SuggestionsFor(a, query) + SuggestionsFor(b, query)
    decreases |a|
  {
    if a == [] {
      assert a + b == b;
    } else {
      assert (a + b)[0] == a[0] && (a + b)[1..] == a[1..] + b;
      SuggestionsConcat(a[1..], b, query);
    }
  }

  /** A company name typed in full is among its own suggestions. */
  lemma SuggestionsOfName(names: seq<string>, name: string)
    requires name in names
    ensures name in SuggestionsFor(names, name)
  {
    SubstringOfSelf(Lower(name));
  }

  /** ArrowDown: one further down, but never past the last suggestion. */
  function StepDown(selected: int, count: nat): (r: int)
    requires -1 <= selected < count
    ensures -1 <= r < count
    ensures selected < count - 1 ==> r == selected + 1
    ensures selected == count - 1 ==> r == selected
  {
    if selected < count - 1 then selected + 1 else selected
  }

  /** ArrowUp: one further up, but never above -1 (no selection). */
  function StepUp(selected: int): (r: int)
    ensures -1 <= r && (r < selected || r == -1)
    ensures selected > 0 ==> r == selected - 1
    ensures selected <= 0 ==> r == -1
  {
    if selected > 0 then selected - 1 else -1
  }

  /** From any valid selection, pressing ArrowDown often enough reaches the last suggestion and stays there. */
  lemma {:induction false} StepDownReachesLast(selected: int, count: nat, presses: nat)
    requires count > 0 && -1 <= selected < count
    requires presses >= count - 1 - selected
    ensures RepeatDown(selected, count, presses) == count - 1
    decreases presses
  {
    if presses > 0 {
      StepDownReachesLast(StepDown(selected, count), count, presses - 1);
    }
  }

  function RepeatDown(selected: int, count: nat, presses: nat): (r: int)
    requires -1 <= selected < count
    ensures -1 <= r < count
    decreases presses
  {
    if presses == 0 then selected else RepeatDown(StepDown(selected, count), count, presses - 1)
  }

  /** Pressing ArrowUp from any selection ends at -1 after enough presses. */
  lemma {:induction false} StepUpReachesNone(selected: int, presses: nat)
    requires -1 <= selected && presses >= selected + 1
    ensures RepeatUp(selected, presses) == -1
    decreases presses
  {
    if presses > 0 {
      StepUpReachesNone(StepUp(selected), presses - 1);
    }
  }

  function RepeatUp(selected: int, presses: nat): (r: int)
    requires -1 <= selected
    ensures -1 <= r <= selected
    decreases presses
  {
    if presses == 0 then selected else RepeatUp(StepUp(selected), presses - 1)
  }

  datatype Key = ArrowDown | ArrowUp | Enter | Escape | OtherKey

  // ---------------------------------------------------------------------
  // Dates
  // ---------------------------------------------------------------------

  /** `formatDate`: "YYYYMMDD" becomes "YYYY-MM-DD"; a missing value or one of another length is returned as it is. */
  function FormatDate(date: Option<string>): (r: Option<string>)
    ensures date.None? ==> r.None?
    ensures date.Some? && |date.value| != 8 ==> r == date
    ensures date.Some? && |date.value| == 8 ==>
      r.Some? && |r.value| == 10 && r.value[4] == '-' && r.value[7] == '-'
  {
    match date
    case None => None
    case Some(s) =>
      if |s| != 8 then date
      else Some(s[0..4] + "-" + s[4..6] + "-" + s[6..8])
  }

  /** Dropping the two dashes gives the eight characters back. */
  lemma FormatDateRoundTrip(s: string)
    requires |s| == 8
    ensures var r := FormatDate(Some(s)).value; r[..4] + r[5..7] + r[8..] == s
  {
    var r := FormatDate(Some(s)).value;
    assert r[..4] == s[0..4] && r[5..7] == s[4..6] && r[8..] == s[6..8];
    assert s == s[0..4] + s[4..6] + s[6..8];
  }

  // ---------------------------------------------------------------------
  // The screen state
  // ---------------------------------------------------------------------

  class SearchView {
    /** The company names offered to the autocomplete. */
    const companyNames: seq<string>
    var searchParams: Params
    var shouldSearch: bool
    var activeQuickFilter: string
    var searchQuery: string
    var suggestions: seq<string>
    var showSuggestions: bool
    var selectedSuggestion: int

    /** The selection is -1 (none) or the index of a suggestion. */
    predicate Valid()
      reads this
    {
      -1 <= selectedSuggestion < |suggestions|
    }

    constructor (names: seq<string>)
      ensures Valid()
      ensures companyNames == names && searchParams == DefaultParams
      ensures !shouldSearch && activeQuickFilter == "" && searchQuery == ""
      ensures suggestions == [] && !showSuggestions && selectedSuggestion == -1
    {
      companyNames := names;
      searchParams := DefaultParams;
      shouldSearch := false;
      activeQuickFilter := "";
      searchQuery := "";
      suggestions := [];
      showSuggestions := false;
      selectedSuggestion := -1;
    }

    /** Typing in a parameter input: that field changes and the quick filter is no longer active. */
    method HandleInputChange(name: string, value: string)
      requires Valid()
      modifies this
      ensures Valid()
      ensures searchParams == old(searchParams)[name := Str(value)] && activeQuickFilter == ""
      ensures shouldSearch == old(shouldSearch) && searchQuery == old(searchQuery)
      ensures suggestions == old(suggestions) && showSuggestions == old(showSuggestions)
      ensures selectedSuggestion == old(selectedSuggestion)
    {
      searchParams := searchParams[name := Str(value)];
      activeQuickFilter := "";
    }

    method HandleSubmit()
      requires Valid()
      modifies this
      ensures Valid() && shouldSearch
      ensures searchParams == old(searchParams) && activeQuickFilter == old(activeQuickFilter)
      ensures searchQuery == old(searchQuery) && suggestions == old(suggestions)
      ensures showSuggestions == old(showSuggestions) && selectedSuggestion == old(selectedSuggestion)
    {
      shouldSearch := true;
    }

    /** A known quick filter lays its parameters over the current ones and starts a search; an unknown id changes nothing. */
    method HandleQuickFilter(id: string, dateAt: int -> string)
      requires Valid()
      modifies this
      ensures Valid()
      ensures QuickFilterParams(id, dateAt).Some? ==>
        && searchParams == Overlay(old(searchParams), QuickFilterParams(id, dateAt).value)
        && activeQuickFilter == id && shouldSearch
      ensures QuickFilterParams(id, dateAt).None? ==>
        searchParams == old(searchParams) && activeQuickFilter == old(activeQuickFilter)
        && shouldSearch == old(shouldSearch)
      ensures searchQuery == old(searchQuery) && suggestions == old(suggestions)
      ensures showSuggestions == old(showSuggestions) && selectedSuggestion == old(selectedSuggestion)
    {
      var filter := QuickFilterParams(id, dateAt);
      if filter.Some? {
        searchParams := Overlay(searchParams, filter.value);
        activeQuickFilter := id;
        shouldSearch := true;
      }
    }

    /** Reset: default parameters, no query, no quick filter, no search, suggestions hidden. */
    method ClearFilters()
      requires Valid()
      modifies this
      ensures Valid()
      ensures searchParams == DefaultParams && activeQuickFilter == "" && searchQuery == ""
      ensures !shouldSearch && !showSuggestions
      ensures suggestions == old(suggestions) && selectedSuggestion == old(selectedSuggestion)
    {
      searchParams := DefaultParams;
      activeQuickFilter := "";
      searchQuery := "";
      shouldSearch := false;
      showSuggestions := false;
    }

    /**
     * Typing in the company-name box: a non-empty query shows the matching
     * names with nothing selected; an empty one only hides the list.
     */
    method HandleSearchInput(value: string)
      requires Valid()
      modifies this
      ensures Valid()
      ensures searchQuery == value && activeQuickFilter == ""
      ensures value != "" ==> suggestions == SuggestionsFor(companyNames, value) && showSuggestions && selectedSuggestion == -1
      ensures value == "" ==> !showSuggestions && suggestions == old(suggestions) && selectedSuggestion == old(selectedSuggestion)
      ensures searchParams == old(searchParams) && shouldSearch == old(shouldSearch)
    {
      searchQuery := value;
      activeQuickFilter := "";
      if |value| > 0 {
        suggestions := SuggestionsFor(companyNames, value);
        showSuggestions := true;
        selectedSuggestion := -1;
      } else {
        showSuggestions := false;
      }
    }

    /** A search runs only for a non-empty query; it also hides the suggestions. */
    method ExecuteSearch(query: string)
      requires Valid()
      modifies this
      ensures Valid()
      ensures query != "" ==> shouldSearch && !showSuggestions
      ensures query == "" ==> shouldSearch == old(shouldSearch) && showSuggestions == old(showSuggestions)
      ensures searchParams == old(searchParams) && activeQuickFilter == old(activeQuickFilter)
      ensures searchQuery == old(searchQuery) && suggestions == old(suggestions)
      ensures selectedSuggestion == old(selectedSuggestion)
    {
      if query != "" {
        shouldSearch := true;
        showSuggestions := false;
      }
    }

    /** Choosing a suggestion puts it in the box, hides the list and searches for it. */
    method HandleSuggestionClick(suggestion: string)
      requires Valid()
      modifies this
      ensures Valid()
      ensures searchQuery == suggestion && !showSuggestions
      ensures shouldSearch == (old(shouldSearch) || suggestion != "")
      ensures searchParams == old(searchParams) && activeQuickFilter == old(activeQuickFilter)
      ensures suggestions == old(suggestions) && selectedSuggestion == old(selectedSuggestion)
    {
      searchQuery := suggestion;
      showSuggestions := false;
      ExecuteSearch(suggestion);
    }

    /**
     * The keyboard on the company-name box. Nothing happens while the list is
     * hidden; the arrows move the selection within the list; Enter takes the
     * selected suggestion, or searches for the typed query; Escape hides the list.
     */
    method HandleKeyDown(key: Key)
      requires Valid()
      modifies this
      ensures Valid()
      ensures !old(showSuggestions) ==>
        && showSuggestions == old(showSuggestions) && selectedSuggestion == old(selectedSuggestion)
        && searchQuery == old(searchQuery) && shouldSearch == old(shouldSearch)
      ensures old(showSuggestions) && key == ArrowDown ==>
        selectedSuggestion == StepDown(old(selectedSuggestion), |old(suggestions)|) && showSuggestions
      ensures old(showSuggestions) && key == ArrowUp ==>
        selectedSuggestion == StepUp(old(selectedSuggestion)) && showSuggestions
      ensures old(showSuggestions) && key == Enter && old(selectedSuggestion) >= 0 ==>
        && searchQuery == old(suggestions)[old(selectedSuggestion)] && !showSuggestions
        && shouldSearch == (old(shouldSearch) || old(suggestions)[old(selectedSuggestion)] != "")
      ensures old(showSuggestions) && key == Enter && old(selectedSuggestion) < 0 ==>
        && searchQuery == old(searchQuery)
        && shouldSearch == (old(shouldSearch) || old(searchQuery) != "")
        && showSuggestions == (old(searchQuery) == "")
      ensures old(showSuggestions) && key == Escape ==>
        !showSuggestions && selectedSuggestion == old(selectedSuggestion)
      ensures old(showSuggestions) && key == OtherKey ==>
        showSuggestions && selectedSuggestion == old(selectedSuggestion)
      ensures key != Enter ==> searchQuery == old(searchQuery) && shouldSearch == old(shouldSearch)
      ensures key == Enter ==> selectedSuggestion == old(selectedSuggestion)
      ensures suggestions == old(suggestions) && searchParams == old(searchParams)
      ensures activeQuickFilter == old(activeQuickFilter)
    {
      if !showSuggestions {
        return;
      }
      match key
      case ArrowDown =>
        selectedSuggestion := StepDown(selectedSuggestion, |suggestions|);
      case ArrowUp =>
        selectedSuggestion := StepUp(selectedSuggestion);
      case Enter =>
        if selectedSuggestion >= 0 {
          HandleSuggestionClick(suggestions[selectedSuggestion]);
        } else if searchQuery != "" {
          ExecuteSearch(searchQuery);
        }
      case Escape =>
        showSuggestions := false;
      case OtherKey =>
    }

    /** Focusing the box shows the last suggestions again when there is a query. */
    method HandleFocus()
      requires Valid()
      modifies this
      ensures Valid()
      ensures showSuggestions == (old(showSuggestions) || searchQuery != "")
      ensures searchQuery == old(searchQuery) && suggestions == old(suggestions)
      ensures selectedSuggestion == old(selectedSuggestion) && shouldSearch == old(shouldSearch)
      ensures searchParams == old(searchParams) && activeQuickFilter == old(activeQuickFilter)
    {
      if searchQuery != "" {
        showSuggestions := true;
      }
    }

    /** Leaving the box hides the suggestions (after the source's short delay). */
    method HandleBlur()
      requires Valid()
      modifies this
      ensures Valid() && !showSuggestions
      ensures searchQuery == old(searchQuery) && suggestions == old(suggestions)
      ensures selectedSuggestion == old(selectedSuggestion) && shouldSearch == old(shouldSearch)
      ensures searchParams == old(searchParams) && activeQuickFilter == old(activeQuickFilter)
    {
      showSuggestions := false;
    }

    /** The highlighted suggestion, if any. */
    function Highlighted(): (r: Option<string>)
      reads this
      requires Valid()
      ensures r.Some? <==> selectedSuggestion >= 0
      ensures r.Some? ==> r.value in suggestions
    {
      if selectedSuggestion >= 0 then Some(suggestions[selectedSuggestion]) else None
    }
  }
}

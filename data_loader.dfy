/**
 * The start-up loader: seeding the popular account names and preloading the
 * disclosures and annual financial statements of the major companies.
 */
module DataLoader {
  import opened Common
  import opened Database
  import opened Services

  datatype MajorCompany = MajorCompany(corpCode: string, corpName: string, corpCls: string)

  /** The companies whose data is preloaded. */
  const MajorCompanies: seq<MajorCompany> := [
    MajorCompany("00126380", "삼성전자", "Y"),
    MajorCompany("00164779", "SK하이닉스", "Y"),
    MajorCompany("00373617", "LG에너지솔루션", "Y"),
    MajorCompany("00152141", "NAVER", "K"),
    MajorCompany("00237903", "카카오", "K"),
    MajorCompany("00126180", "현대자동차", "Y"),
    MajorCompany("00165142", "LG화학", "Y"),
    MajorCompany("00118809", "POSCO홀딩스", "Y"),
    MajorCompany("00434003", "한국전력공사", "Y"),
    MajorCompany("00204368", "KT&G", "Y")
  ]

  /** The account names seeded into the account cache. */
  const MajorAccounts: seq<string> := [
    "매출액", "영업이익", "당기순이익", "총자산", "부채총계",
    "자본총계", "현금및현금성자산", "재고자산", "유형자산",
    "무형자산", "매출채권", "매입채무", "단기차입금", "장기차입금",
    "자본금", "이익잉여금", "영업활동현금흐름", "투자활동현금흐름",
    "재무활동현금흐름", "매출원가", "판매비와관리비", "연구개발비",
    "감가상각비", "금융비용", "법인세비용", "주당순이익"
  ]

  /** The report code of the annual business report. */
  const AnnualReport: string := "11011"
  const DisclosureType: string := "A"
  const DisclosurePageCount: int := 50

  // ---------------------------------------------------------------------
  // Popular accounts
  // ---------------------------------------------------------------------

  /** The account table after seeding: a row with count 1 for every name that has none; existing rows kept. */
  function SeedAccounts(accounts: map<string, AccountEntry>, names: seq<string>, now: int): (r: map<string, AccountEntry>)
    ensures forall k :: k in r <==> k in accounts || k in names
  {
    map k | k in accounts.Keys + (set i | 0 <= i < |names| :: names[i]) ::
      if k in accounts then accounts[k] else AccountEntry(DefaultUsageCount, now)
  }

  /**
   * After seeding every name has a row, an existing row (and its count) is
   * untouched, and a new row starts with usage count 1.
   */
  lemma SeedAccountsRows(accounts: map<string, AccountEntry>, names: seq<string>, now: int)
    ensures forall n :: n in names ==> n in SeedAccounts(accounts, names, now)
    ensures forall k :: k in accounts ==> SeedAccounts(accounts, names, now)[k] == accounts[k]
    ensures forall k :: k in SeedAccounts(accounts, names, now) && k !in accounts ==>
      SeedAccounts(accounts, names, now)[k].usageCount == 1
  {
  }

  /** Seeding twice, at any two times, gives the table seeding once gives. */
  lemma SeedAccountsIdempotent(accounts: map<string, AccountEntry>, names: seq<string>, now: int, later: int)
    ensures SeedAccounts(SeedAccounts(accounts, names, now), names, later) == SeedAccounts(accounts, names, now)
  {
  }

  lemma SeedAccountsSnoc(accounts: map<string, AccountEntry>, names: seq<string>, name: string, now: int)
    ensures SeedAccounts(accounts, names + [name], now)
         == (var s := SeedAccounts(accounts, names, now);
             if name in s then s else s[name := AccountEntry(DefaultUsageCount, now)])
  {
    var t := names + [name];
    assert forall i :: 0 <= i < |names| ==> t[i] == names[i];
    assert t[|names|] == name;
  }

  // ---------------------------------------------------------------------
  // Years of the financial preload
  // ---------------------------------------------------------------------

  /** `[str(current_year - i) for i in range(3)]`. */
  function FinancialYears(currentYear: int): (years: seq<string>)
    ensures |years| == 3
    ensures forall i :: 0 <= i < 3 ==> years[i] == IntToString(currentYear - i)
  {
    [IntToString(currentYear), IntToString(currentYear - 1), IntToString(currentYear - 2)]
  }

  lemma NatToStringInjective(a: nat, b: nat)
    requires NatToString(a) == NatToString(b)
    ensures a == b
  {
    NatToStringRoundTrip(a);
    NatToStringRoundTrip(b);
  }

  /** The three requested years are different whenever the current year is at least 2. */
  lemma FinancialYearsDistinct(currentYear: int)
    requires currentYear >= 2
    ensures forall i, j :: 0 <= i < j < 3 ==> FinancialYears(currentYear)[i] != FinancialYears(currentYear)[j]
  {
    forall i, j | 0 <= i < j < 3 ensures FinancialYears(currentYear)[i] != FinancialYears(currentYear)[j] {
      if FinancialYears(currentYear)[i] == FinancialYears(currentYear)[j] {
        NatToStringInjective(currentYear - i, currentYear - j);
      }
    }
  }

  // ---------------------------------------------------------------------
  // What the preload does to the tables
  // ---------------------------------------------------------------------

  /** The tables after the annual reports of `years` are looked up one after another. */
  function FinancialsTables(t: Tables, apiKey: string, corpCode: string, years: seq<string>, now: int,
                            remote: (string, Params) -> Result<Response, string>): Tables
    decreases |years|
  {
    if years == [] then t
    else FinancialTables(FinancialsTables(t, apiKey, corpCode, years[..|years| - 1], now, remote),
                         apiKey, corpCode, years[|years| - 1], AnnualReport, now, remote)
  }

  /** The annual reports of one company are looked up for the current year first, then for the two years before it. */
  lemma CompanyFinancialsInOrder(t: Tables, apiKey: string, corpCode: string, currentYear: int, now: int,
                                 remote: (string, Params) -> Result<Response, string>)
    ensures FinancialsTables(t, apiKey, corpCode, FinancialYears(currentYear), now, remote)
         == var first := FinancialTables(t, apiKey, corpCode, IntToString(currentYear), AnnualReport, now, remote);
            var second := FinancialTables(first, apiKey, corpCode, IntToString(currentYear - 1), AnnualReport, now, remote);
            FinancialTables(second, apiKey, corpCode, IntToString(currentYear - 2), AnnualReport, now, remote)
  {
    var years := FinancialYears(currentYear);
    assert years[..|years| - 1] == years[..2];
    assert years[..2][..1] == years[..1];
    assert years[..1][..0] == [];
    assert FinancialsTables(t, apiKey, corpCode, years[..1], now, remote)
        == FinancialTables(t, apiKey, corpCode, years[0], AnnualReport, now, remote);
    assert FinancialsTables(t, apiKey, corpCode, years[..2], now, remote)
        == FinancialTables(FinancialsTables(t, apiKey, corpCode, years[..1], now, remote),
                           apiKey, corpCode, years[1], AnnualReport, now, remote);
  }

  /** The tables after `_load_company_disclosures`: one search by code over the date range, type "A", 50 per page. */
  function DisclosuresTables(t: Tables, apiKey: string, corpCode: string, startDate: string, endDate: string, now: int,
                             remote: (string, Params) -> Result<Response, string>): Tables
  {
    SearchTables(t, apiKey, Some(corpCode), None, Some(startDate), Some(endDate), Some(DisclosureType), None,
                 1, DisclosurePageCount, now, remote)
  }

  /** One company of the preload: its disclosures, then its three annual reports. */
  function CompanyTables(t: Tables, apiKey: string, corpCode: string, currentYear: int, startDate: string, endDate: string,
                         now: int, remote: (string, Params) -> Result<Response, string>): Tables
  {
    FinancialsTables(DisclosuresTables(t, apiKey, corpCode, startDate, endDate, now, remote),
                     apiKey, corpCode, FinancialYears(currentYear), now, remote)
  }

  /** The companies preloaded one after another, in list order. */
  function PreloadTables(t: Tables, apiKey: string, companies: seq<MajorCompany>, currentYear: int,
                         startDate: string, endDate: string, now: int,
                         remote: (string, Params) -> Result<Response, string>): Tables
    decreases |companies|
  {
    if companies == [] then t
    else CompanyTables(PreloadTables(t, apiKey, companies[..|companies| - 1], currentYear, startDate, endDate, now, remote),
                       apiKey, companies[|companies| - 1].corpCode, currentYear, startDate, endDate, now, remote)
  }

  /** Without an API key no annual report is fetched, so the lookups change nothing. */
  lemma {:induction false} FinancialsWithoutKey(t: Tables, corpCode: string, years: seq<string>, now: int,
                                                remote: (string, Params) -> Result<Response, string>)
    ensures FinancialsTables(t, "", corpCode, years, now, remote) == t
    decreases |years|
  {
    if years != [] {
      FinancialsWithoutKey(t, corpCode, years[..|years| - 1], now, remote);
    }
  }

  /** Without an API key the preload only reads: every table stays as it was. */
  lemma {:induction false} PreloadWithoutKey(t: Tables, companies: seq<MajorCompany>, currentYear: int,
                                             startDate: string, endDate: string, now: int,
                                             remote: (string, Params) -> Result<Response, string>)
    ensures PreloadTables(t, "", companies, currentYear, startDate, endDate, now, remote) == t
    decreases |companies|
  {
    if companies != [] {
      PreloadWithoutKey(t, companies[..|companies| - 1], currentYear, startDate, endDate, now, remote);
      FinancialsWithoutKey(t, companies[|companies| - 1].corpCode, FinancialYears(currentYear), now, remote);
    }
  }

  /** A statement row the lookups of one company for `years` may replace: that company's annual report of one of the years. */
  predicate LookedUp(s: FinancialStatement, corpCode: string, years: seq<string>)
  {
    s.corpCode == corpCode && s.reprtCode == AnnualReport && s.bsnsYear in years
  }

  /** The annual lookups of one company keep the invariant and every row they were not asked for. */
  lemma {:induction false} FinancialsKeeps(t: Tables, apiKey: string, corpCode: string, years: seq<string>, now: int,
                                           remote: (string, Params) -> Result<Response, string>)
    requires TablesValid(t)
    ensures var u := FinancialsTables(t, apiKey, corpCode, years, now, remote);
            && TablesValid(u) && u.documents == t.documents
            && forall id :: id in t.statements && !LookedUp(t.statements[id], corpCode, years) ==>
                 id in u.statements && u.statements[id] == t.statements[id]
    decreases |years|
  {
    if years != [] {
      var prefix := years[..|years| - 1];
      var year := years[|years| - 1];
      FinancialsKeeps(t, apiKey, corpCode, prefix, now, remote);
      var p := FinancialsTables(t, apiKey, corpCode, prefix, now, remote);
      FinancialTablesValid(p, apiKey, corpCode, year, AnnualReport, now, remote);
      FinancialTablesKeeps(p, apiKey, corpCode, year, AnnualReport, now, remote);
      forall id | id in t.statements && !LookedUp(t.statements[id], corpCode, years)
        ensures !LookedUp(t.statements[id], corpCode, prefix) && !IsReport(t.statements[id], corpCode, year, AnnualReport)
      {
      }
    }
  }

  /** A statement row the preload may replace: a listed company's annual report of one of the three years. */
  predicate Preloaded(s: FinancialStatement, companies: seq<MajorCompany>, currentYear: int)
  {
    exists i :: 0 <= i < |companies| && LookedUp(s, companies[i].corpCode, FinancialYears(currentYear))
  }

  /**
   * The preload keeps the store's invariant, never alters or removes a stored
   * document, and leaves every statement row it did not look up as it was.
   */
  lemma {:induction false} PreloadKeeps(t: Tables, apiKey: string, companies: seq<MajorCompany>, currentYear: int,
                                        startDate: string, endDate: string, now: int,
                                        remote: (string, Params) -> Result<Response, string>)
    requires TablesValid(t)
    ensures var u := PreloadTables(t, apiKey, companies, currentYear, startDate, endDate, now, remote);
            && TablesValid(u)
            && (forall k :: k in t.documents ==> k in u.documents && u.documents[k] == t.documents[k])
            && (forall id :: id in t.statements && !Preloaded(t.statements[id], companies, currentYear) ==>
                  id in u.statements && u.statements[id] == t.statements[id])
    decreases |companies|
  {
    if companies != [] {
      var prefix := companies[..|companies| - 1];
      var c := companies[|companies| - 1];
      PreloadKeeps(t, apiKey, prefix, currentYear, startDate, endDate, now, remote);
      var p := PreloadTables(t, apiKey, prefix, currentYear, startDate, endDate, now, remote);
      SearchTablesKeeps(p, apiKey, Some(c.corpCode), None, Some(startDate), Some(endDate), Some(DisclosureType), None,
                        1, DisclosurePageCount, now, remote);
      var d := DisclosuresTables(p, apiKey, c.corpCode, startDate, endDate, now, remote);
      FinancialsKeeps(d, apiKey, c.corpCode, FinancialYears(currentYear), now, remote);
      forall id | id in t.statements && !Preloaded(t.statements[id], companies, currentYear)
        ensures !Preloaded(t.statements[id], prefix, currentYear)
        ensures !LookedUp(t.statements[id], c.corpCode, FinancialYears(currentYear))
      {
        assert companies[|companies| - 1] == c;
        forall i | 0 <= i < |prefix| ensures !LookedUp(t.statements[id], prefix[i].corpCode, FinancialYears(currentYear)) {
          assert prefix[i] == companies[i];
        }
      }
    }
  }

  /** One more company extends the preload by that company's lookups. */
  lemma PreloadStep(t: Tables, apiKey: string, companies: seq<MajorCompany>, i: nat, currentYear: int,
                    startDate: string, endDate: string, now: int, remote: (string, Params) -> Result<Response, string>)
    requires i < |companies|
    ensures PreloadTables(t, apiKey, companies[..i + 1], currentYear, startDate, endDate, now, remote)
         == CompanyTables(PreloadTables(t, apiKey, companies[..i], currentYear, startDate, endDate, now, remote),
                          apiKey, companies[i].corpCode, currentYear, startDate, endDate, now, remote)
  {
    assert companies[..i + 1][..i] == companies[..i];
  }

  class Loader {
    const service: DartApiService

    constructor (service: DartApiService)
      ensures this.service == service
    {
      this.service := service;
    }

    /** `load_popular_accounts`: add each missing name with count 1, leave the other rows alone. */
    method LoadPopularAccounts(now: int)
      requires service.db.Valid()
      modifies service.db
      ensures service.db.Valid()
      ensures service.db.accounts == SeedAccounts(old(service.db.accounts), MajorAccounts, now)
      ensures service.db.companies == old(service.db.companies) && service.db.documents == old(service.db.documents)
      ensures service.db.statements == old(service.db.statements) && service.db.nextStatementId == old(service.db.nextStatementId)
      ensures service.db.apiCache == old(service.db.apiCache)
    {
      var db := service.db;
      ghost var start := db.accounts;
      var i := 0;
      while i < |MajorAccounts|
        invariant 0 <= i <= |MajorAccounts|
        invariant db.accounts == SeedAccounts(start, MajorAccounts[..i], now)
        invariant db.Valid()
        invariant db.companies == old(db.companies) && db.documents == old(db.documents)
        invariant db.statements == old(db.statements) && db.nextStatementId == old(db.nextStatementId)
        invariant db.apiCache == old(db.apiCache)
      {
        var name := MajorAccounts[i];
        SeedAccountsSnoc(start, MajorAccounts[..i], name, now);
        assert MajorAccounts[..i + 1] == MajorAccounts[..i] + [name];
        if name !in db.accounts {
          db.accounts := db.accounts[name := AccountEntry(DefaultUsageCount, now)];
        }
        i := i + 1;
      }
      assert MajorAccounts[..i] == MajorAccounts;
    }

    /**
     * `_load_company_financials`: the annual report of the current year and
     * the two before it, in that order; a failed year does not stop the next.
     */
    method LoadCompanyFinancials(corpCode: string, currentYear: int, now: int,
                                 remote: (string, Params) -> Result<Response, string>)
      requires service.db.Valid()
      modifies service.db
      ensures service.db.Valid()
      ensures service.db.Snapshot()
           == FinancialsTables(old(service.db.Snapshot()), service.apiKey, corpCode, FinancialYears(currentYear), now, remote)
    {
      var years := FinancialYears(currentYear);
      ghost var start := service.db.Snapshot();
      var i := 0;
      while i < |years|
        invariant 0 <= i <= |years|
        invariant service.db.Valid()
        invariant service.db.Snapshot() == FinancialsTables(start, service.apiKey, corpCode, years[..i], now, remote)
      {
        assert years[..i + 1][..i] == years[..i];
        var _ := service.GetFinancialDataOptimized(corpCode, years[i], AnnualReport, now, remote);
        i := i + 1;
      }
      assert years[..i] == years;
    }

    /** `_load_company_disclosures`: the periodic disclosures between the two dates, 50 per page; failures are ignored. */
    method LoadCompanyDisclosures(corpCode: string, startDate: string, endDate: string, now: int,
                                  remote: (string, Params) -> Result<Response, string>)
      returns (outcome: Result<Response, string>)
      requires service.db.Valid()
      modifies service.db
      ensures service.db.Valid()
      ensures service.db.Snapshot()
           == DisclosuresTables(old(service.db.Snapshot()), service.apiKey, corpCode, startDate, endDate, now, remote)
      ensures SearchAnswer(old(service.db.Snapshot()), service.apiKey, Some(corpCode), None, Some(startDate), Some(endDate),
                           Some(DisclosureType), None, 1, DisclosurePageCount, now, remote, outcome)
    {
      outcome := service.SearchCompaniesOptimized(Some(corpCode), None, Some(startDate), Some(endDate), Some(DisclosureType), None,
                                                  1, DisclosurePageCount, now, remote);
    }

    /**
     * `load_major_companies_data`: disclosures, then financials, for every
     * major company in order; an error for one company never ends the loop.
     */
    method LoadMajorCompaniesData(currentYear: int, startDate: string, endDate: string, now: int,
                                  remote: (string, Params) -> Result<Response, string>)
      requires service.db.Valid()
      modifies service.db
      ensures service.db.Valid()
      ensures service.db.Snapshot()
           == PreloadTables(old(service.db.Snapshot()), service.apiKey, MajorCompanies, currentYear, startDate, endDate, now, remote)
    {
      ghost var start := service.db.Snapshot();
      var i := 0;
      while i < |MajorCompanies|
        invariant 0 <= i <= |MajorCompanies|
        invariant service.db.Valid()
        invariant service.db.Snapshot()
               == PreloadTables(start, service.apiKey, MajorCompanies[..i], currentYear, startDate, endDate, now, remote)
      {
        PreloadStep(start, service.apiKey, MajorCompanies, i, currentYear, startDate, endDate, now, remote);
        var company := MajorCompanies[i];
        var _ := LoadCompanyDisclosures(company.corpCode, startDate, endDate, now, remote);
        LoadCompanyFinancials(company.corpCode, currentYear, now, remote);
        i := i + 1;
      }
      assert MajorCompanies[..i] == MajorCompanies;
    }
  }
}

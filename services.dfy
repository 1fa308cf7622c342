/**
 * The DART API service of the backend: paging arithmetic, the response
 * cache, the API request with its missing-key answer, the account usage
 * counter, and the two ways API results are saved.
 */
module Services {
  import opened Common
  import opened Database

  // ---------------------------------------------------------------------
  // Paging
  // ---------------------------------------------------------------------

  /** Python's `//`: the quotient rounded towards negative infinity. */
  function FloorDiv(a: int, b: int): (q: int)
    requires b != 0
    ensures b > 0 ==> b * q <= a < b * q + b
    ensures b < 0 ==> b * q >= a > b * q + b
  {
    if b > 0 then a / b else (-a) / (-b)
  }

  /** `total_page = (total_count + page_count - 1) // page_count`; a page size of 0 raises ZeroDivisionError. */
  function TotalPage(totalCount: nat, pageCount: int): (r: Option<int>)
    ensures r.None? <==> pageCount == 0
  {
    if pageCount == 0 then None else Some(FloorDiv(totalCount + pageCount - 1, pageCount))
  }

  /** With a positive page size the page count is the ceiling of total / size. */
  lemma TotalPageCeiling(totalCount: nat, pageCount: int)
    requires pageCount > 0
    ensures var t := TotalPage(totalCount, pageCount).value;
            && t >= 0
            && (totalCount == 0 ==> t == 0)
            && (totalCount > 0 ==> (t - 1) * pageCount < totalCount <= t * pageCount)
  {
    var t := TotalPage(totalCount, pageCount).value;
    assert pageCount * t <= totalCount + pageCount - 1 < pageCount * t + pageCount;
    if totalCount == 0 {
      assert (pageCount - 1) / pageCount == 0;
    } else {
      assert (t - 1) * pageCount == t * pageCount - pageCount;
    }
  }

  /** `offset = (page_no - 1) * page_count`. */
  function Offset(pageNo: int, pageCount: int): int
  {
    (pageNo - 1) * pageCount
  }

  /** Where `OFFSET offset` starts in `n` rows: SQLite reads a negative offset as 0. */
  function PageStart(n: nat, pageNo: int, pageCount: int): (s: nat)
    ensures s <= n
  {
    var o := Offset(pageNo, pageCount);
    if o < 0 then 0 else if o > n then n else o
  }

  /** Where `LIMIT page_count` stops; SQLite reads a negative limit as no limit. */
  function PageEnd(n: nat, pageNo: int, pageCount: int): (e: nat)
    ensures PageStart(n, pageNo, pageCount) <= e <= n
  {
    var s := PageStart(n, pageNo, pageCount);
    if pageCount < 0 || s + pageCount > n then n else s + pageCount
  }

  /** The rows `OFFSET (page_no - 1) * page_count LIMIT page_count` selects. */
  function PageRows<T>(rows: seq<T>, pageNo: int, pageCount: int): (r: seq<T>)
    ensures pageCount >= 0 ==> |r| <= pageCount
  {
    rows[PageStart(|rows|, pageNo, pageCount)..PageEnd(|rows|, pageNo, pageCount)]
  }

  /** Page 1 starts at the first row. */
  lemma FirstPage<T>(rows: seq<T>, pageCount: int)
    requires pageCount >= 0
    ensures PageStart(|rows|, 1, pageCount) == 0
    ensures PageRows(rows, 1, pageCount) == rows[..PageEnd(|rows|, 1, pageCount)]
  {
  }

  /** Each page ends where the next one starts, so consecutive pages share no row. */
  lemma PagesAdjacent(n: nat, pageNo: int, pageCount: int)
    requires pageNo >= 1 && pageCount > 0
    ensures PageEnd(n, pageNo, pageCount) == PageStart(n, pageNo + 1, pageCount)
  {
    assert Offset(pageNo + 1, pageCount) == Offset(pageNo, pageCount) + pageCount;
    assert Offset(pageNo, pageCount) >= 0 by {
      assert (pageNo - 1) * pageCount >= 0;
    }
  }

  /** Pages 1 to k, one after another. */
  function FirstPages<T>(rows: seq<T>, k: nat, pageCount: int): seq<T>
  {
    if k == 0 then [] else FirstPages(rows, k - 1, pageCount) + PageRows(rows, k, pageCount)
  }

  /** Pages 1 to k together are exactly the first k · page_count rows (or all of them). */
  lemma {:induction false} FirstPagesPrefix<T>(rows: seq<T>, k: nat, pageCount: int)
    requires pageCount > 0
    ensures FirstPages(rows, k, pageCount) == rows[..PageStart(|rows|, k + 1, pageCount)]
  {
    if k == 0 {
      assert PageStart(|rows|, 1, pageCount) == 0;
    } else {
      FirstPagesPrefix(rows, k - 1, pageCount);
      PagesAdjacent(|rows|, k, pageCount);
      var s := PageStart(|rows|, k, pageCount);
      var e := PageEnd(|rows|, k, pageCount);
      assert rows[..s] + rows[s..e] == rows[..e];
    }
  }

  /** The answer of a local search: the requested page of the matching rows, with the counts. */
  function PagedResponse(matches: seq<Record>, pageNo: int, pageCount: int, message: string): (r: Result<Response, string>)
    ensures pageCount == 0 <==> r.Err?
    ensures r.Ok? ==> r.value.status == "000" && r.value.items == PageRows(matches, pageNo, pageCount)
    ensures r.Ok? ==> r.value.paging == Some(Paging(pageNo, pageCount, |matches|, TotalPage(|matches|, pageCount).value))
  {
    var total := TotalPage(|matches|, pageCount);
    if total.None? then Err("ZeroDivisionError")
    else Ok(Response("000", message, PageRows(matches, pageNo, pageCount), Some(Paging(pageNo, pageCount, |matches|, total.value))))
  }

  // ---------------------------------------------------------------------
  // ORDER BY on a text column
  // ---------------------------------------------------------------------

  /** `a` may come before `b` when ordering by `key`, ascending or descending (binary text comparison). */
  predicate InOrder<T>(a: T, b: T, key: T -> string, descending: bool)
  {
    if descending then StrLe(key(b), key(a)) else StrLe(key(a), key(b))
  }

  predicate SortedBy<T>(s: seq<T>, key: T -> string, descending: bool)
  {
    forall i :: 0 < i < |s| ==> InOrder(s[i - 1], s[i], key, descending)
  }

  function InsertBy<T>(x: T, s: seq<T>, key: T -> string, descending: bool): (r: seq<T>)
    ensures multiset(r) == multiset(s) + multiset{x}
    ensures r[0] == x || (s != [] && r[0] == s[0])
  {
    if s == [] || InOrder(x, s[0], key, descending) then [x] + s
    else
      assert s == [s[0]] + s[1..];
      [s[0]] + InsertBy(x, s[1..], key, descending)
  }

  lemma {:induction false} InsertBySorted<T>(x: T, s: seq<T>, key: T -> string, descending: bool)
    requires SortedBy(s, key, descending)
    ensures SortedBy(InsertBy(x, s, key, descending), key, descending)
  {
    if s != [] && !InOrder(x, s[0], key, descending) {
      StrLeTotal(key(x), key(s[0]));
      assert SortedBy(s[1..], key, descending) by {
        forall i | 0 < i < |s[1..]| ensures InOrder(s[1..][i - 1], s[1..][i], key, descending) {
          assert s[1..][i - 1] == s[i] && s[1..][i] == s[i + 1];
        }
      }
      InsertBySorted(x, s[1..], key, descending);
      var r := InsertBy(x, s, key, descending);
      var tail := InsertBy(x, s[1..], key, descending);
      assert r == [s[0]] + tail;
      forall i | 0 < i < |r| ensures InOrder(r[i - 1], r[i], key, descending) {
        if i == 1 {
          assert r[1] == tail[0];
          if s[1..] != [] { assert s[1..][0] == s[1]; }
        } else {
          assert r[i - 1] == tail[i - 2] && r[i] == tail[i - 1];
        }
      }
    }
  }

  /** The rows in the order `ORDER BY key` returns them; rows with equal keys may come in any order. */
  function SortBy<T>(s: seq<T>, key: T -> string, descending: bool): (r: seq<T>)
    ensures multiset(r) == multiset(s)
  {
    if s == [] then [] else
      assert s == [s[0]] + s[1..];
      InsertBy(s[0], SortBy(s[1..], key, descending), key, descending)
  }

  /** The result of `SortBy` is ordered and is a permutation of its input. */
  lemma {:induction false} SortBySorted<T>(s: seq<T>, key: T -> string, descending: bool)
    ensures SortedBy(SortBy(s, key, descending), key, descending)
    ensures multiset(SortBy(s, key, descending)) == multiset(s)
  {
    if s != [] {
      SortBySorted(s[1..], key, descending);
      InsertBySorted(s[0], SortBy(s[1..], key, descending), key, descending);
    }
  }

  // ---------------------------------------------------------------------
  // Response cache
  // ---------------------------------------------------------------------

  const ApiKeyParam: string := "crtfc_key"

  /** `_generate_cache_key`: the endpoint and the parameters without the API key. */
  function GenerateCacheKey(endpoint: string, params: Params): (k: CacheKey)
    ensures k.endpoint == endpoint && ApiKeyParam !in k.params
    ensures forall p :: p != ApiKeyParam ==> (p in k.params <==> p in params)
    ensures forall p :: p in k.params ==> k.params[p] == params[p]
  {
    CacheKey(endpoint, params - {ApiKeyParam})
  }

  /** The API key never changes the cache key. */
  lemma CacheKeyIgnoresApiKey(endpoint: string, params: Params, apiKey: Value)
    ensures GenerateCacheKey(endpoint, params[ApiKeyParam := apiKey]) == GenerateCacheKey(endpoint, params)
  {
    assert params[ApiKeyParam := apiKey] - {ApiKeyParam} == params - {ApiKeyParam};
  }

  /** Two requests share a cache key exactly when they agree on the endpoint and on every other parameter. */
  lemma CacheKeyInjective(e1: string, p1: Params, e2: string, p2: Params)
    ensures GenerateCacheKey(e1, p1) == GenerateCacheKey(e2, p2) <==> e1 == e2 && p1 - {ApiKeyParam} == p2 - {ApiKeyParam}
  {
  }

  /** `_get_cached_response`: the stored data, but only while `expires_at > now`. */
  function CachedResponseFor(cache: map<CacheKey, CachedResponse>, key: CacheKey, now: int): (r: Option<Response>)
    ensures r.Some? <==> key in cache && cache[key].expiresAt > now
    ensures r.Some? ==> r.value == cache[key].data
  {
    if key in cache && cache[key].expiresAt > now then Some(cache[key].data) else None
  }

  const SecondsPerHour: int := 3600

  /** `_cache_response`: the key's one entry now holds the data, expiring `hours` from now. */
  function CacheUpsert(cache: map<CacheKey, CachedResponse>, key: CacheKey, data: Response, now: int, hours: int): (r: map<CacheKey, CachedResponse>)
    ensures r.Keys == cache.Keys + {key}
    ensures r[key] == CachedResponse(data, now + hours * SecondsPerHour)
    ensures forall k :: k in cache && k != key ==> r[k] == cache[k]
  {
    cache[key := CachedResponse(data, now + hours * SecondsPerHour)]
  }

  /** What was just cached is returned until it expires, and no other key's answer changes. */
  lemma CacheUpsertThenGet(cache: map<CacheKey, CachedResponse>, key: CacheKey, data: Response, now: int, hours: int, later: int)
    requires now <= later < now + hours * SecondsPerHour
    ensures CachedResponseFor(CacheUpsert(cache, key, data, now, hours), key, later) == Some(data)
    ensures forall k :: k != key ==>
      CachedResponseFor(CacheUpsert(cache, key, data, now, hours), k, later) == CachedResponseFor(cache, k, later)
  {
  }

  /** An entry expiring exactly now survives the cleanup but is already a cache miss. */
  lemma ExpiryBoundary(cache: map<CacheKey, CachedResponse>, key: CacheKey, now: int)
    requires key in cache && cache[key].expiresAt == now
    ensures key in Cleanup(cache, now)
    ensures CachedResponseFor(cache, key, now) == None
  {
  }

  /** Cleaning up never changes what a lookup at the same instant or later returns. */
  lemma CleanupPreservesLookups(cache: map<CacheKey, CachedResponse>, now: int, later: int, key: CacheKey)
    requires now <= later
    ensures CachedResponseFor(Cleanup(cache, now), key, later) == CachedResponseFor(cache, key, later)
  {
  }

  // ---------------------------------------------------------------------
  // The API request
  // ---------------------------------------------------------------------

  /** The answer when no API key is configured. */
  const MissingKeyResponse: Response := Response("013", "인증키가 누락되었습니다.", [], None)

  /**
   * `_make_api_request`. `remote(endpoint, params)` is the HTTP GET of the
   * endpoint; an error status or a transport failure is an `Err`.
   */
  function MakeApiRequest(apiKey: string, endpoint: string, params: Params,
                          remote: (string, Params) -> Result<Response, string>): (r: Result<Response, string>)
    ensures apiKey == "" ==> r == Ok(MissingKeyResponse)
    ensures apiKey != "" ==> r == remote(endpoint, params[ApiKeyParam := Text(apiKey)])
  {
    if apiKey == "" then Ok(MissingKeyResponse)
    else remote(endpoint, params[ApiKeyParam := Text(apiKey)])
  }

  /** Without a key no request is made: the outcome does not depend on the remote side at all. */
  lemma NoRequestWithoutKey(endpoint: string, params: Params,
                            remote1: (string, Params) -> Result<Response, string>,
                            remote2: (string, Params) -> Result<Response, string>)
    ensures MakeApiRequest("", endpoint, params, remote1) == MakeApiRequest("", endpoint, params, remote2)
    ensures MakeApiRequest("", endpoint, params, remote1).value.items == []
  {
  }

  /** `data.get('status') == '000' and data.get('list')`. */
  predicate Succeeded(data: Response)
  {
    data.status == "000" && data.items != []
  }

  // ---------------------------------------------------------------------
  // Account usage counter
  // ---------------------------------------------------------------------

  /** The distinct non-empty account names of a statement list. */
  function AccountNamesIn(statements: seq<Record>): (names: set<string>)
    ensures forall x :: x in names <==> exists i :: 0 <= i < |statements| && HasText(statements[i], "account_nm") && statements[i]["account_nm"] == x
  {
    set i | 0 <= i < |statements| && HasText(statements[i], "account_nm") :: statements[i]["account_nm"]
  }

  lemma AccountNamesSnoc(statements: seq<Record>, s: Record)
    ensures AccountNamesIn(statements + [s])
      == AccountNamesIn(statements) + (if HasText(s, "account_nm") then {s["account_nm"]} else {})
  {
    var t := statements + [s];
    assert t[|statements|] == s;
    forall x | x in AccountNamesIn(statements) ensures x in AccountNamesIn(t) {
      var i :| 0 <= i < |statements| && HasText(statements[i], "account_nm") && statements[i]["account_nm"] == x;
      assert t[i] == statements[i];
    }
    forall x | x in AccountNamesIn(t) ensures x in AccountNamesIn(statements) || (HasText(s, "account_nm") && x == s["account_nm"]) {
      var i :| 0 <= i < |t| && HasText(t[i], "account_nm") && t[i]["account_nm"] == x;
      if i < |statements| { assert t[i] == statements[i]; }
    }
  }

  /** A name that repeats in the input still counts once. */
  lemma AccountNamesRepeated(statements: seq<Record>)
    ensures AccountNamesIn(statements + statements) == AccountNamesIn(statements)
  {
    var t := statements + statements;
    forall x | x in AccountNamesIn(t) ensures x in AccountNamesIn(statements) {
      var i :| 0 <= i < |t| && HasText(t[i], "account_nm") && t[i]["account_nm"] == x;
      if i >= |statements| { assert t[i] == statements[i - |statements|]; } else { assert t[i] == statements[i]; }
    }
    forall x | x in AccountNamesIn(statements) ensures x in AccountNamesIn(t) {
      var i :| 0 <= i < |statements| && HasText(statements[i], "account_nm") && statements[i]["account_nm"] == x;
      assert t[i] == statements[i];
    }
  }

  /** The first loop of `_update_account_cache`: the set of non-empty `account_nm` values. */
  method DistinctAccountNames(statements: seq<Record>) returns (names: set<string>)
    ensures names == AccountNamesIn(statements)
  {
    names := {};
    var i := 0;
    while i < |statements|
      invariant 0 <= i <= |statements|
      invariant names == AccountNamesIn(statements[..i])
    {
      AccountNamesSnoc(statements[..i], statements[i]);
      assert statements[..i + 1] == statements[..i] + [statements[i]];
      if HasText(statements[i], "account_nm") {
        names := names + {statements[i]["account_nm"]};
      }
      i := i + 1;
    }
    assert statements[..i] == statements;
  }

  /** The account table after one use of each name: +1 for a known name, a new row with count 1 otherwise. */
  function AccountsAfterUse(accounts: map<string, AccountEntry>, names: set<string>, now: int): (r: map<string, AccountEntry>)
    ensures r.Keys == accounts.Keys + names
    ensures forall k :: k in accounts && k !in names ==> r[k] == accounts[k]
  {
    map k | k in accounts.Keys + names ::
      if k !in names then accounts[k]
      else if k in accounts then AccountEntry(accounts[k].usageCount + 1, now)
      else AccountEntry(DefaultUsageCount, now)
  }

  lemma AccountsAfterUseAdd(accounts: map<string, AccountEntry>, done: set<string>, name: string, now: int)
    requires name !in done
    ensures AccountsAfterUse(accounts, done + {name}, now)
         == AccountsAfterUse(accounts, done, now)[name :=
              if name in accounts then AccountEntry(accounts[name].usageCount + 1, now) else AccountEntry(DefaultUsageCount, now)]
  {
  }

  /** One more pending name, as the update loop applies it to the rows so far. */
  lemma UseOneName(start: map<string, AccountEntry>, names: set<string>, remaining: set<string>, name: string, now: int)
    requires remaining <= names && name in remaining
    ensures var r := AccountsAfterUse(start, names - remaining, now);
      AccountsAfterUse(start, names - (remaining - {name}), now)
        == if name in r then r[name := AccountEntry(r[name].usageCount + 1, now)] else r[name := AccountEntry(DefaultUsageCount, now)]
  {
    AccountsAfterUseAdd(start, names - remaining, name, now);
    assert names - (remaining - {name}) == (names - remaining) + {name};
  }

  /**
   * Every distinct non-empty name of the input gains exactly one use, however
   * often it occurs; unseen names start at 1; every other row is unchanged.
   */
  lemma UsageCounted(accounts: map<string, AccountEntry>, statements: seq<Record>, now: int)
    ensures var r := AccountsAfterUse(accounts, AccountNamesIn(statements), now);
            && r.Keys == accounts.Keys + AccountNamesIn(statements)
            && (forall k :: k in AccountNamesIn(statements) && k in accounts ==> r[k].usageCount == accounts[k].usageCount + 1)
            && (forall k :: k in AccountNamesIn(statements) && k !in accounts ==> r[k].usageCount == 1)
            && (forall k :: k in accounts && k !in AccountNamesIn(statements) ==> r[k] == accounts[k])
    ensures AccountsAfterUse(accounts, AccountNamesIn(statements + statements), now)
         == AccountsAfterUse(accounts, AccountNamesIn(statements), now)
  {
    AccountNamesRepeated(statements);
  }

  // ---------------------------------------------------------------------
  // Financial statements
  // ---------------------------------------------------------------------

  predicate IsReport(s: FinancialStatement, corpCode: string, bsnsYear: string, reprtCode: string)
  {
    s.corpCode == corpCode && s.bsnsYear == bsnsYear && s.reprtCode == reprtCode
  }

  /** The row saved for one API list item. */
  function StatementFrom(r: Record, corpCode: string, bsnsYear: string, reprtCode: string): (s: FinancialStatement)
    ensures IsReport(s, corpCode, bsnsYear, reprtCode)
    ensures s.accountNm == GetOr(r, "account_nm", "") && s.thstrmAmount == Get(r, "thstrm_amount")
  {
    FinancialStatement(
      corpCode, bsnsYear, reprtCode,
      Get(r, "sj_div"), Get(r, "sj_nm"), Get(r, "account_id"), GetOr(r, "account_nm", ""),
      Get(r, "account_detail"), Get(r, "thstrm_nm"), Get(r, "thstrm_amount"),
      Get(r, "frmtrm_nm"), Get(r, "frmtrm_amount"), Get(r, "bfefrmtrm_nm"), Get(r, "bfefrmtrm_amount"),
      Get(r, "ord"), Get(r, "currency"))
  }

  /** The ids of the rows of one report. */
  function ReportIds(statements: map<nat, FinancialStatement>, corpCode: string, bsnsYear: string, reprtCode: string): set<nat>
  {
    set id | id in statements && IsReport(statements[id], corpCode, bsnsYear, reprtCode)
  }

  function Put(r: Record, field: string, value: Option<string>): Record
  {
    if value.Some? then r[field := value.value] else r
  }

  /** A saved row as a list item (null fields left out). */
  function StatementRecord(s: FinancialStatement): Record
  {
    var r := map["account_nm" := s.accountNm];
    var r := Put(r, "sj_div", s.sjDiv);
    var r := Put(r, "sj_nm", s.sjNm);
    var r := Put(r, "account_id", s.accountId);
    var r := Put(r, "account_detail", s.accountDetail);
    var r := Put(r, "thstrm_nm", s.thstrmNm);
    var r := Put(r, "thstrm_amount", s.thstrmAmount);
    var r := Put(r, "frmtrm_nm", s.frmtrmNm);
    var r := Put(r, "frmtrm_amount", s.frmtrmAmount);
    var r := Put(r, "bfefrmtrm_nm", s.bfefrmtrmNm);
    var r := Put(r, "bfefrmtrm_amount", s.bfefrmtrmAmount);
    var r := Put(r, "ord", s.ord);
    Put(r, "currency", s.currency)
  }

  /** `ORDER BY ord`: the display order, as text; a null order is taken as the empty text. */
  function OrdKey(s: FinancialStatement): string
  {
    if s.ord.Some? then s.ord.value else ""
  }

  /** `_get_financial_data_local`'s answer: status "000" when there are rows, "013" otherwise. */
  function LocalFinancialResponse(rows: seq<FinancialStatement>): (r: Response)
    ensures r.status == "000" <==> rows != []
    ensures r.status == "013" <==> rows == []
    ensures |r.items| == |rows| && forall i :: 0 <= i < |rows| ==> r.items[i] == StatementRecord(rows[i])
    ensures r.paging.None?
  {
    var items := seq(|rows|, i requires 0 <= i < |rows| => StatementRecord(rows[i]));
    if rows != [] then Response("000", "정상", items, None)
    else Response("013", "조회된 데이타가 없습니다.", items, None)
  }

  // ---------------------------------------------------------------------
  // Disclosure documents
  // ---------------------------------------------------------------------

  /** The companies, documents and count of new documents while a document list is being saved. */
  datatype SaveState = SaveState(companies: map<string, Company>, documents: map<string, DisclosureDocument>, saved: nat)

  function DocumentFrom(d: Record): DisclosureDocument
    requires "rcept_no" in d && "corp_code" in d && "corp_name" in d
    requires "report_nm" in d && "rcept_dt" in d && "flr_nm" in d
  {
    DisclosureDocument(d["rcept_no"], d["corp_code"], d["corp_name"], Get(d, "corp_cls"), d["report_nm"],
                       d["rcept_dt"], d["flr_nm"], Get(d, "pblntf_ty"), Get(d, "pblntf_detail_ty"),
                       Some(GetOr(d, "rm", "")))
  }

  /**
   * One document of `_save_disclosure_documents`: the company row takes the
   * document's name and class (created or updated), then the document is
   * added unless its `rcept_no` is already stored. A field read with `[]`
   * that is missing raises KeyError.
   */
  function SaveOne(st: SaveState, d: Record, now: int): Result<SaveState, string>
  {
    if "corp_code" !in d || "corp_name" !in d then Err("KeyError")
    else
      var companies := st.companies[d["corp_code"] := Company(d["corp_name"], Get(d, "corp_cls"), now)];
      if "rcept_no" !in d then Err("KeyError")
      else if d["rcept_no"] in st.documents then Ok(SaveState(companies, st.documents, st.saved))
      else if "report_nm" !in d || "rcept_dt" !in d || "flr_nm" !in d then Err("KeyError")
      else Ok(SaveState(companies, st.documents[d["rcept_no"] := DocumentFrom(d)], st.saved + 1))
  }

  /** The documents saved one after another; the first KeyError ends the save. */
  function SaveAll(st: SaveState, docs: seq<Record>, now: int): Result<SaveState, string>
    decreases |docs|
  {
    if docs == [] then Ok(st)
    else
      match SaveAll(st, docs[..|docs| - 1], now)
      case Err(e) => Err(e)
      case Ok(s) => SaveOne(s, docs[|docs| - 1], now)
  }

  /** Once a prefix fails the whole list fails. */
  lemma {:induction false} SaveAllErrSticks(st: SaveState, docs: seq<Record>, i: nat, now: int)
    requires i <= |docs| && SaveAll(st, docs[..i], now).Err?
    ensures SaveAll(st, docs, now).Err?
    decreases |docs| - i
  {
    if i < |docs| {
      assert docs[..i + 1][..i] == docs[..i];
      SaveAllErrSticks(st, docs, i + 1, now);
    } else {
      assert docs[..i] == docs;
    }
  }

  /** One document: stored documents stay, its number is then stored, and the count grows with the new keys. */
  lemma SaveOneInsertsOnly(p: SaveState, d: Record, now: int)
    requires SaveOne(p, d, now).Ok?
    ensures var s := SaveOne(p, d, now).value;
            && "rcept_no" in d && d["rcept_no"] in s.documents
            && (forall k :: k in p.documents ==> k in s.documents && s.documents[k] == p.documents[k])
            && s.documents.Keys <= p.documents.Keys + {d["rcept_no"]}
            && s.saved == p.saved + |s.documents.Keys - p.documents.Keys|
  {
    var s := SaveOne(p, d, now).value;
    if d["rcept_no"] !in p.documents {
      assert s.documents.Keys - p.documents.Keys == {d["rcept_no"]};
    } else {
      assert s.documents.Keys - p.documents.Keys == {};
    }
  }

  lemma CountNew(a: set<string>, b: set<string>, c: set<string>)
    requires a <= b <= c
    ensures |c - a| == |b - a| + |c - b|
  {
    assert c - a == (b - a) + (c - b);
    assert (b - a) * (c - b) == {};
  }

  /** Stored documents are never changed, and the count is the number of new rows. */
  lemma {:induction false} SaveAllKeeps(st: SaveState, docs: seq<Record>, now: int)
    requires SaveAll(st, docs, now).Ok?
    ensures var s := SaveAll(st, docs, now).value;
            && (forall k :: k in st.documents ==> k in s.documents && s.documents[k] == st.documents[k])
            && s.saved == st.saved + |s.documents.Keys - st.documents.Keys|
    decreases |docs|
  {
    if docs != [] {
      var prefix := docs[..|docs| - 1];
      SaveAllKeeps(st, prefix, now);
      var p := SaveAll(st, prefix, now).value;
      var s := SaveAll(st, docs, now).value;
      SaveOneInsertsOnly(p, docs[|docs| - 1], now);
      CountNew(st.documents.Keys, p.documents.Keys, s.documents.Keys);
    }
  }

  /** A successful save is a successful save of all but the last document, then that one. */
  lemma SaveAllSnoc(st: SaveState, docs: seq<Record>, now: int)
    requires SaveAll(st, docs, now).Ok? && docs != []
    ensures SaveAll(st, docs[..|docs| - 1], now).Ok?
    ensures SaveOne(SaveAll(st, docs[..|docs| - 1], now).value, docs[|docs| - 1], now) == SaveAll(st, docs, now)
  {
  }

  /** Every listed document is stored afterwards. */
  lemma {:induction false} SaveAllCovers(st: SaveState, docs: seq<Record>, now: int, i: nat)
    requires SaveAll(st, docs, now).Ok? && i < |docs|
    ensures "rcept_no" in docs[i] && docs[i]["rcept_no"] in SaveAll(st, docs, now).value.documents
    decreases |docs|
  {
    var prefix := docs[..|docs| - 1];
    SaveAllSnoc(st, docs, now);
    var p := SaveAll(st, prefix, now).value;
    if i < |prefix| {
      assert docs[i] == prefix[i];
      SaveAllCovers(st, prefix, now, i);
      SaveOneKeepsKey(p, docs[|docs| - 1], now, prefix[i]["rcept_no"]);
    } else {
      SaveOneStores(p, docs[|docs| - 1], now);
    }
  }

  lemma SaveOneKeepsKey(p: SaveState, d: Record, now: int, k: string)
    requires SaveOne(p, d, now).Ok? && k in p.documents
    ensures k in SaveOne(p, d, now).value.documents
  {
  }

  lemma SaveOneNewKey(p: SaveState, d: Record, now: int, k: string)
    requires SaveOne(p, d, now).Ok? && k in SaveOne(p, d, now).value.documents && k !in p.documents
    ensures "rcept_no" in d && k == d["rcept_no"]
  {
  }

  lemma SaveOneStores(p: SaveState, d: Record, now: int)
    requires SaveOne(p, d, now).Ok?
    ensures "rcept_no" in d && d["rcept_no"] in SaveOne(p, d, now).value.documents
  {
  }

  lemma SaveAllStep(st: SaveState, docs: seq<Record>, i: nat, now: int)
    requires i < |docs|
    ensures SaveAll(st, docs[..i + 1], now)
         == match SaveAll(st, docs[..i], now) case Err(e) => Err(e) case Ok(s) => SaveOne(s, docs[i], now)
  {
    assert docs[..i + 1][..i] == docs[..i];
  }

  /** Every stored document stays filed under its own number. */
  lemma SaveOneKeysMatch(p: SaveState, d: Record, now: int)
    requires forall k :: k in p.documents ==> p.documents[k].rceptNo == k
    requires SaveOne(p, d, now).Ok?
    ensures forall k :: k in SaveOne(p, d, now).value.documents ==> SaveOne(p, d, now).value.documents[k].rceptNo == k
  {
  }

  /** Every new document is one of the list. */
  lemma {:induction false} SaveAllOnlyListed(st: SaveState, docs: seq<Record>, now: int)
    requires SaveAll(st, docs, now).Ok?
    ensures forall k :: k in SaveAll(st, docs, now).value.documents && k !in st.documents ==>
      exists i :: 0 <= i < |docs| && "rcept_no" in docs[i] && docs[i]["rcept_no"] == k
    decreases |docs|
  {
    if docs != [] {
      var prefix := docs[..|docs| - 1];
      var d := docs[|docs| - 1];
      SaveAllSnoc(st, docs, now);
      SaveAllOnlyListed(st, prefix, now);
      var p := SaveAll(st, prefix, now).value;
      var s := SaveAll(st, docs, now).value;
      forall k | k in s.documents && k !in st.documents
        ensures exists i :: 0 <= i < |docs| && "rcept_no" in docs[i] && docs[i]["rcept_no"] == k
      {
        if k in p.documents {
          var i :| 0 <= i < |prefix| && "rcept_no" in prefix[i] && prefix[i]["rcept_no"] == k;
          assert docs[i] == prefix[i];
        } else {
          SaveOneNewKey(p, d, now, k);
          assert docs[|docs| - 1] == d;
        }
      }
    }
  }

  /** A list whose documents are all stored already adds nothing and counts nothing. */
  lemma {:induction false} SaveAllPresent(st: SaveState, docs: seq<Record>, now: int)
    requires forall i :: 0 <= i < |docs| ==>
      "corp_code" in docs[i] && "corp_name" in docs[i] && "rcept_no" in docs[i] && docs[i]["rcept_no"] in st.documents
    ensures SaveAll(st, docs, now).Ok?
    ensures SaveAll(st, docs, now).value.documents == st.documents
    ensures SaveAll(st, docs, now).value.saved == st.saved
    decreases |docs|
  {
    if docs != [] {
      var prefix := docs[..|docs| - 1];
      assert forall i :: 0 <= i < |prefix| ==> prefix[i] == docs[i];
      SaveAllPresent(st, prefix, now);
    }
  }

  lemma {:induction false} SaveAllHasCompanyFields(st: SaveState, docs: seq<Record>, now: int)
    requires SaveAll(st, docs, now).Ok?
    ensures forall i :: 0 <= i < |docs| ==> "corp_code" in docs[i] && "corp_name" in docs[i]
    decreases |docs|
  {
    if docs != [] {
      var prefix := docs[..|docs| - 1];
      SaveAllHasCompanyFields(st, prefix, now);
      assert forall i :: 0 <= i < |prefix| ==> prefix[i] == docs[i];
    }
  }

  /** Saving the same list again leaves the documents as they are and counts no new document. */
  lemma SaveAllTwice(st: SaveState, docs: seq<Record>, now: int)
    requires SaveAll(st, docs, now).Ok?
    ensures var s := SaveAll(st, docs, now).value;
            && SaveAll(s, docs, now).Ok?
            && SaveAll(s, docs, now).value.documents == s.documents
            && SaveAll(s, docs, now).value.saved == s.saved
  {
    forall i | 0 <= i < |docs|
      ensures "rcept_no" in docs[i] && docs[i]["rcept_no"] in SaveAll(st, docs, now).value.documents
    {
      SaveAllCovers(st, docs, now, i);
    }
    SaveAllHasCompanyFields(st, docs, now);
    SaveAllPresent(SaveAll(st, docs, now).value, docs, now);
  }

  // ---------------------------------------------------------------------
  // Local document searches
  // ---------------------------------------------------------------------

  /** The three local queries on `disclosure_documents`. */
  datatype LocalQuery =
    | ByName(corpName: string, corpCls: Option<string>)   // `_search_companies_local`
    | ByCode(corpCode: string)                             // `_search_by_corp_code_local`
    | Recent(corpCls: Option<string>)                      // `_get_recent_companies_local`

  /** Python truthiness of an optional text: present and not empty. */
  predicate Truthy(x: Option<string>)
  {
    x.Some? && x.value != ""
  }

  /** `corp_cls == ...` is added to the query only for a truthy class. */
  predicate ClassMatches(corpCls: Option<string>, d: DisclosureDocument)
  {
    !Truthy(corpCls) || d.corpCls == corpCls
  }

  /** `corp_name LIKE '%name%'`: SQLite's LIKE ignores the case of ASCII letters. */
  predicate NameLike(name: string, corpName: string)
  {
    IsSubstring(Lower(name), Lower(corpName))
  }

  predicate QueryMatches(q: LocalQuery, d: DisclosureDocument)
  {
    match q
    case ByName(name, cls) => NameLike(name, d.corpName) && ClassMatches(cls, d)
    case ByCode(code) => d.corpCode == code
    case Recent(cls) => ClassMatches(cls, d)
  }

  /** The keys of the documents a query selects; its size is the query's `total_count`. */
  function MatchingKeys(documents: map<string, DisclosureDocument>, q: LocalQuery): set<string>
  {
    set k | k in documents && QueryMatches(q, documents[k])
  }

  function QueryMessage(q: LocalQuery): string
  {
    if q.Recent? then "정상 (로컬 DB)" else "정상"
  }

  function RceptDt(d: DisclosureDocument): string
  {
    d.rceptDt
  }

  /** A stored document as a list item; a null `rm` becomes the empty text, a null class is left out. */
  function DocumentRecord(d: DisclosureDocument): Record
  {
    var r := map["rcept_no" := d.rceptNo, "corp_code" := d.corpCode, "corp_name" := d.corpName,
                 "report_nm" := d.reportNm, "rcept_dt" := d.rceptDt, "flr_nm" := d.flrNm,
                 "rm" := if d.rm.Some? then d.rm.value else ""];
    Put(r, "corp_cls", d.corpCls)
  }

  function DocumentRecords(rows: seq<DisclosureDocument>): (r: seq<Record>)
    ensures |r| == |rows| && forall i :: 0 <= i < |rows| ==> r[i] == DocumentRecord(rows[i])
  {
    seq(|rows|, i requires 0 <= i < |rows| => DocumentRecord(rows[i]))
  }

  /** The requested page of `n` rows holds at least one row. */
  predicate PageNonEmpty(n: nat, pageNo: int, pageCount: int)
  {
    PageStart(n, pageNo, pageCount) < PageEnd(n, pageNo, pageCount)
  }

  /** Adds a parameter only when it is not None (an empty text is kept). */
  function OptParam(params: Params, name: string, value: Option<string>): (r: Params)
    ensures value.Some? ==> r == params[name := Text(value.value)]
    ensures value.None? ==> r == params
  {
    if value.Some? then params[name := Text(value.value)] else params
  }

  /** The `list.json` parameters of `search_companies_optimized`, with the None values removed. */
  function SearchParams(corpCode: Option<string>, bgnDe: Option<string>, endDe: Option<string>,
                        pblntfTy: Option<string>, corpCls: Option<string>, pageNo: int, pageCount: int): Params
  {
    var p := map["page_no" := Int(pageNo), "page_count" := Int(pageCount)];
    var p := OptParam(p, "corp_code", corpCode);
    var p := OptParam(p, "bgn_de", bgnDe);
    var p := OptParam(p, "end_de", endDe);
    var p := OptParam(p, "pblntf_ty", pblntfTy);
    OptParam(p, "corp_cls", corpCls)
  }

  /** The page parameters are always sent; each optional one exactly when it is given. */
  lemma SearchParamsKeys(corpCode: Option<string>, bgnDe: Option<string>, endDe: Option<string>,
                         pblntfTy: Option<string>, corpCls: Option<string>, pageNo: int, pageCount: int)
    ensures SearchParams(corpCode, bgnDe, endDe, pblntfTy, corpCls, pageNo, pageCount).Keys
      == {"page_no", "page_count"}
         + (if corpCode.Some? then {"corp_code"} else {}) + (if bgnDe.Some? then {"bgn_de"} else {})
         + (if endDe.Some? then {"end_de"} else {}) + (if pblntfTy.Some? then {"pblntf_ty"} else {})
         + (if corpCls.Some? then {"corp_cls"} else {})
  {
  }

  /** The values sent are the ones given. */
  lemma SearchParamsValues(corpCode: Option<string>, bgnDe: Option<string>, endDe: Option<string>,
                           pblntfTy: Option<string>, corpCls: Option<string>, pageNo: int, pageCount: int)
    ensures var p := SearchParams(corpCode, bgnDe, endDe, pblntfTy, corpCls, pageNo, pageCount);
      && "page_no" in p && p["page_no"] == Int(pageNo) && "page_count" in p && p["page_count"] == Int(pageCount)
      && (corpCode.Some? ==> "corp_code" in p && p["corp_code"] == Text(corpCode.value))
      && (bgnDe.Some? ==> "bgn_de" in p && p["bgn_de"] == Text(bgnDe.value))
      && (endDe.Some? ==> "end_de" in p && p["end_de"] == Text(endDe.value))
      && (pblntfTy.Some? ==> "pblntf_ty" in p && p["pblntf_ty"] == Text(pblntfTy.value))
      && (corpCls.Some? ==> "corp_cls" in p && p["corp_cls"] == Text(corpCls.value))
  {
  }

  const ListEndpoint: string := "list.json"
  const ListCacheHours: int := 2

  // ---------------------------------------------------------------------
  // The service
  // ---------------------------------------------------------------------

  const FinancialEndpoint: string := "fnlttSinglAcnt.json"
  const FinancialCacheHours: int := 24

  function FinancialParams(corpCode: string, bsnsYear: string, reprtCode: string): Params
  {
    map["corp_code" := Text(corpCode), "bsns_year" := Text(bsnsYear), "reprt_code" := Text(reprtCode)]
  }

  /** The table without the rows of one report (the DELETE). */
  function WithoutReport(statements: map<nat, FinancialStatement>, corpCode: string, bsnsYear: string, reprtCode: string): (r: map<nat, FinancialStatement>)
    ensures forall id :: id in r <==> id in statements && !IsReport(statements[id], corpCode, bsnsYear, reprtCode)
    ensures forall id :: id in r ==> r[id] == statements[id]
  {
    map id | id in statements && !IsReport(statements[id], corpCode, bsnsYear, reprtCode) :: statements[id]
  }

  /** The rows inserted for the list items, at consecutive ids from `first`. */
  function Inserted(first: nat, items: seq<Record>, corpCode: string, bsnsYear: string, reprtCode: string): (r: map<nat, FinancialStatement>)
    ensures forall id :: id in r <==> first <= id < first + |items|
    ensures forall id :: id in r ==> IsReport(r[id], corpCode, bsnsYear, reprtCode)
    decreases |items|
  {
    if items == [] then map[]
    else
      Inserted(first, items[..|items| - 1], corpCode, bsnsYear, reprtCode)[first + |items| - 1 :=
        StatementFrom(items[|items| - 1], corpCode, bsnsYear, reprtCode)]
  }

  /** The row at `first + i` is the row for the `i`-th item. */
  lemma {:induction false} InsertedAt(first: nat, items: seq<Record>, corpCode: string, bsnsYear: string, reprtCode: string, i: nat)
    requires i < |items|
    ensures Inserted(first, items, corpCode, bsnsYear, reprtCode)[first + i] == StatementFrom(items[i], corpCode, bsnsYear, reprtCode)
    decreases |items|
  {
    if i < |items| - 1 {
      InsertedAt(first, items[..|items| - 1], corpCode, bsnsYear, reprtCode, i);
    }
  }

  /** One more insertion extends the merged table by the next row. */
  lemma InsertNext(kept: map<nat, FinancialStatement>, first: nat, items: seq<Record>, i: nat,
                   corpCode: string, bsnsYear: string, reprtCode: string)
    requires i < |items|
    ensures (kept + Inserted(first, items[..i], corpCode, bsnsYear, reprtCode))[first + i := StatementFrom(items[i], corpCode, bsnsYear, reprtCode)]
         == kept + Inserted(first, items[..i + 1], corpCode, bsnsYear, reprtCode)
  {
    InsertedSnoc(first, items, i, corpCode, bsnsYear, reprtCode);
    MergeUpdate(kept, Inserted(first, items[..i], corpCode, bsnsYear, reprtCode),
                first + i, StatementFrom(items[i], corpCode, bsnsYear, reprtCode));
  }

  lemma InsertedSnoc(first: nat, items: seq<Record>, i: nat, corpCode: string, bsnsYear: string, reprtCode: string)
    requires i < |items|
    ensures Inserted(first, items[..i + 1], corpCode, bsnsYear, reprtCode)
         == Inserted(first, items[..i], corpCode, bsnsYear, reprtCode)[first + i := StatementFrom(items[i], corpCode, bsnsYear, reprtCode)]
  {
    assert items[..i + 1][..i] == items[..i];
  }

  lemma MergeUpdate<K, V>(a: map<K, V>, b: map<K, V>, k: K, v: V)
    ensures a + b[k := v] == (a + b)[k := v]
  {
  }

  /** The table after a report is saved again: its old rows replaced by the new ones. */
  function ReplaceReport(statements: map<nat, FinancialStatement>, first: nat, items: seq<Record>,
                         corpCode: string, bsnsYear: string, reprtCode: string): map<nat, FinancialStatement>
  {
    WithoutReport(statements, corpCode, bsnsYear, reprtCode) + Inserted(first, items, corpCode, bsnsYear, reprtCode)
  }

  /** Where a row of the merged table comes from. */
  lemma ReplaceReportParts(statements: map<nat, FinancialStatement>, first: nat, items: seq<Record>,
                           corpCode: string, bsnsYear: string, reprtCode: string, id: nat)
    requires forall id :: id in statements ==> id < first
    ensures var r := ReplaceReport(statements, first, items, corpCode, bsnsYear, reprtCode);
            && (id in r <==> id in WithoutReport(statements, corpCode, bsnsYear, reprtCode) || first <= id < first + |items|)
            && (id in WithoutReport(statements, corpCode, bsnsYear, reprtCode) ==> r[id] == statements[id])
            && (first <= id < first + |items| ==> r[id] == Inserted(first, items, corpCode, bsnsYear, reprtCode)[id])
  {
  }

  /** After a save the report consists exactly of the new rows, at consecutive ids. */
  lemma ReplaceReportIds(statements: map<nat, FinancialStatement>, first: nat, items: seq<Record>,
                         corpCode: string, bsnsYear: string, reprtCode: string)
    requires forall id :: id in statements ==> id < first
    ensures forall id :: id in ReportIds(ReplaceReport(statements, first, items, corpCode, bsnsYear, reprtCode), corpCode, bsnsYear, reprtCode)
                     <==> first <= id < first + |items|
  {
    forall id: nat
      ensures id in ReportIds(ReplaceReport(statements, first, items, corpCode, bsnsYear, reprtCode), corpCode, bsnsYear, reprtCode)
          <==> first <= id < first + |items|
    {
      ReplaceReportParts(statements, first, items, corpCode, bsnsYear, reprtCode, id);
    }
  }

  /** The new rows hold the list items in list order. */
  lemma ReplaceReportNewRows(statements: map<nat, FinancialStatement>, first: nat, items: seq<Record>,
                             corpCode: string, bsnsYear: string, reprtCode: string, i: nat)
    requires forall id :: id in statements ==> id < first
    requires i < |items|
    ensures first + i in ReplaceReport(statements, first, items, corpCode, bsnsYear, reprtCode)
    ensures ReplaceReport(statements, first, items, corpCode, bsnsYear, reprtCode)[first + i]
         == StatementFrom(items[i], corpCode, bsnsYear, reprtCode)
  {
    ReplaceReportParts(statements, first, items, corpCode, bsnsYear, reprtCode, first + i);
    InsertedAt(first, items, corpCode, bsnsYear, reprtCode, i);
  }

  /** Every row of another report is untouched. */
  lemma ReplaceReportKeepsOthers(statements: map<nat, FinancialStatement>, first: nat, items: seq<Record>,
                                 corpCode: string, bsnsYear: string, reprtCode: string, id: nat)
    requires forall id :: id in statements ==> id < first
    requires id in statements && !IsReport(statements[id], corpCode, bsnsYear, reprtCode)
    ensures id in ReplaceReport(statements, first, items, corpCode, bsnsYear, reprtCode)
    ensures ReplaceReport(statements, first, items, corpCode, bsnsYear, reprtCode)[id] == statements[id]
  {
    ReplaceReportParts(statements, first, items, corpCode, bsnsYear, reprtCode, id);
  }

  // ---------------------------------------------------------------------
  // What one call of the service does to the tables
  // ---------------------------------------------------------------------

  /** A newest-first listing of the documents a local query selects. */
  ghost predicate Listing(documents: map<string, DisclosureDocument>, q: LocalQuery, rows: seq<DisclosureDocument>)
  {
    && |rows| == |MatchingKeys(documents, q)|
    && (forall d :: d in rows <==> exists k :: k in MatchingKeys(documents, q) && documents[k] == d)
    && SortedBy(rows, RceptDt, true)
  }

  /**
   * The answer of a local search: the requested page of a newest-first
   * listing (documents with the same `rcept_dt` may come in any order).
   */
  ghost predicate LocalAnswer(documents: map<string, DisclosureDocument>, q: LocalQuery, pageNo: int, pageCount: int,
                        r: Result<Response, string>)
  {
    exists rows :: Listing(documents, q, rows) && r == PagedResponse(DocumentRecords(rows), pageNo, pageCount, QueryMessage(q))
  }

  /** A local search with a key ends the lookup: its page holds a row, or a page size of 0 fails. */
  predicate LocalHit(documents: map<string, DisclosureDocument>, q: LocalQuery, pageNo: int, pageCount: int)
  {
    pageCount == 0 || PageNonEmpty(|MatchingKeys(documents, q)|, pageNo, pageCount)
  }

  /**
   * The tables after the remote half of a search: unchanged on a cache hit,
   * a failed or empty answer, or a KeyError while saving; otherwise the
   * saved companies and documents and the answer cached for two hours.
   */
  function RemoteTables(t: Tables, apiKey: string, params: Params, now: int,
                        remote: (string, Params) -> Result<Response, string>): Tables
  {
    var key := GenerateCacheKey(ListEndpoint, params);
    var fetched := MakeApiRequest(apiKey, ListEndpoint, params, remote);
    if CachedResponseFor(t.apiCache, key, now).Some? || !(fetched.Ok? && Succeeded(fetched.value)) then t
    else
      match SaveAll(SaveState(t.companies, t.documents, 0), fetched.value.items, now)
      case Err(_) => t
      case Ok(s) => t.(companies := s.companies, documents := s.documents,
                       apiCache := CacheUpsert(t.apiCache, key, fetched.value, now, ListCacheHours))
  }

  /** The answer of the remote half: the live cache entry, else the API's answer, or an error when saving it fails. */
  predicate RemoteAnswer(t: Tables, apiKey: string, params: Params, now: int,
                         remote: (string, Params) -> Result<Response, string>, r: Result<Response, string>)
  {
    var cached := CachedResponseFor(t.apiCache, GenerateCacheKey(ListEndpoint, params), now);
    var fetched := MakeApiRequest(apiKey, ListEndpoint, params, remote);
    if cached.Some? then r == Ok(cached.value)
    else if fetched.Ok? && Succeeded(fetched.value)
            && SaveAll(SaveState(t.companies, t.documents, 0), fetched.value.items, now).Err? then r.Err?
    else r == fetched
  }

  /** The local query `search_companies_optimized` runs without an API key. */
  function KeylessQuery(corpCode: Option<string>, corpName: Option<string>, corpCls: Option<string>): LocalQuery
  {
    if Truthy(corpName) then ByName(corpName.value, corpCls)
    else if Truthy(corpCode) then ByCode(corpCode.value)
    else Recent(corpCls)
  }

  /**
   * The tables after `search_companies_optimized`: without a key, or when the
   * local name or code search ends the lookup, nothing changes; otherwise
   * the remote half decides.
   */
  function SearchTables(t: Tables, apiKey: string, corpCode: Option<string>, corpName: Option<string>,
                        bgnDe: Option<string>, endDe: Option<string>, pblntfTy: Option<string>, corpCls: Option<string>,
                        pageNo: int, pageCount: int, now: int,
                        remote: (string, Params) -> Result<Response, string>): Tables
  {
    if apiKey == "" then t
    else if Truthy(corpName) && LocalHit(t.documents, ByName(corpName.value, corpCls), pageNo, pageCount) then t
    else if Truthy(corpCode) && LocalHit(t.documents, ByCode(corpCode.value), pageNo, pageCount) then t
    else RemoteTables(t, apiKey, SearchParams(corpCode, bgnDe, endDe, pblntfTy, corpCls, pageNo, pageCount), now, remote)
  }

  /** The answer of `search_companies_optimized`, branch by branch. */
  ghost predicate SearchAnswer(t: Tables, apiKey: string, corpCode: Option<string>, corpName: Option<string>,
                         bgnDe: Option<string>, endDe: Option<string>, pblntfTy: Option<string>, corpCls: Option<string>,
                         pageNo: int, pageCount: int, now: int,
                         remote: (string, Params) -> Result<Response, string>, r: Result<Response, string>)
  {
    if apiKey == "" then LocalAnswer(t.documents, KeylessQuery(corpCode, corpName, corpCls), pageNo, pageCount, r)
    else if Truthy(corpName) && LocalHit(t.documents, ByName(corpName.value, corpCls), pageNo, pageCount) then
      LocalAnswer(t.documents, ByName(corpName.value, corpCls), pageNo, pageCount, r)
    else if Truthy(corpCode) && LocalHit(t.documents, ByCode(corpCode.value), pageNo, pageCount) then
      LocalAnswer(t.documents, ByCode(corpCode.value), pageNo, pageCount, r)
    else RemoteAnswer(t, apiKey, SearchParams(corpCode, bgnDe, endDe, pblntfTy, corpCls, pageNo, pageCount), now, remote, r)
  }

  lemma SearchWithoutKey(t: Tables, corpCode: Option<string>, corpName: Option<string>,
                         bgnDe: Option<string>, endDe: Option<string>, pblntfTy: Option<string>, corpCls: Option<string>,
                         pageNo: int, pageCount: int, now: int,
                         remote: (string, Params) -> Result<Response, string>, r: Result<Response, string>)
    ensures SearchTables(t, "", corpCode, corpName, bgnDe, endDe, pblntfTy, corpCls, pageNo, pageCount, now, remote) == t
    ensures SearchAnswer(t, "", corpCode, corpName, bgnDe, endDe, pblntfTy, corpCls, pageNo, pageCount, now, remote, r)
        <==> LocalAnswer(t.documents, KeylessQuery(corpCode, corpName, corpCls), pageNo, pageCount, r)
  {
  }

  lemma SearchNameHit(t: Tables, apiKey: string, corpCode: Option<string>, corpName: Option<string>,
                      bgnDe: Option<string>, endDe: Option<string>, pblntfTy: Option<string>, corpCls: Option<string>,
                      pageNo: int, pageCount: int, now: int,
                      remote: (string, Params) -> Result<Response, string>, r: Result<Response, string>)
    requires apiKey != "" && Truthy(corpName) && LocalAnswer(t.documents, ByName(corpName.value, corpCls), pageNo, pageCount, r)
    requires r.Err? || r.value.items != []
    ensures SearchTables(t, apiKey, corpCode, corpName, bgnDe, endDe, pblntfTy, corpCls, pageNo, pageCount, now, remote) == t
    ensures SearchAnswer(t, apiKey, corpCode, corpName, bgnDe, endDe, pblntfTy, corpCls, pageNo, pageCount, now, remote, r)
  {
    LocalAnswerHit(t.documents, ByName(corpName.value, corpCls), pageNo, pageCount, r);
  }

  lemma SearchCodeHit(t: Tables, apiKey: string, corpCode: Option<string>, corpName: Option<string>,
                      bgnDe: Option<string>, endDe: Option<string>, pblntfTy: Option<string>, corpCls: Option<string>,
                      pageNo: int, pageCount: int, now: int,
                      remote: (string, Params) -> Result<Response, string>, r: Result<Response, string>)
    requires apiKey != "" && !(Truthy(corpName) && LocalHit(t.documents, ByName(corpName.value, corpCls), pageNo, pageCount))
    requires Truthy(corpCode) && LocalAnswer(t.documents, ByCode(corpCode.value), pageNo, pageCount, r)
    requires r.Err? || r.value.items != []
    ensures SearchTables(t, apiKey, corpCode, corpName, bgnDe, endDe, pblntfTy, corpCls, pageNo, pageCount, now, remote) == t
    ensures SearchAnswer(t, apiKey, corpCode, corpName, bgnDe, endDe, pblntfTy, corpCls, pageNo, pageCount, now, remote, r)
  {
    LocalAnswerHit(t.documents, ByCode(corpCode.value), pageNo, pageCount, r);
  }

  lemma SearchMiss(t: Tables, apiKey: string, corpCode: Option<string>, corpName: Option<string>,
                   bgnDe: Option<string>, endDe: Option<string>, pblntfTy: Option<string>, corpCls: Option<string>,
                   pageNo: int, pageCount: int, now: int,
                   remote: (string, Params) -> Result<Response, string>, r: Result<Response, string>)
    requires apiKey != "" && !(Truthy(corpName) && LocalHit(t.documents, ByName(corpName.value, corpCls), pageNo, pageCount))
    requires !(Truthy(corpCode) && LocalHit(t.documents, ByCode(corpCode.value), pageNo, pageCount))
    ensures SearchTables(t, apiKey, corpCode, corpName, bgnDe, endDe, pblntfTy, corpCls, pageNo, pageCount, now, remote)
         == RemoteTables(t, apiKey, SearchParams(corpCode, bgnDe, endDe, pblntfTy, corpCls, pageNo, pageCount), now, remote)
    ensures SearchAnswer(t, apiKey, corpCode, corpName, bgnDe, endDe, pblntfTy, corpCls, pageNo, pageCount, now, remote, r)
        <==> RemoteAnswer(t, apiKey, SearchParams(corpCode, bgnDe, endDe, pblntfTy, corpCls, pageNo, pageCount), now, remote, r)
  {
  }

  /** A local answer that failed or holds a row is a local hit. */
  lemma LocalAnswerHit(documents: map<string, DisclosureDocument>, q: LocalQuery, pageNo: int, pageCount: int, r: Result<Response, string>)
    requires LocalAnswer(documents, q, pageNo, pageCount, r)
    ensures (r.Err? || r.value.items != []) <==> LocalHit(documents, q, pageNo, pageCount)
  {
    var rows :| Listing(documents, q, rows) && r == PagedResponse(DocumentRecords(rows), pageNo, pageCount, QueryMessage(q));
  }

  /** The rows stored at the given ids, in the order of the ids. */
  function RowsAt(statements: map<nat, FinancialStatement>, ids: seq<nat>): (rows: seq<FinancialStatement>)
    requires forall i :: 0 <= i < |ids| ==> ids[i] in statements
    ensures |rows| == |ids| && forall i :: 0 <= i < |ids| ==> rows[i] == statements[ids[i]]
  {
    seq(|ids|, i requires 0 <= i < |ids| => statements[ids[i]])
  }

  /** The ids of the set, each exactly once, in some order. */
  ghost predicate Enumerates(ids: seq<nat>, s: set<nat>)
  {
    && (forall i, j :: 0 <= i < j < |ids| ==> ids[i] != ids[j])
    && (forall id :: id in ids <==> id in s)
  }

  /**
   * The rows of one report ordered by `ord`: a permutation of the rows at
   * the report's ids, each id read once (equal rows at two ids come twice).
   */
  ghost predicate ReportListing(statements: map<nat, FinancialStatement>, corpCode: string, bsnsYear: string, reprtCode: string,
                          rows: seq<FinancialStatement>)
  {
    && |rows| == |ReportIds(statements, corpCode, bsnsYear, reprtCode)|
    && (forall x :: x in rows <==> exists id :: id in ReportIds(statements, corpCode, bsnsYear, reprtCode) && statements[id] == x)
    && (exists ids: seq<nat> ::
          && Enumerates(ids, ReportIds(statements, corpCode, bsnsYear, reprtCode))
          && (forall i :: 0 <= i < |ids| ==> ids[i] in statements)
          && multiset(rows) == multiset(RowsAt(statements, ids)))
    && SortedBy(rows, OrdKey, false)
  }

  /** The ids of `s` whose stored row is `x`. */
  ghost function Holding(statements: map<nat, FinancialStatement>, s: set<nat>, x: FinancialStatement): set<nat>
  {
    set id | id in s && id in statements && statements[id] == x
  }

  /** Dropping the last id of an enumeration enumerates the set without it. */
  lemma EnumeratesInit(ids: seq<nat>, s: set<nat>)
    requires Enumerates(ids, s) && |ids| > 0
    ensures ids[|ids| - 1] in s && Enumerates(ids[..|ids| - 1], s - {ids[|ids| - 1]})
  {
    var n := |ids| - 1;
    assert ids[n] in ids;
    forall id ensures id in ids[..n] <==> id in s - {ids[n]} {
      if id in ids[..n] {
        var k :| 0 <= k < n && ids[..n][k] == id;
        assert ids[k] == id && ids[k] != ids[n];
      }
      if id in s - {ids[n]} {
        assert id in ids;
        var k :| 0 <= k < |ids| && ids[k] == id;
        assert k != n && ids[..n][k] == id;
      }
    }
  }

  /** Adding one id to `s` adds it to `Holding` when its row is `x`. */
  lemma HoldingStep(statements: map<nat, FinancialStatement>, s: set<nat>, last: nat, x: FinancialStatement)
    requires last in s && last in statements
    ensures |Holding(statements, s, x)| == |Holding(statements, s - {last}, x)| + (if statements[last] == x then 1 else 0)
  {
    if statements[last] == x {
      assert Holding(statements, s, x) == Holding(statements, s - {last}, x) + {last};
    } else {
      assert Holding(statements, s, x) == Holding(statements, s - {last}, x);
    }
  }

  /** Reading the rows at an enumeration of `s` gives each value as often as ids of `s` hold it. */
  lemma {:induction false} RowsAtCount(statements: map<nat, FinancialStatement>, ids: seq<nat>, s: set<nat>, x: FinancialStatement)
    requires Enumerates(ids, s)
    requires forall i :: 0 <= i < |ids| ==> ids[i] in statements
    ensures multiset(RowsAt(statements, ids))[x] == |Holding(statements, s, x)|
    decreases |ids|
  {
    if |ids| == 0 {
      assert Holding(statements, s, x) == {};
    } else {
      var n := |ids| - 1;
      EnumeratesInit(ids, s);
      RowsAtCount(statements, ids[..n], s - {ids[n]}, x);
      assert RowsAt(statements, ids) == RowsAt(statements, ids[..n]) + [statements[ids[n]]];
      HoldingStep(statements, s, ids[n], x);
    }
  }

  /** A report listing holds each stored value as often as the report's ids hold it. */
  lemma ReportListingCounts(statements: map<nat, FinancialStatement>, corpCode: string, bsnsYear: string, reprtCode: string,
                            rows: seq<FinancialStatement>, x: FinancialStatement)
    requires ReportListing(statements, corpCode, bsnsYear, reprtCode, rows)
    ensures multiset(rows)[x] == |Holding(statements, ReportIds(statements, corpCode, bsnsYear, reprtCode), x)|
  {
    var s := ReportIds(statements, corpCode, bsnsYear, reprtCode);
    var ids :| && Enumerates(ids, s)
               && (forall i :: 0 <= i < |ids| ==> ids[i] in statements)
               && multiset(rows) == multiset(RowsAt(statements, ids));
    RowsAtCount(statements, ids, s, x);
  }

  /** Two ids holding `a` and one holding `b`, all of one report. */
  lemma ThreeRowReport(a: FinancialStatement, b: FinancialStatement)
    requires IsReport(a, "c", "2023", "11011") && IsReport(b, "c", "2023", "11011") && a != b
    ensures var statements := map[1 := a, 2 := a, 3 := b];
            && |Holding(statements, ReportIds(statements, "c", "2023", "11011"), a)| == 2
            && |Holding(statements, ReportIds(statements, "c", "2023", "11011"), b)| == 1
  {
    var statements := map[1 := a, 2 := a, 3 := b];
    assert ReportIds(statements, "c", "2023", "11011") == {1, 2, 3};
    assert Holding(statements, {1, 2, 3}, a) == {1, 2};
    assert Holding(statements, {1, 2, 3}, b) == {3};
  }

  /** Two ids holding `a` and one holding `b`: every listing of the report has `a` twice and `b` once. */
  lemma DuplicateRowsKept(a: FinancialStatement, b: FinancialStatement, rows: seq<FinancialStatement>)
    requires IsReport(a, "c", "2023", "11011") && IsReport(b, "c", "2023", "11011") && a != b
    requires ReportListing(map[1 := a, 2 := a, 3 := b], "c", "2023", "11011", rows)
    ensures multiset(rows)[a] == 2 && multiset(rows)[b] == 1
  {
    ThreeRowReport(a, b);
    ReportListingCounts(map[1 := a, 2 := a, 3 := b], "c", "2023", "11011", rows, a);
    ReportListingCounts(map[1 := a, 2 := a, 3 := b], "c", "2023", "11011", rows, b);
  }

  /**
   * The tables after `get_financial_data_optimized`: unchanged when the
   * report is stored, the answer is cached or the API gives no rows;
   * otherwise the report is replaced by the API's rows, their names are
   * counted, and the answer is cached for 24 hours.
   */
  function FinancialTables(t: Tables, apiKey: string, corpCode: string, bsnsYear: string, reprtCode: string, now: int,
                           remote: (string, Params) -> Result<Response, string>): Tables
  {
    var params := FinancialParams(corpCode, bsnsYear, reprtCode);
    var key := GenerateCacheKey(FinancialEndpoint, params);
    var fetched := MakeApiRequest(apiKey, FinancialEndpoint, params, remote);
    if ReportIds(t.statements, corpCode, bsnsYear, reprtCode) != {} || CachedResponseFor(t.apiCache, key, now).Some?
       || !(fetched.Ok? && Succeeded(fetched.value)) then t
    else
      var items := fetched.value.items;
      t.(statements := ReplaceReport(t.statements, t.nextStatementId, items, corpCode, bsnsYear, reprtCode),
         nextStatementId := t.nextStatementId + |items|,
         accounts := AccountsAfterUse(t.accounts, AccountNamesIn(items), now),
         apiCache := CacheUpsert(t.apiCache, key, fetched.value, now, FinancialCacheHours))
  }

  /** The answer of `get_financial_data_optimized`: the stored rows by `ord`, else the cache entry, else the API's answer. */
  ghost predicate FinancialAnswer(t: Tables, apiKey: string, corpCode: string, bsnsYear: string, reprtCode: string, now: int,
                            remote: (string, Params) -> Result<Response, string>, r: Result<Response, string>)
  {
    var params := FinancialParams(corpCode, bsnsYear, reprtCode);
    var cached := CachedResponseFor(t.apiCache, GenerateCacheKey(FinancialEndpoint, params), now);
    if ReportIds(t.statements, corpCode, bsnsYear, reprtCode) != {} then
      exists rows :: ReportListing(t.statements, corpCode, bsnsYear, reprtCode, rows) && r == Ok(LocalFinancialResponse(rows))
    else if cached.Some? then r == Ok(cached.value)
    else r == MakeApiRequest(apiKey, FinancialEndpoint, params, remote)
  }

  /** Repeating the remote half at the same instant changes nothing more: a stored answer is then a cache hit. */
  lemma RemoteTablesTwice(t: Tables, apiKey: string, params: Params, now: int,
                          remote: (string, Params) -> Result<Response, string>)
    ensures var u := RemoteTables(t, apiKey, params, now, remote);
            RemoteTables(u, apiKey, params, now, remote) == u
  {
    var u := RemoteTables(t, apiKey, params, now, remote);
    if u != t {
      assert CachedResponseFor(u.apiCache, GenerateCacheKey(ListEndpoint, params), now).Some?;
    }
  }

  /** Repeating a search at the same instant changes no table any further. */
  lemma SearchTablesTwice(t: Tables, apiKey: string, corpCode: Option<string>, corpName: Option<string>,
                          bgnDe: Option<string>, endDe: Option<string>, pblntfTy: Option<string>, corpCls: Option<string>,
                          pageNo: int, pageCount: int, now: int,
                          remote: (string, Params) -> Result<Response, string>)
    ensures var u := SearchTables(t, apiKey, corpCode, corpName, bgnDe, endDe, pblntfTy, corpCls, pageNo, pageCount, now, remote);
            SearchTables(u, apiKey, corpCode, corpName, bgnDe, endDe, pblntfTy, corpCls, pageNo, pageCount, now, remote) == u
  {
    var u := SearchTables(t, apiKey, corpCode, corpName, bgnDe, endDe, pblntfTy, corpCls, pageNo, pageCount, now, remote);
    if u != t {
      var params := SearchParams(corpCode, bgnDe, endDe, pblntfTy, corpCls, pageNo, pageCount);
      assert u == RemoteTables(t, apiKey, params, now, remote);
      RemoteTablesTwice(t, apiKey, params, now, remote);
    }
  }

  /**
   * A remote answer that is fetched and saved stores every listed document,
   * keeps every stored one as it was, touches no statement or account, and
   * is served from the cache for the next two hours.
   */
  lemma RemoteTablesStoresListed(t: Tables, apiKey: string, params: Params, now: int,
                                 remote: (string, Params) -> Result<Response, string>, later: int)
    requires CachedResponseFor(t.apiCache, GenerateCacheKey(ListEndpoint, params), now).None?
    requires var fetched := MakeApiRequest(apiKey, ListEndpoint, params, remote);
             && fetched.Ok? && Succeeded(fetched.value)
             && SaveAll(SaveState(t.companies, t.documents, 0), fetched.value.items, now).Ok?
    requires now <= later < now + ListCacheHours * SecondsPerHour
    ensures var fetched := MakeApiRequest(apiKey, ListEndpoint, params, remote);
            var items := fetched.value.items;
            var u := RemoteTables(t, apiKey, params, now, remote);
            && (forall i :: 0 <= i < |items| ==> "rcept_no" in items[i] && items[i]["rcept_no"] in u.documents)
            && (forall k :: k in t.documents ==> k in u.documents && u.documents[k] == t.documents[k])
            && CachedResponseFor(u.apiCache, GenerateCacheKey(ListEndpoint, params), later) == Some(fetched.value)
            && u.statements == t.statements && u.nextStatementId == t.nextStatementId && u.accounts == t.accounts
  {
    var fetched := MakeApiRequest(apiKey, ListEndpoint, params, remote);
    var start := SaveState(t.companies, t.documents, 0);
    forall i | 0 <= i < |fetched.value.items|
      ensures "rcept_no" in fetched.value.items[i]
              && fetched.value.items[i]["rcept_no"] in SaveAll(start, fetched.value.items, now).value.documents
    {
      SaveAllCovers(start, fetched.value.items, now, i);
    }
    SaveAllKeeps(start, fetched.value.items, now);
    CacheUpsertThenGet(t.apiCache, GenerateCacheKey(ListEndpoint, params), fetched.value, now, ListCacheHours, later);
  }

  /** Saving keeps every stored document filed under its own number. */
  lemma {:induction false} SaveAllKeysMatch(st: SaveState, docs: seq<Record>, now: int)
    requires forall k :: k in st.documents ==> st.documents[k].rceptNo == k
    requires SaveAll(st, docs, now).Ok?
    ensures forall k :: k in SaveAll(st, docs, now).value.documents ==> SaveAll(st, docs, now).value.documents[k].rceptNo == k
    decreases |docs|
  {
    if docs != [] {
      SaveAllSnoc(st, docs, now);
      SaveAllKeysMatch(st, docs[..|docs| - 1], now);
      SaveOneKeysMatch(SaveAll(st, docs[..|docs| - 1], now).value, docs[|docs| - 1], now);
    }
  }

  /**
   * A search keeps the store's invariant, never alters or removes a stored
   * document, and never touches the statements or the account counter.
   */
  lemma SearchTablesKeeps(t: Tables, apiKey: string, corpCode: Option<string>, corpName: Option<string>,
                          bgnDe: Option<string>, endDe: Option<string>, pblntfTy: Option<string>, corpCls: Option<string>,
                          pageNo: int, pageCount: int, now: int,
                          remote: (string, Params) -> Result<Response, string>)
    requires TablesValid(t)
    ensures var u := SearchTables(t, apiKey, corpCode, corpName, bgnDe, endDe, pblntfTy, corpCls, pageNo, pageCount, now, remote);
            && TablesValid(u)
            && (forall k :: k in t.documents ==> k in u.documents && u.documents[k] == t.documents[k])
            && u.statements == t.statements && u.nextStatementId == t.nextStatementId && u.accounts == t.accounts
  {
    var u := SearchTables(t, apiKey, corpCode, corpName, bgnDe, endDe, pblntfTy, corpCls, pageNo, pageCount, now, remote);
    if u != t {
      var params := SearchParams(corpCode, bgnDe, endDe, pblntfTy, corpCls, pageNo, pageCount);
      var fetched := MakeApiRequest(apiKey, ListEndpoint, params, remote);
      var start := SaveState(t.companies, t.documents, 0);
      assert u == RemoteTables(t, apiKey, params, now, remote);
      SaveAllKeeps(start, fetched.value.items, now);
      SaveAllKeysMatch(start, fetched.value.items, now);
    }
  }

  /** A financial lookup leaves every row of every other report as it was. */
  lemma FinancialTablesKeeps(t: Tables, apiKey: string, corpCode: string, bsnsYear: string, reprtCode: string, now: int,
                             remote: (string, Params) -> Result<Response, string>)
    requires TablesValid(t)
    ensures var u := FinancialTables(t, apiKey, corpCode, bsnsYear, reprtCode, now, remote);
            && u.companies == t.companies && u.documents == t.documents
            && forall id :: id in t.statements && !IsReport(t.statements[id], corpCode, bsnsYear, reprtCode) ==>
                 id in u.statements && u.statements[id] == t.statements[id]
  {
    var u := FinancialTables(t, apiKey, corpCode, bsnsYear, reprtCode, now, remote);
    if u != t {
      var items := MakeApiRequest(apiKey, FinancialEndpoint, FinancialParams(corpCode, bsnsYear, reprtCode), remote).value.items;
      forall id | id in t.statements && !IsReport(t.statements[id], corpCode, bsnsYear, reprtCode)
        ensures id in u.statements && u.statements[id] == t.statements[id]
      {
        ReplaceReportKeepsOthers(t.statements, t.nextStatementId, items, corpCode, bsnsYear, reprtCode, id);
      }
    }
  }

  /** Asking again for a report just fetched finds it stored, so the second call changes nothing. */
  lemma FinancialTablesTwice(t: Tables, apiKey: string, corpCode: string, bsnsYear: string, reprtCode: string, now: int,
                             remote: (string, Params) -> Result<Response, string>)
    requires TablesValid(t)
    ensures var u := FinancialTables(t, apiKey, corpCode, bsnsYear, reprtCode, now, remote);
            FinancialTables(u, apiKey, corpCode, bsnsYear, reprtCode, now, remote) == u
  {
    var u := FinancialTables(t, apiKey, corpCode, bsnsYear, reprtCode, now, remote);
    if u != t {
      var items := MakeApiRequest(apiKey, FinancialEndpoint, FinancialParams(corpCode, bsnsYear, reprtCode), remote).value.items;
      ReplaceReportIds(t.statements, t.nextStatementId, items, corpCode, bsnsYear, reprtCode);
      assert t.nextStatementId in ReportIds(u.statements, corpCode, bsnsYear, reprtCode);
    }
  }

  /** Saving a report that has no rows yet keeps every row and adds the new ones in list order. */
  lemma ReplaceAbsentReport(statements: map<nat, FinancialStatement>, first: nat, items: seq<Record>,
                            corpCode: string, bsnsYear: string, reprtCode: string)
    requires forall id :: id in statements ==> id < first
    requires ReportIds(statements, corpCode, bsnsYear, reprtCode) == {}
    ensures var st := ReplaceReport(statements, first, items, corpCode, bsnsYear, reprtCode);
            && (forall id :: id in ReportIds(st, corpCode, bsnsYear, reprtCode) <==> first <= id < first + |items|)
            && (forall i :: 0 <= i < |items| ==>
                  first + i in st && st[first + i] == StatementFrom(items[i], corpCode, bsnsYear, reprtCode))
            && (forall id :: id in statements ==> id in st && st[id] == statements[id])
  {
    var st := ReplaceReport(statements, first, items, corpCode, bsnsYear, reprtCode);
    ReplaceReportIds(statements, first, items, corpCode, bsnsYear, reprtCode);
    forall i | 0 <= i < |items|
      ensures first + i in st && st[first + i] == StatementFrom(items[i], corpCode, bsnsYear, reprtCode)
    {
      ReplaceReportNewRows(statements, first, items, corpCode, bsnsYear, reprtCode, i);
    }
    forall id | id in statements ensures id in st && st[id] == statements[id] {
      assert id !in ReportIds(statements, corpCode, bsnsYear, reprtCode);
      ReplaceReportKeepsOthers(statements, first, items, corpCode, bsnsYear, reprtCode, id);
    }
  }

  /** The tables after a fresh successful fetch, field by field. */
  lemma FinancialTablesFetch(t: Tables, apiKey: string, corpCode: string, bsnsYear: string, reprtCode: string,
                             now: int, remote: (string, Params) -> Result<Response, string>)
    requires ReportIds(t.statements, corpCode, bsnsYear, reprtCode) == {}
    requires CachedResponseFor(t.apiCache, GenerateCacheKey(FinancialEndpoint, FinancialParams(corpCode, bsnsYear, reprtCode)), now).None?
    requires var fetched := MakeApiRequest(apiKey, FinancialEndpoint, FinancialParams(corpCode, bsnsYear, reprtCode), remote);
             fetched.Ok? && Succeeded(fetched.value)
    ensures var fetched := MakeApiRequest(apiKey, FinancialEndpoint, FinancialParams(corpCode, bsnsYear, reprtCode), remote);
            var u := FinancialTables(t, apiKey, corpCode, bsnsYear, reprtCode, now, remote);
            && u.statements == ReplaceReport(t.statements, t.nextStatementId, fetched.value.items, corpCode, bsnsYear, reprtCode)
            && u.nextStatementId == t.nextStatementId + |fetched.value.items|
            && u.accounts == AccountsAfterUse(t.accounts, AccountNamesIn(fetched.value.items), now)
            && u.apiCache == CacheUpsert(t.apiCache, GenerateCacheKey(FinancialEndpoint, FinancialParams(corpCode, bsnsYear, reprtCode)),
                                         fetched.value, now, FinancialCacheHours)
  {
  }

  /** A financial lookup keeps the store's invariant: new ids lie below the advanced counter. */
  lemma FinancialTablesValid(t: Tables, apiKey: string, corpCode: string, bsnsYear: string, reprtCode: string, now: int,
                             remote: (string, Params) -> Result<Response, string>)
    requires TablesValid(t)
    ensures TablesValid(FinancialTables(t, apiKey, corpCode, bsnsYear, reprtCode, now, remote))
  {
    var u := FinancialTables(t, apiKey, corpCode, bsnsYear, reprtCode, now, remote);
    if u != t {
      var items := MakeApiRequest(apiKey, FinancialEndpoint, FinancialParams(corpCode, bsnsYear, reprtCode), remote).value.items;
      forall id | id in u.statements ensures id < u.nextStatementId {
        ReplaceReportParts(t.statements, t.nextStatementId, items, corpCode, bsnsYear, reprtCode, id);
      }
    }
  }

  class DartApiService {
    const apiKey: string
    const db: Store

    constructor (apiKey: string, db: Store)
      ensures this.apiKey == apiKey && this.db == db
    {
      this.apiKey := apiKey;
      this.db := db;
    }

    /** `_cache_response`: upsert of the key's one entry. */
    method CacheResponse(key: CacheKey, data: Response, now: int, hours: int)
      requires db.Valid()
      modifies db
      ensures db.Valid()
      ensures db.apiCache == CacheUpsert(old(db.apiCache), key, data, now, hours)
      ensures db.companies == old(db.companies) && db.documents == old(db.documents)
      ensures db.statements == old(db.statements) && db.nextStatementId == old(db.nextStatementId)
      ensures db.accounts == old(db.accounts)
    {
      db.apiCache := db.apiCache[key := CachedResponse(data, now + hours * SecondsPerHour)];
    }

    /** `_update_account_cache`: collect the distinct names, then count one use of each. */
    method UpdateAccountCache(statements: seq<Record>, now: int)
      requires db.Valid()
      modifies db
      ensures db.Valid()
      ensures db.accounts == AccountsAfterUse(old(db.accounts), AccountNamesIn(statements), now)
      ensures db.companies == old(db.companies) && db.documents == old(db.documents)
      ensures db.statements == old(db.statements) && db.nextStatementId == old(db.nextStatementId)
      ensures db.apiCache == old(db.apiCache)
    {
      var names := DistinctAccountNames(statements);
      ghost var start := db.accounts;
      var remaining := names;
      while remaining != {}
        invariant remaining <= names
        invariant db.Valid()
        invariant db.accounts == AccountsAfterUse(start, names - remaining, now)
        invariant db.companies == old(db.companies) && db.documents == old(db.documents)
        invariant db.statements == old(db.statements) && db.nextStatementId == old(db.nextStatementId)
        invariant db.apiCache == old(db.apiCache)
        decreases remaining
      {
        var name :| name in remaining;
        UseOneName(start, names, remaining, name, now);
        if name in db.accounts {
          db.accounts := db.accounts[name := AccountEntry(db.accounts[name].usageCount + 1, now)];
        } else {
          db.accounts := db.accounts[name := AccountEntry(DefaultUsageCount, now)];
        }
        remaining := remaining - {name};
      }
      assert names - remaining == names;
    }

    /** `_save_financial_statements`: delete the report's rows, then insert one row per list item with fresh ids. */
    method SaveFinancialStatements(statements: seq<Record>, corpCode: string, bsnsYear: string, reprtCode: string)
      requires db.Valid()
      modifies db
      ensures db.Valid()
      ensures db.nextStatementId == old(db.nextStatementId) + |statements|
      ensures db.statements == ReplaceReport(old(db.statements), old(db.nextStatementId), statements, corpCode, bsnsYear, reprtCode)
      ensures db.companies == old(db.companies) && db.documents == old(db.documents)
      ensures db.accounts == old(db.accounts) && db.apiCache == old(db.apiCache)
    {
      var first := db.nextStatementId;
      var kept := WithoutReport(db.statements, corpCode, bsnsYear, reprtCode);
      var rows := kept;
      var i := 0;
      while i < |statements|
        invariant 0 <= i <= |statements|
        invariant rows == kept + Inserted(first, statements[..i], corpCode, bsnsYear, reprtCode)
        modifies {}
      {
        InsertNext(kept, first, statements, i, corpCode, bsnsYear, reprtCode);
        rows := rows[first + i := StatementFrom(statements[i], corpCode, bsnsYear, reprtCode)];
        i := i + 1;
      }
      assert statements[..i] == statements;
      db.statements := rows;
      db.nextStatementId := first + |statements|;
    }

    /**
     * `_save_disclosure_documents`. The changes become visible only at the
     * commit at the end, so a KeyError on any document leaves every table as
     * it was. Returns the number of new documents.
     */
    method SaveDisclosureDocuments(docs: seq<Record>, now: int) returns (r: Result<nat, string>)
      requires db.Valid()
      modifies db
      ensures db.Valid()
      ensures r.Err? <==> SaveAll(SaveState(old(db.companies), old(db.documents), 0), docs, now).Err?
      ensures r.Err? ==> db.companies == old(db.companies) && db.documents == old(db.documents)
      ensures r.Ok? ==> var s := SaveAll(SaveState(old(db.companies), old(db.documents), 0), docs, now).value;
        r.value == s.saved && db.companies == s.companies && db.documents == s.documents
      ensures db.statements == old(db.statements) && db.nextStatementId == old(db.nextStatementId)
      ensures db.accounts == old(db.accounts) && db.apiCache == old(db.apiCache)
    {
      var start := SaveState(db.companies, db.documents, 0);
      var st := start;
      var i := 0;
      while i < |docs|
        invariant 0 <= i <= |docs|
        invariant SaveAll(start, docs[..i], now) == Ok(st)
        invariant forall k :: k in st.documents ==> st.documents[k].rceptNo == k
        modifies {}
      {
        SaveAllStep(start, docs, i, now);
        var next := SaveOne(st, docs[i], now);
        if next.Err? {
          SaveAllErrSticks(start, docs, i + 1, now);
          return Err(next.error);
        }
        SaveOneKeysMatch(st, docs[i], now);
        st := next.value;
        i := i + 1;
      }
      assert docs[..i] == docs;
      db.companies := st.companies;
      db.documents := st.documents;
      r := Ok(st.saved);
    }

    /** The documents a query selects, newest `rcept_dt` first. */
    method QueryDocuments(q: LocalQuery) returns (rows: seq<DisclosureDocument>)
      ensures |rows| == |MatchingKeys(db.documents, q)|
      ensures forall d :: d in rows <==> exists k :: k in MatchingKeys(db.documents, q) && db.documents[k] == d
      ensures SortedBy(rows, RceptDt, true)
    {
      var found: seq<DisclosureDocument> := [];
      ghost var keys: seq<string> := [];
      var remaining := db.documents.Keys;
      while remaining != {}
        invariant remaining <= db.documents.Keys
        invariant |found| == |keys|
        invariant forall i, j :: 0 <= i < j < |keys| ==> keys[i] != keys[j]
        invariant forall k :: k in keys ==> k !in remaining
        invariant forall k :: k in keys <==> k in MatchingKeys(db.documents, q) && k !in remaining
        invariant forall i :: 0 <= i < |keys| ==> keys[i] in db.documents && found[i] == db.documents[keys[i]]
        decreases remaining
      {
        var k :| k in remaining;
        if QueryMatches(q, db.documents[k]) {
          found := found + [db.documents[k]];
          keys := keys + [k];
        }
        remaining := remaining - {k};
      }
      DistinctCard(keys, MatchingKeys(db.documents, q));
      rows := SortBy(found, RceptDt, true);
      SortBySorted(found, RceptDt, true);
      assert |rows| == |multiset(rows)| == |multiset(found)| == |found|;
      forall d ensures d in rows <==> d in found {
        assert d in rows <==> d in multiset(rows);
        assert d in found <==> d in multiset(found);
      }
      forall d | d in found ensures exists k :: k in MatchingKeys(db.documents, q) && db.documents[k] == d {
        var i :| 0 <= i < |found| && found[i] == d;
        assert keys[i] in keys;
      }
    }

    /** One of the three local searches: the requested page of the matches, newest first, with the counts. */
    method SearchLocal(q: LocalQuery, pageNo: int, pageCount: int) returns (r: Result<Response, string>, ghost rows: seq<DisclosureDocument>)
      ensures r == PagedResponse(DocumentRecords(rows), pageNo, pageCount, QueryMessage(q))
      ensures Listing(db.documents, q, rows)
      ensures LocalAnswer(db.documents, q, pageNo, pageCount, r)
      ensures r.Err? <==> pageCount == 0
      ensures r.Ok? ==> && r.value.status == "000" && r.value.message == QueryMessage(q) && r.value.paging.Some?
                        && r.value.paging.value.totalCount == |MatchingKeys(db.documents, q)|
                        && (r.value.items != [] <==> PageNonEmpty(|MatchingKeys(db.documents, q)|, pageNo, pageCount))
    {
      var found := QueryDocuments(q);
      rows := found;
      r := PagedResponse(DocumentRecords(found), pageNo, pageCount, QueryMessage(q));
    }

    /**
     * `search_companies_optimized`. Without an API key only the local tables
     * are searched. Otherwise a name search and then a code search are tried
     * locally; when neither yields a row, `list.json` is answered from the
     * cache or requested, and a successful answer is saved and cached for 2
     * hours. A page size of 0 fails in the local search (ZeroDivisionError).
     */
    method SearchCompaniesOptimized(corpCode: Option<string>, corpName: Option<string>, bgnDe: Option<string>,
                                    endDe: Option<string>, pblntfTy: Option<string>, corpCls: Option<string>,
                                    pageNo: int, pageCount: int, now: int,
                                    remote: (string, Params) -> Result<Response, string>)
      returns (r: Result<Response, string>)
      requires db.Valid()
      modifies db
      ensures db.Valid()
      ensures db.Snapshot() == SearchTables(old(db.Snapshot()), apiKey, corpCode, corpName, bgnDe, endDe, pblntfTy, corpCls,
                                            pageNo, pageCount, now, remote)
      ensures SearchAnswer(old(db.Snapshot()), apiKey, corpCode, corpName, bgnDe, endDe, pblntfTy, corpCls,
                           pageNo, pageCount, now, remote, r)
    {
      ghost var t := db.Snapshot();
      ghost var rows;
      if apiKey == "" {
        if Truthy(corpName) {
          r, rows := SearchLocal(ByName(corpName.value, corpCls), pageNo, pageCount);
        } else if Truthy(corpCode) {
          r, rows := SearchLocal(ByCode(corpCode.value), pageNo, pageCount);
        } else {
          r, rows := SearchLocal(Recent(corpCls), pageNo, pageCount);
        }
        SearchWithoutKey(t, corpCode, corpName, bgnDe, endDe, pblntfTy, corpCls, pageNo, pageCount, now, remote, r);
        return;
      }
      if Truthy(corpName) {
        r, rows := SearchLocal(ByName(corpName.value, corpCls), pageNo, pageCount);
        if r.Err? || r.value.items != [] {
          SearchNameHit(t, apiKey, corpCode, corpName, bgnDe, endDe, pblntfTy, corpCls, pageNo, pageCount, now, remote, r);
          return;
        }
      }
      if Truthy(corpCode) {
        r, rows := SearchLocal(ByCode(corpCode.value), pageNo, pageCount);
        if r.Err? || r.value.items != [] {
          SearchCodeHit(t, apiKey, corpCode, corpName, bgnDe, endDe, pblntfTy, corpCls, pageNo, pageCount, now, remote, r);
          return;
        }
      }
      ghost var params := SearchParams(corpCode, bgnDe, endDe, pblntfTy, corpCls, pageNo, pageCount);
      assert !(Truthy(corpName) && LocalHit(t.documents, ByName(corpName.value, corpCls), pageNo, pageCount));
      assert !(Truthy(corpCode) && LocalHit(t.documents, ByCode(corpCode.value), pageNo, pageCount));
      r := SearchRemote(SearchParams(corpCode, bgnDe, endDe, pblntfTy, corpCls, pageNo, pageCount), now, remote);
      SearchMiss(t, apiKey, corpCode, corpName, bgnDe, endDe, pblntfTy, corpCls, pageNo, pageCount, now, remote, r);
    }

    /**
     * The remote half of `search_companies_optimized`: a live cache entry is
     * the answer; otherwise the API is called, and a successful non-empty
     * answer is saved to the tables and then cached for two hours.
     */
    method SearchRemote(params: Params, now: int, remote: (string, Params) -> Result<Response, string>)
      returns (r: Result<Response, string>)
      requires db.Valid()
      modifies db
      ensures db.Valid()
      ensures db.Snapshot() == RemoteTables(old(db.Snapshot()), apiKey, params, now, remote)
      ensures RemoteAnswer(old(db.Snapshot()), apiKey, params, now, remote, r)
    {
      var key := GenerateCacheKey(ListEndpoint, params);
      var cached := CachedResponseFor(db.apiCache, key, now);
      if cached.Some? {
        return Ok(cached.value);
      }
      r := MakeApiRequest(apiKey, ListEndpoint, params, remote);
      if r.Ok? && Succeeded(r.value) {
        var saved := SaveDisclosureDocuments(r.value.items, now);
        if saved.Err? {
          return Err(saved.error);
        }
        CacheResponse(key, r.value, now, ListCacheHours);
      }
    }

    /** The rows of one report, in the order the table returns them. */
    method ReportRows(corpCode: string, bsnsYear: string, reprtCode: string) returns (rows: seq<FinancialStatement>, ghost ids: seq<nat>)
      ensures |rows| == |ids|
      ensures forall i, j :: 0 <= i < j < |ids| ==> ids[i] != ids[j]
      ensures forall id :: id in ids <==> id in ReportIds(db.statements, corpCode, bsnsYear, reprtCode)
      ensures forall i :: 0 <= i < |ids| ==> ids[i] in db.statements && rows[i] == db.statements[ids[i]]
    {
      rows := [];
      ids := [];
      var remaining := db.statements.Keys;
      while remaining != {}
        invariant remaining <= db.statements.Keys
        invariant |rows| == |ids|
        invariant forall i, j :: 0 <= i < j < |ids| ==> ids[i] != ids[j]
        invariant forall id :: id in ids ==> id !in remaining
        invariant forall id :: id in ids <==> id in ReportIds(db.statements, corpCode, bsnsYear, reprtCode) && id !in remaining
        invariant forall i :: 0 <= i < |ids| ==> ids[i] in db.statements && rows[i] == db.statements[ids[i]]
        decreases remaining
      {
        var id :| id in remaining;
        if IsReport(db.statements[id], corpCode, bsnsYear, reprtCode) {
          rows := rows + [db.statements[id]];
          ids := ids + [id];
        }
        remaining := remaining - {id};
      }
    }

    /** `_get_financial_data_local`. */
    method GetFinancialDataLocal(corpCode: string, bsnsYear: string, reprtCode: string)
      returns (r: Response, ghost rows: seq<FinancialStatement>)
      ensures r.status == "000" <==> ReportIds(db.statements, corpCode, bsnsYear, reprtCode) != {}
      ensures r.status == "013" <==> ReportIds(db.statements, corpCode, bsnsYear, reprtCode) == {}
      ensures r == LocalFinancialResponse(rows)
      ensures ReportListing(db.statements, corpCode, bsnsYear, reprtCode, rows)
    {
      var found;
      ghost var ids;
      found, ids := ReportRows(corpCode, bsnsYear, reprtCode);
      DistinctCard(ids, ReportIds(db.statements, corpCode, bsnsYear, reprtCode));
      var sorted := SortBy(found, OrdKey, false);
      SortBySorted(found, OrdKey, false);
      SameElements(found, sorted);
      RowsOfIds(found, ids, db.statements, ReportIds(db.statements, corpCode, bsnsYear, reprtCode));
      assert found == RowsAt(db.statements, ids);
      assert Enumerates(ids, ReportIds(db.statements, corpCode, bsnsYear, reprtCode));
      rows := sorted;
      r := LocalFinancialResponse(sorted);
    }

    /**
     * `get_financial_data_optimized`: stored rows first, then the cache, then
     * the API; a successful answer is stored, counted and cached for 24 hours.
     */
    method GetFinancialDataOptimized(corpCode: string, bsnsYear: string, reprtCode: string, now: int,
                                     remote: (string, Params) -> Result<Response, string>)
      returns (r: Result<Response, string>)
      requires db.Valid()
      modifies db
      ensures db.Valid()
      ensures db.Snapshot() == FinancialTables(old(db.Snapshot()), apiKey, corpCode, bsnsYear, reprtCode, now, remote)
      ensures FinancialAnswer(old(db.Snapshot()), apiKey, corpCode, bsnsYear, reprtCode, now, remote, r)
    {
      var local;
      ghost var rows;
      local, rows := GetFinancialDataLocal(corpCode, bsnsYear, reprtCode);
      if local.items != [] {
        return Ok(local);
      }
      var params := FinancialParams(corpCode, bsnsYear, reprtCode);
      var key := GenerateCacheKey(FinancialEndpoint, params);
      var cached := CachedResponseFor(db.apiCache, key, now);
      if cached.Some? {
        return Ok(cached.value);
      }
      r := MakeApiRequest(apiKey, FinancialEndpoint, params, remote);
      if r.Ok? && Succeeded(r.value) {
        SaveFinancialStatements(r.value.items, corpCode, bsnsYear, reprtCode);
        UpdateAccountCache(r.value.items, now);
        CacheResponse(key, r.value, now, FinancialCacheHours);
      }
    }
  }

  /** A duplicate-free sequence listing exactly a set has the set's size. */
  lemma {:induction false} DistinctCard<T>(ids: seq<T>, s: set<T>)
    requires forall i, j :: 0 <= i < j < |ids| ==> ids[i] != ids[j]
    requires forall id :: id in ids <==> id in s
    ensures |ids| == |s|
    decreases |ids|
  {
    if ids != [] {
      var last := ids[|ids| - 1];
      var prefix := ids[..|ids| - 1];
      assert forall id :: id in prefix <==> id in s - {last} by {
        forall id ensures id in prefix <==> id in s - {last} {
          if id in prefix {
            var k :| 0 <= k < |prefix| && prefix[k] == id;
            assert ids[k] == id;
          }
          if id in s - {last} {
            assert id in ids;
            var k :| 0 <= k < |ids| && ids[k] == id;
            assert k != |ids| - 1;
            assert prefix[k] == id;
          }
        }
      }
      DistinctCard(prefix, s - {last});
    } else {
      assert s == {} by { forall id | id in s ensures false { } }
    }
  }

  /** A permutation has the same length and the same elements. */
  lemma SameElements<T>(a: seq<T>, b: seq<T>)
    requires multiset(a) == multiset(b)
    ensures |a| == |b|
    ensures forall x :: x in a <==> x in b
  {
    assert |a| == |multiset(a)| && |b| == |multiset(b)|;
    forall x ensures x in a <==> x in b {
      assert x in a <==> x in multiset(a);
      assert x in b <==> x in multiset(b);
    }
  }

  /** Rows read at ids listing a set are exactly the rows of that set's ids. */
  lemma RowsOfIds(rows: seq<FinancialStatement>, ids: seq<nat>, statements: map<nat, FinancialStatement>, s: set<nat>)
    requires |rows| == |ids|
    requires forall id :: id in ids <==> id in s
    requires forall i :: 0 <= i < |ids| ==> ids[i] in statements && rows[i] == statements[ids[i]]
    ensures s <= statements.Keys
    ensures forall x :: x in rows <==> exists id :: id in s && statements[id] == x
  {
    forall x | x in rows ensures exists id :: id in s && statements[id] == x {
      var i :| 0 <= i < |rows| && rows[i] == x;
      assert ids[i] in ids;
    }
    forall id | id in s ensures id in statements && statements[id] in rows {
      var i :| 0 <= i < |ids| && ids[i] == id;
      assert rows[i] == statements[id];
    }
  }
}

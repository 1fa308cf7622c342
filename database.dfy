/**
 * The relational store of the backend, with every table a map keyed by its
 * primary key (or its unique column), so that each key has at most one row.
 */
module Database {
  import opened Common

  /** A JSON object with text values, as the DART API returns list items; a missing or null field has no entry. */
  type Record = map<string, string>

  function Get(r: Record, field: string): Option<string>
  {
    if field in r then Some(r[field]) else None
  }

  /** `dict.get(field, default)`. */
  function GetOr(r: Record, field: string, default: string): string
  {
    if field in r then r[field] else default
  }

  /** Python truthiness of `r.get(field)` for a text field. */
  predicate HasText(r: Record, field: string)
  {
    field in r && r[field] != ""
  }

  /** A request parameter value: text or a whole number (`page_no`, `page_count`). */
  datatype Value = Text(text: string) | Int(number: int)

  type Params = map<string, Value>

  /** Position of a page of results, as the local searches report it. */
  datatype Paging = Paging(pageNo: int, pageCount: int, totalCount: nat, totalPage: int)

  /** An API or local response: status code, message, list items and, for searches, paging. */
  datatype Response = Response(status: string, message: string, items: seq<Record>, paging: Option<Paging>)

  /**
   * The cache key of a request. The source hashes the endpoint and the
   * key-sorted JSON of the parameters; the model keeps that pre-image itself.
   */
  datatype CacheKey = CacheKey(endpoint: string, params: Params)

  /** `companies`, keyed by `corp_code`. */
  datatype Company = Company(corpName: string, corpCls: Option<string>, updatedAt: int)

  /** `disclosure_documents`, keyed by `rcept_no`. */
  datatype DisclosureDocument = DisclosureDocument(
    rceptNo: string,
    corpCode: string,
    corpName: string,
    corpCls: Option<string>,
    reportNm: string,
    rceptDt: string,
    flrNm: string,
    pblntfTy: Option<string>,
    pblntfDetailTy: Option<string>,
    rm: Option<string>)

  /** `financial_statements`, keyed by an auto-incremented id. */
  datatype FinancialStatement = FinancialStatement(
    corpCode: string,
    bsnsYear: string,
    reprtCode: string,
    sjDiv: Option<string>,
    sjNm: Option<string>,
    accountId: Option<string>,
    accountNm: string,
    accountDetail: Option<string>,
    thstrmNm: Option<string>,
    thstrmAmount: Option<string>,
    frmtrmNm: Option<string>,
    frmtrmAmount: Option<string>,
    bfefrmtrmNm: Option<string>,
    bfefrmtrmAmount: Option<string>,
    ord: Option<string>,
    currency: Option<string>)

  /** `account_cache`, keyed by its unique `account_nm`. */
  datatype AccountEntry = AccountEntry(usageCount: int, lastUsed: int)

  /** A new account row counts one use. */
  const DefaultUsageCount: int := 1

  /** `api_cache`, keyed by `cache_key`. */
  datatype CachedResponse = CachedResponse(data: Response, expiresAt: int)

  /** `cleanup_expired_cache`: every entry that expired before `now` is gone. */
  function Cleanup(cache: map<CacheKey, CachedResponse>, now: int): (r: map<CacheKey, CachedResponse>)
    ensures forall k :: k in r <==> k in cache && cache[k].expiresAt >= now
    ensures forall k :: k in r ==> r[k] == cache[k]
  {
    map k | k in cache && cache[k].expiresAt >= now :: cache[k]
  }

  /** A second cleanup at the same instant removes nothing more. */
  lemma CleanupIdempotent(cache: map<CacheKey, CachedResponse>, now: int)
    ensures Cleanup(Cleanup(cache, now), now) == Cleanup(cache, now)
  {
  }

  /** Cleaning up at a later instant also removes what an earlier cleanup removed. */
  lemma CleanupMonotone(cache: map<CacheKey, CachedResponse>, earlier: int, later: int)
    requires earlier <= later
    ensures Cleanup(Cleanup(cache, earlier), later) == Cleanup(cache, later)
    ensures Cleanup(cache, later).Keys <= Cleanup(cache, earlier).Keys
  {
  }

  /** The contents of every table at one instant. */
  datatype Tables = Tables(
    companies: map<string, Company>,
    documents: map<string, DisclosureDocument>,
    statements: map<nat, FinancialStatement>,
    nextStatementId: nat,
    accounts: map<string, AccountEntry>,
    apiCache: map<CacheKey, CachedResponse>)

  /** Document rows carry their own key, and every statement id is below the next one to assign. */
  predicate TablesValid(t: Tables)
  {
    && (forall k :: k in t.documents ==> t.documents[k].rceptNo == k)
    && (forall id :: id in t.statements ==> id < t.nextStatementId)
  }

  /** The backend's tables. */
  class Store {
    var companies: map<string, Company>
    var documents: map<string, DisclosureDocument>
    var statements: map<nat, FinancialStatement>
    var nextStatementId: nat
    var accounts: map<string, AccountEntry>
    var apiCache: map<CacheKey, CachedResponse>

    /** Document rows carry their own key, and every statement id is below the next one to assign. */
    predicate Valid()
      reads this
    {
      && (forall k :: k in documents ==> documents[k].rceptNo == k)
      && (forall id :: id in statements ==> id < nextStatementId)
    }

    /** The current contents of the tables. */
    function Snapshot(): (t: Tables)
      reads this
      ensures Valid() <==> TablesValid(t)
    {
      Tables(companies, documents, statements, nextStatementId, accounts, apiCache)
    }

    constructor ()
      ensures Valid()
      ensures companies == map[] && documents == map[] && statements == map[]
      ensures accounts == map[] && apiCache == map[]
    {
      companies := map[];
      documents := map[];
      statements := map[];
      nextStatementId := 1;
      accounts := map[];
      apiCache := map[];
    }

    /** `DELETE FROM api_cache WHERE expires_at < now`; every other table is untouched. */
    method CleanupExpiredCache(now: int)
      requires Valid()
      modifies this
      ensures Valid()
      ensures apiCache == Cleanup(old(apiCache), now)
      ensures companies == old(companies) && documents == old(documents)
      ensures statements == old(statements) && nextStatementId == old(nextStatementId)
      ensures accounts == old(accounts)
    {
      apiCache := Cleanup(apiCache, now);
    }
  }
}

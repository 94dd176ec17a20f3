/**
 * The first-generation lead library (lib/index.ts): domain extraction, the
 * OR-of-thresholds qualification rule, and the two cache-aside lookups over
 * the key/TTL store.
 */
module LeadLib {
  import opened Wrappers
  import opened Text
  import opened LeadTypes
  import opened ConvexSchema
  import Workspaces
  import Http

  /** `extractDomainFromEmail`: the text after the `@` when there is exactly one. */
  function ExtractDomainFromEmail(email: string): (r: Option<string>)
    ensures r.Some? <==> CountChar(email, '@') == 1
    ensures r.Some? ==> '@' !in r.value && exists local :: '@' !in local && email == local + "@" + r.value
  {
    var parts := Split(email, '@');
    if |parts| == 2 then
      SplitJoin(email, '@');
      assert email == parts[0] + "@" + parts[1];
      Some(parts[1])
    else None
  }

  /** The domain is found again in `local@domain` when neither side has an `@`, even when it is empty. */
  lemma ExtractDomainOfAddress(local: string, domain: string)
    requires '@' !in local && '@' !in domain
    ensures ExtractDomainFromEmail(local + "@" + domain) == Some(domain)
  {
    SplitAtFirst(local, domain, '@');
    SplitAbsent(domain, '@');
  }

  /** With no `@`, or with several, there is no domain. */
  lemma ExtractDomainNeedsOneAt(email: string)
    requires CountChar(email, '@') != 1
    ensures ExtractDomainFromEmail(email) == None
  {
  }

  /** JavaScript truthiness of an optional count or amount. */
  predicate Present(v: Option<int>) { v.Some? && v.value != 0 }
  predicate PresentReal(v: Option<real>) { v.Some? && v.value != 0.0 }

  /** The employee rule: truthy employees at or above a truthy `min_employees`. */
  predicate EmployeesMet(d: EnrichmentData, c: WorkspaceCriteria) {
    Present(d.employees) && Present(c.minEmployees) && d.employees.value >= c.minEmployees.value
  }

  /** The funding rule: truthy funding at or above a truthy `min_funding_usd`. */
  predicate FundingMet(d: EnrichmentData, c: WorkspaceCriteria) {
    PresentReal(d.funding) && PresentReal(c.minFundingUsd) && d.funding.value >= c.minFundingUsd.value
  }

  /** `qualifyLead`: the employee rule, then the funding rule; revenue is not checked. */
  function QualifyLead(data: Option<EnrichmentData>, criteria: Option<WorkspaceCriteria>): (q: QualificationResult)
  {
    if data.None? || criteria.None? then QualificationResult(false, "missing_data")
    else if EmployeesMet(data.value, criteria.value) then QualificationResult(true, "employees")
    else if FundingMet(data.value, criteria.value) then QualificationResult(true, "funding")
    else QualificationResult(false, "no criteria met")
  }

  /**
   * What each verdict of `qualifyLead` means: a lead qualifies exactly when
   * one of the two rules holds, the reason names the first rule that holds,
   * and a missing record or missing criteria always give "missing_data".
   */
  lemma QualifyLeadVerdicts(data: Option<EnrichmentData>, criteria: Option<WorkspaceCriteria>)
    ensures var q := QualifyLead(data, criteria);
      && (q.result <==> q.reason == "employees" || q.reason == "funding")
      && (data.None? || criteria.None? <==> q == QualificationResult(false, "missing_data"))
      && (q.reason == "employees" <==> data.Some? && criteria.Some? && EmployeesMet(data.value, criteria.value))
      && (q.reason == "funding" <==> data.Some? && criteria.Some? && !EmployeesMet(data.value, criteria.value)
                                      && FundingMet(data.value, criteria.value))
      && (q.reason == "no criteria met" <==> data.Some? && criteria.Some? && !EmployeesMet(data.value, criteria.value)
                                             && !FundingMet(data.value, criteria.value))
  {
  }

  /** A zero threshold disables its rule, exactly like an absent one. */
  lemma ZeroThresholdDisablesRule(d: EnrichmentData, c: WorkspaceCriteria)
    ensures QualifyLead(Some(d), Some(c.(minEmployees := Some(0)))) == QualifyLead(Some(d), Some(c.(minEmployees := None)))
    ensures QualifyLead(Some(d), Some(c.(minFundingUsd := Some(0.0)))) == QualifyLead(Some(d), Some(c.(minFundingUsd := None)))
  {
  }

  /** `min_revenue_usd` never affects the verdict. */
  lemma RevenueIgnored(d: EnrichmentData, c: WorkspaceCriteria, rev: Option<real>)
    ensures QualifyLead(Some(d), Some(c.(minRevenueUsd := rev))) == QualifyLead(Some(d), Some(c))
  {
  }

  /** `[a, b].filter(Boolean).join(", ") || null`: the non-empty industry values. */
  function Sector(industry: Option<string>, industryV2: Option<string>): (r: Option<string>)
    ensures r.None? <==> (industry.None? || industry.value == "") && (industryV2.None? || industryV2.value == "")
    ensures r.Some? ==> r.value != ""
  {
    var kept := (if industry.Some? && industry.value != "" then [industry.value] else [])
              + (if industryV2.Some? && industryV2.value != "" then [industryV2.value] else []);
    if kept == [] then None
    else
      var joined := Join(kept, ", ");
      assert joined != "" by {
        if |kept| == 1 { assert joined == kept[0]; } else { assert |joined| >= |kept[0]|; }
      }
      Some(joined)
  }

  /** Both industries present give "industry, industry_v2". */
  lemma SectorOfBoth(a: string, b: string)
    requires a != "" && b != ""
    ensures Sector(Some(a), Some(b)) == Some(a + ", " + b)
  {
    var kept := [a] + [b];
    assert kept[1..] == [b];
    assert Join(kept, ", ") == a + ", " + Join([b], ", ");
  }

  /** The company record the provider returns (only the fields this code reads). */
  datatype PdlCompany = PdlCompany(
    displayName: Option<string>,
    name: Option<string>,
    employeeCount: Option<int>,
    totalFundingRaised: Option<real>,
    size: Option<string>,
    industry: Option<string>,
    industryV2: Option<string>)

  /**
   * What the enrichment request yields: it throws (network error, unparsable
   * body), or it answers with a status and a body that may be JSON null.
   */
  datatype PdlResponse = PdlThrew | PdlReplied(status: int, data: Option<PdlCompany>)

  /** The all-null record returned on any provider failure. */
  const NoEnrichment := EnrichmentData(None, None, None, None, None)

  /** The record built from a successful reply (`data?.x ?? null` for each field). */
  function Enriched(data: Option<PdlCompany>): (e: EnrichmentData)
    ensures data.None? ==> e == NoEnrichment
    ensures data.Some? ==>
      && e.employees == data.value.employeeCount && e.funding == data.value.totalFundingRaised
      && e.size == data.value.size && e.sector == Sector(data.value.industry, data.value.industryV2)
    ensures data.Some? && data.value.displayName.Some? ==> e.name == data.value.displayName
    ensures data.Some? && data.value.displayName.None? ==> e.name == data.value.name
  {
    if data.None? then NoEnrichment
    else
      var c := data.value;
      EnrichmentData(
        if c.displayName.Some? then c.displayName else c.name,
        c.employeeCount, c.totalFundingRaised, Sector(c.industry, c.industryV2), c.size)
  }

  /** The default lifetimes, in seconds, of the two kinds of cache entry. */
  const EnrichmentExpiry := 604800
  const WorkspaceExpiry := 86400

  /** What the cache holds: an enrichment record or a workspace row. */
  datatype CacheValue = EnrichmentValue(data: EnrichmentData) | WorkspaceValue(workspace: Workspace)

  /** A stored value and the time (in seconds) at which it expires. */
  datatype CacheEntry = CacheEntry(value: CacheValue, expiresAt: int)

  /** `redis.get(key)`: the value when the key is present and not yet expired. */
  function Lookup(store: map<string, CacheEntry>, key: string, now: int): (r: Option<CacheValue>)
    ensures r.Some? <==> key in store && now < store[key].expiresAt
    ensures r.Some? ==> r.value == store[key].value
  {
    if key in store && now < store[key].expiresAt then Some(store[key].value) else None
  }

  /** `redis.set(key, value, { ex: ttl })` at time `now`. */
  function Put(store: map<string, CacheEntry>, key: string, value: CacheValue, now: int, ttl: int): map<string, CacheEntry> {
    store[key := CacheEntry(value, now + ttl)]
  }

  /** A value written with lifetime `ttl` is read back until it expires; other keys are unaffected. */
  lemma LookupAfterPut(store: map<string, CacheEntry>, key: string, other: string, value: CacheValue, now: int, ttl: int, later: int)
    ensures Lookup(Put(store, key, value, now, ttl), key, later) == if later < now + ttl then Some(value) else None
    ensures other != key ==> Lookup(Put(store, key, value, now, ttl), other, later) == Lookup(store, other, later)
  {
  }

  function EnrichmentKey(domain: string): string { "enrichment:" + domain }
  function WorkspaceKey(name: string): string { "workspace:" + name }

  /** The shared cache (`redis`). */
  class LeadCache {
    var store: map<string, CacheEntry>

    /** Keys of each kind hold values of that kind. */
    predicate Valid()
      reads this
    {
      forall k :: k in store ==>
        && (StartsAt(k, 0, "enrichment:") ==> store[k].value.EnrichmentValue?)
        && (StartsAt(k, 0, "workspace:") ==> store[k].value.WorkspaceValue?)
    }

    constructor ()
      ensures store == map[] && Valid()
    {
      store := map[];
    }

    /**
     * `enrichDomain`: refuses without an API key; returns a live cached record
     * without calling the provider; otherwise asks the provider, caching the
     * record only when the reply is ok. A failed or throwing request gives the
     * all-null record. `apiKey` "" stands for an unset key; `called` tells
     * whether the provider was asked. A non-positive expiry makes the store
     * refuse the write, which the source's catch turns into the all-null record.
     */
    method EnrichDomain(domain: string, expiry: int, now: int, apiKey: string, reply: PdlResponse)
      returns (r: Result<EnrichmentData>, called: bool)
      requires Valid()
      modifies this
      ensures Valid()
      ensures apiKey == "" ==> r == Failure("Missing PDL_API_KEY") && !called && store == old(store)
      ensures apiKey != "" && Lookup(old(store), EnrichmentKey(domain), now).Some? ==>
        && r == Success(Lookup(old(store), EnrichmentKey(domain), now).value.data)
        && !called && store == old(store)
      ensures apiKey != "" && Lookup(old(store), EnrichmentKey(domain), now).None? ==>
        && called
        && (reply.PdlReplied? && Http.IsOk(reply.status) && expiry > 0 ==>
              r == Success(Enriched(reply.data))
              && store == Put(old(store), EnrichmentKey(domain), EnrichmentValue(Enriched(reply.data)), now, expiry))
        && (!(reply.PdlReplied? && Http.IsOk(reply.status) && expiry > 0) ==>
              r == Success(NoEnrichment) && store == old(store))
    {
      if apiKey == "" {
        return Failure("Missing PDL_API_KEY"), false;
      }
      var key := EnrichmentKey(domain);
      var cached := Lookup(store, key, now);
      if cached.Some? {
        assert key in store && StartsAt(key, 0, "enrichment:");
        return Success(cached.value.data), false;
      }
      called := true;
      if reply.PdlThrew? || !Http.IsOk(reply.status) {
        return Success(NoEnrichment), called;
      }
      var enriched := Enriched(reply.data);
      if expiry <= 0 {
        return Success(NoEnrichment), called;
      }
      assert !StartsAt(key, 0, "workspace:") by {
        assert key[0] == 'e';
      }
      store := Put(store, key, EnrichmentValue(enriched), now, expiry);
      return Success(enriched), called;
    }

    /**
     * `getWorkspaceWithCache`: returns a live cached row without querying the
     * database; otherwise takes the first row with that name and caches it when
     * there is one. A non-positive expiry makes the store refuse the write, and
     * that error propagates.
     */
    method GetWorkspaceWithCache(db: Db, name: string, expiry: int, now: int)
      returns (r: Result<Option<Workspace>>, queried: bool)
      requires Valid()
      modifies this
      ensures Valid()
      ensures Lookup(old(store), WorkspaceKey(name), now).Some? ==>
        && r == Success(Some(Lookup(old(store), WorkspaceKey(name), now).value.workspace))
        && !queried && store == old(store)
      ensures Lookup(old(store), WorkspaceKey(name), now).None? ==>
        && queried
        && (Workspaces.GetByName(db, name).None? ==> r == Success(None) && store == old(store))
        && (Workspaces.GetByName(db, name).Some? && expiry > 0 ==>
              r == Success(Workspaces.GetByName(db, name))
              && store == Put(old(store), WorkspaceKey(name), WorkspaceValue(Workspaces.GetByName(db, name).value), now, expiry))
        && (Workspaces.GetByName(db, name).Some? && expiry <= 0 ==> r.Failure? && store == old(store))
    {
      var key := WorkspaceKey(name);
      var cached := Lookup(store, key, now);
      if cached.Some? {
        assert key in store && StartsAt(key, 0, "workspace:");
        return Success(Some(cached.value.workspace)), false;
      }
      queried := true;
      var ws := Workspaces.GetByName(db, name);
      if ws.Some? {
        if expiry <= 0 {
          return Failure("ERR invalid expire time in 'set' command"), queried;
        }
        assert !StartsAt(key, 0, "enrichment:") by {
          assert key[0] == 'w';
        }
        store := Put(store, key, WorkspaceValue(ws.value), now, expiry);
      }
      return Success(ws), queried;
    }
  }
}

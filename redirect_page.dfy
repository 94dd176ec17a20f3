/**
 * The redirect page of app/r/page.tsx: the guard chain that sends a visitor
 * to the error page, the qualification of a known workspace's lead, and the
 * choice and normalisation of the URL the visitor is sent to.
 */
module RedirectPage {
  import opened Wrappers
  import opened Text
  import opened LeadTypes
  import opened ConvexSchema
  import opened LeadLib

  const ErrorUrl := "https://example.com/error"
  const SuccessFallback := "https://example.com/success"
  const DisqualifyFallback := "https://example.com/disqualify"

  /** A URL that names its scheme. */
  predicate Absolute(url: string) {
    StartsAt(url, 0, "http://") || StartsAt(url, 0, "https://")
  }

  /** `normalizeUrl(url, fallback)`: the fallback for an empty URL, the URL itself when it names its scheme, else the URL under "https://". */
  function NormalizeUrl(url: string, fallback: string): (r: string)
    ensures url == "" ==> r == fallback
    ensures url != "" && Absolute(url) ==> r == url
    ensures url != "" && !Absolute(url) ==> r == "https://" + url
  {
    if url == "" then fallback
    else if Absolute(url) then url
    else "https://" + url
  }

  /** With an absolute fallback the result is absolute, and normalising it again changes nothing. */
  lemma NormalizeUrlAbsolute(url: string, fallback: string, other: string)
    requires Absolute(fallback)
    ensures Absolute(NormalizeUrl(url, fallback))
    ensures NormalizeUrl(NormalizeUrl(url, fallback), other) == NormalizeUrl(url, fallback)
  {
    var r := NormalizeUrl(url, fallback);
    if url != "" && !Absolute(url) {
      assert StartsAt(r, 0, "https://") by {
        assert r[..8] == "https://";
      }
    }
  }

  /** Where a visit goes, or the error it dies of (an uncaught throw). */
  datatype PageOutcome = Redirected(url: string) | Crashed(error: string)

  /** The guards before any lookup: go on with the decoded email, its domain and the workspace name, or stop. */
  datatype Step = Proceed(emailFormatted: string, domain: string, workspaceName: string) | Stop(outcome: PageOutcome)

  /**
   * The first two guards. `decode` is `decodeURIComponent`, None when it
   * throws on a malformed escape.
   */
  function Admit(email: Option<string>, workspaceName: Option<string>, decode: string -> Option<string>): (s: Step)
    ensures email.None? || email.value == "" || workspaceName.None? || workspaceName.value == "" ==>
      s == Stop(Redirected(ErrorUrl))
    ensures s.Proceed? <==>
      && email.Some? && email.value != "" && workspaceName.Some? && workspaceName.value != ""
      && decode(email.value).Some?
      && ExtractDomainFromEmail(decode(email.value).value).Some?
      && ExtractDomainFromEmail(decode(email.value).value).value != ""
    ensures s.Proceed? ==>
      && s.emailFormatted == decode(email.value).value
      && ExtractDomainFromEmail(s.emailFormatted) == Some(s.domain)
      && s.workspaceName == workspaceName.value
    ensures s.Stop? ==> s.outcome == Redirected(ErrorUrl) || s.outcome == Crashed("URIError")
  {
    if email.None? || email.value == "" || workspaceName.None? || workspaceName.value == "" then
      Stop(Redirected(ErrorUrl))
    else
      var decoded := decode(email.value);
      if decoded.None? then Stop(Crashed("URIError"))
      else
        var domain := ExtractDomainFromEmail(decoded.value);
        if domain.None? || domain.value == "" then Stop(Redirected(ErrorUrl))
        else Proceed(decoded.value, domain.value, workspaceName.value)
  }

  /** An address whose domain part is empty, as in "a@", is turned away like one without a domain. */
  lemma EmptyDomainTurnedAway(local: string, workspaceName: string, decode: string -> Option<string>)
    requires '@' !in local && workspaceName != ""
    requires decode(local + "@") == Some(local + "@")
    ensures Admit(Some(local + "@"), Some(workspaceName), decode) == Stop(Redirected(ErrorUrl))
  {
    ExtractDomainOfAddress(local, "");
    assert local + "@" + "" == local + "@";
  }

  /** A well-formed address goes on to the lookups with its domain. */
  lemma AddressAdmitted(local: string, domain: string, workspaceName: string, decode: string -> Option<string>)
    requires '@' !in local && '@' !in domain && domain != "" && workspaceName != ""
    requires decode(local + "@" + domain) == Some(local + "@" + domain)
    ensures Admit(Some(local + "@" + domain), Some(workspaceName), decode)
      == Proceed(local + "@" + domain, domain, workspaceName)
  {
    ExtractDomainOfAddress(local, domain);
  }

  /** The page the lead is sent to: the booking page when qualified, else the success page. */
  function Destination(qualified: QualificationResult, w: Workspace): (url: string)
    ensures qualified.result ==> url == NormalizeUrl(w.bookingUrl, SuccessFallback)
    ensures !qualified.result ==> url == NormalizeUrl(w.successPageUrl, DisqualifyFallback)
    ensures Absolute(url)
  {
    NormalizeUrlAbsolute(w.bookingUrl, SuccessFallback, "");
    NormalizeUrlAbsolute(w.successPageUrl, DisqualifyFallback, "");
    if qualified.result then NormalizeUrl(w.bookingUrl, SuccessFallback)
    else NormalizeUrl(w.successPageUrl, DisqualifyFallback)
  }

  /** The workspace the cached lookup yields: the live cached row, else the first row with that name. */
  function FoundWorkspace(store: map<string, CacheEntry>, db: Db, name: string, now: int): (w: Option<Workspace>)
    reads db
    ensures Lookup(store, WorkspaceKey(name), now).None? ==> w == Workspaces.GetByName(db, name)
  {
    var cached := Lookup(store, WorkspaceKey(name), now);
    if cached.Some? then (if cached.value.WorkspaceValue? then Some(cached.value.workspace) else None)
    else Workspaces.GetByName(db, name)
  }

  /** The record the cached enrichment yields: the live cached record, else the provider's when it answers ok, else all nulls. */
  function FoundEnrichment(store: map<string, CacheEntry>, domain: string, now: int, reply: PdlResponse): (d: EnrichmentData)
    ensures Lookup(store, EnrichmentKey(domain), now).None? && reply.PdlReplied? && Http.IsOk(reply.status) ==>
      d == Enriched(reply.data)
    ensures Lookup(store, EnrichmentKey(domain), now).None? && !(reply.PdlReplied? && Http.IsOk(reply.status)) ==>
      d == NoEnrichment
  {
    var cached := Lookup(store, EnrichmentKey(domain), now);
    if cached.Some? then (if cached.value.EnrichmentValue? then cached.value.data else NoEnrichment)
    else if reply.PdlReplied? && Http.IsOk(reply.status) then Enriched(reply.data)
    else NoEnrichment
  }

  /** The analytics row a qualified visit records. */
  function VisitRow(step: Step, qualified: QualificationResult, data: EnrichmentData, ts: int): (row: AnalyticsRow)
    requires step.Proceed?
    ensures row.event == "lead_qualification" && row.email == step.emailFormatted && row.domain == step.domain
    ensures row.workspaceName == step.workspaceName && row.qualified == qualified && row.ts == ts
    ensures row.employees == data.employees && row.funding == data.funding && row.sector == data.sector && row.size == data.size
  {
    AnalyticsRow("lead_qualification", step.emailFormatted, step.domain, step.workspaceName, qualified, ts,
      data.employees, data.funding, data.sector, data.size)
  }

  /** The cache after `getWorkspaceWithCache`: a workspace read from the database is kept for a day. */
  function StoreAfterWorkspace(store: map<string, CacheEntry>, db: Db, name: string, now: int): (r: map<string, CacheEntry>)
    reads db
    ensures Lookup(store, WorkspaceKey(name), now).Some? || Workspaces.GetByName(db, name).None? ==> r == store
    ensures Lookup(store, WorkspaceKey(name), now).None? && Workspaces.GetByName(db, name).Some? ==>
      r == Put(store, WorkspaceKey(name), WorkspaceValue(Workspaces.GetByName(db, name).value), now, WorkspaceExpiry)
  {
    if Lookup(store, WorkspaceKey(name), now).None? && Workspaces.GetByName(db, name).Some? then
      Put(store, WorkspaceKey(name), WorkspaceValue(Workspaces.GetByName(db, name).value), now, WorkspaceExpiry)
    else store
  }

  /** The cache after `enrichDomain`: a record the provider answers ok is kept for a week. */
  function StoreAfterEnrichment(store: map<string, CacheEntry>, domain: string, now: int, apiKey: string,
                                reply: PdlResponse): (r: map<string, CacheEntry>)
    ensures apiKey == "" || Lookup(store, EnrichmentKey(domain), now).Some? ==> r == store
    ensures !(reply.PdlReplied? && Http.IsOk(reply.status)) ==> r == store
    ensures apiKey != "" && Lookup(store, EnrichmentKey(domain), now).None? && reply.PdlReplied? && Http.IsOk(reply.status) ==>
      r == Put(store, EnrichmentKey(domain), EnrichmentValue(Enriched(reply.data)), now, EnrichmentExpiry)
  {
    if apiKey != "" && Lookup(store, EnrichmentKey(domain), now).None? && reply.PdlReplied? && Http.IsOk(reply.status) then
      Put(store, EnrichmentKey(domain), EnrichmentValue(Enriched(reply.data)), now, EnrichmentExpiry)
    else store
  }

  /**
   * A repeat visit at the same instant is served from the cache the first one
   * left: the same workspace whatever the database now holds, and, when the
   * provider answered ok the first time, the same record whatever it answers now.
   */
  lemma RepeatVisitServedFromCache(store: map<string, CacheEntry>, db: Db, db2: Db, name: string, domain: string,
                                   now: int, apiKey: string, reply: PdlResponse, reply2: PdlResponse)
    requires apiKey != ""
    requires FoundWorkspace(store, db, name, now).Some?
    requires reply.PdlReplied? && Http.IsOk(reply.status)
    ensures var after := StoreAfterEnrichment(StoreAfterWorkspace(store, db, name, now), domain, now, apiKey, reply);
      && FoundWorkspace(after, db2, name, now) == FoundWorkspace(store, db, name, now)
      && FoundEnrichment(after, domain, now, reply2) == FoundEnrichment(store, domain, now, reply)
  {
    var mid := StoreAfterWorkspace(store, db, name, now);
    var after := StoreAfterEnrichment(mid, domain, now, apiKey, reply);
    assert EnrichmentKey(domain)[0] != WorkspaceKey(name)[0];
    var w := Workspaces.GetByName(db, name);
    if Lookup(store, WorkspaceKey(name), now).None? {
      LookupAfterPut(store, WorkspaceKey(name), EnrichmentKey(domain), WorkspaceValue(w.value), now, WorkspaceExpiry, now);
    }
    assert Lookup(mid, WorkspaceKey(name), now).Some?;
    assert Lookup(mid, EnrichmentKey(domain), now) == Lookup(store, EnrichmentKey(domain), now);
    if Lookup(mid, EnrichmentKey(domain), now).None? {
      LookupAfterPut(mid, EnrichmentKey(domain), WorkspaceKey(name), EnrichmentValue(Enriched(reply.data)), now, EnrichmentExpiry, now);
    }
  }

  /**
   * The page handler. The workspace and the enrichment are looked up through
   * `cache` (both lookups are started together); `apiKey` and `reply` are what
   * `enrichDomain` sees, `now` the cache's clock and `ts` `Date.now()`.
   * Returns the outcome and the analytics row the visit records, if any.
   */
  method Visit(cache: LeadCache, db: Db, email: Option<string>, workspaceName: Option<string>,
               decode: string -> Option<string>, apiKey: string, reply: PdlResponse, now: int, ts: int)
    returns (o: PageOutcome, logged: Option<AnalyticsRow>)
    requires cache.Valid()
    modifies cache
    ensures cache.Valid()
    ensures var step := Admit(email, workspaceName, decode);
      step.Stop? ==> o == step.outcome && logged.None? && cache.store == old(cache.store)
    ensures var step := Admit(email, workspaceName, decode);
      step.Proceed? && apiKey == "" ==> o == Crashed("Missing PDL_API_KEY") && logged.None?
    ensures var step := Admit(email, workspaceName, decode);
      step.Proceed? && apiKey != "" ==>
        var w := FoundWorkspace(old(cache.store), db, step.workspaceName, now);
        w.None? ==> o == Redirected(ErrorUrl) && logged.None?
    ensures var step := Admit(email, workspaceName, decode);
      step.Proceed? && apiKey != "" ==>
        var w := FoundWorkspace(old(cache.store), db, step.workspaceName, now);
        var data := FoundEnrichment(old(cache.store), step.domain, now, reply);
        w.Some? ==>
          var qualified := QualifyLead(Some(data), Some(w.value.criteria));
          && o == Redirected(Destination(qualified, w.value))
          && logged == Some(VisitRow(step, qualified, data, ts))
    ensures var step := Admit(email, workspaceName, decode);
      step.Proceed? ==>
        cache.store == StoreAfterEnrichment(StoreAfterWorkspace(old(cache.store), db, step.workspaceName, now),
          step.domain, now, apiKey, reply)
  {
    var step := Admit(email, workspaceName, decode);
    if step.Stop? {
      return step.outcome, None;
    }
    ghost var before := cache.store;
    var ws, queried := cache.GetWorkspaceWithCache(db, step.workspaceName, WorkspaceExpiry, now);
    assert Lookup(cache.store, EnrichmentKey(step.domain), now) == Lookup(before, EnrichmentKey(step.domain), now) by {
      assert EnrichmentKey(step.domain)[0] != WorkspaceKey(step.workspaceName)[0];
    }
    var data, called := cache.EnrichDomain(step.domain, EnrichmentExpiry, now, apiKey, reply);
    assert ws.Success?;
    if data.Failure? {
      return Crashed(data.error), None;
    }
    if ws.value.None? {
      return Redirected(ErrorUrl), None;
    }
    var w := ws.value.value;
    var qualified := QualifyLead(Some(data.value), Some(w.criteria));
    return Redirected(Destination(qualified, w)), Some(VisitRow(step, qualified, data.value, ts));
  }
}

/**
 * The search-result evaluator `evaluateWithSerp`: the hits each search reply
 * yields, the early approval of the first strong and recent hit, and the
 * final ranking and verdict over everything collected before the deadline.
 */
module SerpEval {
  import opened Wrappers
  import opened Text
  import opened Json
  import opened Http
  import opened SerpParse

  /** The status of an `AiDecision`. */
  datatype AiStatus = Approved | Rejected | Unsure

  /** `SerpHit`: a dollar figure, where it was read, its host and its year. */
  datatype SerpHit = SerpHit(valueUsd: real, snippet: string, source: string, year: Option<nat>)

  /** Why the evaluator decided as it did; `ReasonText` renders it. */
  datatype SerpReason =
    | NoDomain
    | NoFigure
    | Revenue(valueUsd: real, year: Option<nat>, source: string)
    | BelowOrStale(minRevenueUsd: real, year: Option<nat>, source: string)

  datatype SerpDecision = SerpDecision(status: AiStatus, reason: SerpReason)

  /**
   * What the model takes from the runtime: `render` is `String(v)` for a JSON
   * value that is not a string, and `hostOf(u)` is the lower-cased hostname of
   * `new URL(u)`, None when the constructor throws.
   */
  datatype Oracles = Oracles(render: Json -> string, hostOf: string -> Option<string>)

  /** One search request: its query text and the timeout it was given. */
  datatype Request = Request(query: string, timeoutMs: int)

  /** The defaults of the options record. */
  const DefaultTimeoutMs: int := 9000
  const DefaultPerRequestMs: int := 2500
  const DefaultMaxQueries: int := 3
  const DefaultMinRevenueUsd: real := 50000000.0

  /** The default `recentYearCutoff`: three years before the current one. */
  function DefaultCutoff(currentYear: int): int { currentYear - 3 }

  // ---------------------------------------------------------------- hits of one reply

  /**
   * The non-zero dollar figure stated in `text`, if any: `parseMoney`, then
   * `toUSDLikeNumber`, kept when truthy. `reading` chooses the money grammar:
   * `AsWritten` is the shipped one, `Intended` the corrected one; every hit
   * function below passes it on.
   */
  function Figure(text: string, reading: Reading): (v: Option<real>)
    ensures v.Some? ==> v.value != 0.0
    ensures v.Some? ==> ParseMoneyWith(text, reading).Some? && ToUsd(ParseMoneyWith(text, reading).value) == v
  {
    var pm := ParseMoneyWith(text, reading);
    if pm.None? then None
    else
      var usd := ToUsd(pm.value);
      if usd.Some? && usd.value != 0.0 then usd else None
  }

  /** A plain numeral of four or more digits: the corrected grammar reads its value, the shipped one never does. */
  lemma FigureOfLongNumeral(n: nat)
    requires n >= 1000
    ensures Figure(NatToString(n), Intended) == Some(n as real)
    ensures Figure(NatToString(n), AsWritten) != Some(n as real)
  {
    var ds := NatToString(n);
    ParseMoneyIntendedRoundTrip(n);
    assert ParseMoneyWith(ds, Intended) == Some(ParsedMoney(n as real, None, NoUnit));
    NatToStringLong(n);
    ParseMoneyTruncates(ds);
    ParseMoneyLosesDigits(n);
    var pm := ParseMoneyWith(ds, AsWritten);
    assert pm == Some(ParsedMoney(pm.value.value, None, NoUnit)) && pm.value.value < n as real;
  }

  /** `v && typeof v === "object"`: a JSON object or array. */
  predicate IsObjectLike(v: Option<Json>) {
    v.Some? && (v.value.JObj? || v.value.JArr?)
  }

  /** The hit of the knowledge-graph panel, if its revenue entry yields a figure. */
  function KnowledgeGraphHit(json: Json, reading: Reading): (h: Option<SerpHit>)
    ensures h.Some? ==> h.value.source == "google.com" && h.value.valueUsd != 0.0
  {
    var kg := Get(json, "knowledge_graph");
    if !IsObjectLike(kg) then None
    else
      var rev := Or(Or(Get(kg.value, "revenue"), Get(kg.value, "Revenue")), Get(kg.value, "revenue"));
      if rev.None? || !rev.value.JStr? || !TextImpliesRevenue("revenue " + rev.value.s) then None
      else
        var v := Figure(rev.value.s, reading);
        if v.None? then None
        else Some(SerpHit(v.value, "KG: " + rev.value.s, "google.com", ExtractYear(rev.value.s)))
  }

  /** The answer-box fields read as candidates, in order. */
  const AnswerBoxFields: seq<string> := ["answer", "snippet", "title", "result", "result_snippet", "result_title"]

  /** The hit of one answer-box candidate: a non-empty string that passes the keyword gate and yields a figure. */
  function CandidateHit(c: Option<Json>, reading: Reading): (h: Option<SerpHit>)
    ensures h.Some? ==> c.Some? && c.value.JStr? && TextImpliesRevenue(c.value.s)
    ensures h.Some? ==> h.value.source == "google.com" && Figure(c.value.s, reading) == Some(h.value.valueUsd)
  {
    if !TruthyOpt(c) || !c.value.JStr? || !TextImpliesRevenue(c.value.s) then None
    else
      var v := Figure(c.value.s, reading);
      if v.None? then None
      else Some(SerpHit(v.value, "AnswerBox: " + c.value.s, "google.com", ExtractYear(c.value.s)))
  }

  function HitsOfFields(ab: Json, keys: seq<string>, reading: Reading): seq<SerpHit> {
    if keys == [] then []
    else
      var h := CandidateHit(Get(ab, keys[0]), reading);
      (if h.Some? then [h.value] else []) + HitsOfFields(ab, keys[1..], reading)
  }

  /** The hits of the answer box, in the order of its fields. */
  function AnswerBoxHits(json: Json, reading: Reading): seq<SerpHit> {
    var ab := Get(json, "answer_box");
    if !IsObjectLike(ab) then [] else HitsOfFields(ab.value, AnswerBoxFields, reading)
  }

  /** A value as `join` renders it. */
  function Render(v: Json, render: Json -> string): string {
    if v.JStr? then v.s else render(v)
  }

  /** An array element as `join` renders it: null is the empty string. */
  function ItemText(v: Json, render: Json -> string): string {
    if v.JNull? then "" else Render(v, render)
  }

  /** `items.join(sep)`. */
  function JoinValues(items: seq<Json>, sep: string, render: Json -> string): string {
    if items == [] then ""
    else if |items| == 1 then ItemText(items[0], render)
    else ItemText(items[0], render) + sep + JoinValues(items[1..], sep, render)
  }

  /** `v ?? ""`. */
  function OrEmpty(v: Option<Json>): Json {
    if Nullish(v) then JStr("") else v.value
  }

  /** The text of one organic result: its truthy title, snippet and rich-snippet extensions joined by " — ". */
  function OrganicText(r: Json, render: Json -> string): string {
    var title := OrEmpty(Get(r, "title"));
    var snippet := OrEmpty(Get(r, "snippet"));
    var ext := GetIn(GetIn(Get(r, "rich_snippet"), "top"), "extensions");
    var extensions := if ext.Some? && ext.value.JArr? then JoinValues(ext.value.items, " \U{2022} ", render) else "";
    var pieces :=
      (if Truthy(title) then [Render(title, render)] else [])
      + (if Truthy(snippet) then [Render(snippet, render)] else [])
      + (if extensions != "" then [extensions] else []);
    if pieces == [] then "" else Join(pieces, " \U{2014} ")
  }

  /**
   * `hostFromUrl(u)`: None for a falsy value; for a value that is not a
   * string, `u.startsWith` throws inside the `try`, so None as well.
   */
  function HostFromUrl(u: Option<Json>, hostOf: string -> Option<string>): Option<string> {
    if !TruthyOpt(u) || !u.value.JStr? then None
    else hostOf(if StartsAt(u.value.s, 0, "http") then u.value.s else "https://" + u.value.s)
  }

  /** `text.slice(0, n)`. */
  function Take(text: string, n: nat): (t: string)
    ensures |t| <= n && |t| <= |text| && t == text[..|t|]
  {
    if |text| <= n then text else text[..n]
  }

  /** The hit of one organic result, sourced from its link's host or "google.com". */
  function OrganicHit(r: Json, oracles: Oracles, reading: Reading): (h: Option<SerpHit>)
    ensures h.Some? ==> var text := OrganicText(r, oracles.render);
      TextImpliesRevenue(text) && Figure(text, reading) == Some(h.value.valueUsd) && |h.value.snippet| <= 300
  {
    var text := OrganicText(r, oracles.render);
    if text == "" || !TextImpliesRevenue(text) then None
    else
      var v := Figure(text, reading);
      if v.None? then None
      else
        var link := Or(Or(Get(r, "link"), Get(r, "displayed_link")), Get(r, "source"));
        var host := HostFromUrl(link, oracles.hostOf);
        var source := if host.Some? && host.value != "" then host.value else "google.com";
        Some(SerpHit(v.value, Take(text, 300), source, ExtractYear(text)))
  }

  function HitsOfResults(rs: seq<Json>, oracles: Oracles, reading: Reading): seq<SerpHit> {
    if rs == [] then []
    else
      var h := OrganicHit(rs[0], oracles, reading);
      (if h.Some? then [h.value] else []) + HitsOfResults(rs[1..], oracles, reading)
  }

  /** The hits of the organic results, in order; none when `organic_results` is not an array. */
  function OrganicHits(json: Json, oracles: Oracles, reading: Reading): seq<SerpHit> {
    var org := Get(json, "organic_results");
    if org.Some? && org.value.JArr? then HitsOfResults(org.value.items, oracles, reading) else []
  }

  /** The hits of one parsed reply, in the order the source pushes them. */
  function QueryHits(json: Json, oracles: Oracles, reading: Reading): seq<SerpHit> {
    var kg := KnowledgeGraphHit(json, reading);
    (if kg.Some? then [kg.value] else []) + AnswerBoxHits(json, reading) + OrganicHits(json, oracles, reading)
  }

  /** The hits of one request: none when it threw or its body is not truthy JSON. */
  function ReplyHits(f: Fetched, oracles: Oracles, reading: Reading): seq<SerpHit> {
    if f.Threw? then []
    else
      var json := if f.reply.parsed.Some? then f.reply.parsed.value else JNull;
      if !Truthy(json) then [] else QueryHits(json, oracles, reading)
  }

  /** The hits of each request, by its index. */
  function HitsPerRequest(replies: nat -> Fetched, oracles: Oracles, reading: Reading): nat -> seq<SerpHit> {
    (i: nat) => ReplyHits(replies(i), oracles, reading)
  }

  /** Every hit of the first `k` requests, in order. */
  function Collected(hitsOf: nat -> seq<SerpHit>, k: nat): seq<SerpHit> {
    if k == 0 then [] else Collected(hitsOf, k - 1) + hitsOf(k - 1)
  }

  // ---------------------------------------------------------------- ranking and verdict

  /** `!h.year || h.year >= recentYearCutoff`. */
  predicate Recent(h: SerpHit, cutoff: int) {
    h.year.None? || h.year.value == 0 || h.year.value >= cutoff
  }

  /** A hit that approves at once: strong enough and recent. */
  predicate Qualifies(h: SerpHit, minRevenueUsd: real, cutoff: int) {
    h.valueUsd >= minRevenueUsd && Recent(h, cutoff)
  }

  /** The index of the first qualifying hit. */
  function FirstQualifying(hits: seq<SerpHit>, minRevenueUsd: real, cutoff: int): (r: Option<nat>)
    ensures r.Some? ==> r.value < |hits| && Qualifies(hits[r.value], minRevenueUsd, cutoff)
    ensures r.Some? ==> forall k :: 0 <= k < r.value ==> !Qualifies(hits[k], minRevenueUsd, cutoff)
    ensures r.None? <==> forall k :: 0 <= k < |hits| ==> !Qualifies(hits[k], minRevenueUsd, cutoff)
  {
    if hits == [] then None
    else if Qualifies(hits[0], minRevenueUsd, cutoff) then Some(0)
    else
      var r := FirstQualifying(hits[1..], minRevenueUsd, cutoff);
      assert forall k :: 1 <= k < |hits| ==> hits[k] == hits[1..][k - 1];
      if r.Some? then Some(r.value + 1) else None
  }

  /** `a.year ?? 0`. */
  function YearKey(h: SerpHit): nat {
    h.year.GetOr(0)
  }

  /** The comparator puts `a` strictly before `b`: a later year, or the same year and a larger figure. */
  predicate Outranks(a: SerpHit, b: SerpHit) {
    YearKey(a) > YearKey(b) || (YearKey(a) == YearKey(b) && a.valueUsd > b.valueUsd)
  }

  predicate RanksAtLeast(a: SerpHit, b: SerpHit) {
    !Outranks(b, a)
  }

  predicate SortedHits(s: seq<SerpHit>) {
    forall i, j :: 0 <= i < j < |s| ==> RanksAtLeast(s[i], s[j])
  }

  /** Insert `h` before the first hit that does not outrank it, so that hits ranked equal keep their order. */
  function InsertHit(h: SerpHit, sorted: seq<SerpHit>): (r: seq<SerpHit>)
    ensures |r| == |sorted| + 1
    ensures multiset(r) == multiset(sorted) + multiset{h}
  {
    if sorted == [] || RanksAtLeast(h, sorted[0]) then [h] + sorted
    else
      var rest := InsertHit(h, sorted[1..]);
      assert sorted == [sorted[0]] + sorted[1..];
      [sorted[0]] + rest
  }

  /** `hits.sort(...)`: the stable sort by year, then figure, both descending. */
  function SortHits(hits: seq<SerpHit>): (r: seq<SerpHit>)
    ensures |r| == |hits|
    ensures multiset(r) == multiset(hits)
  {
    if hits == [] then []
    else
      assert hits == [hits[0]] + hits[1..];
      InsertHit(hits[0], SortHits(hits[1..]))
  }

  /** `hits.filter(h => !h.year || h.year >= recentYearCutoff)`. */
  function RecentHits(hits: seq<SerpHit>, cutoff: int): (r: seq<SerpHit>)
    ensures forall h :: h in r <==> h in hits && Recent(h, cutoff)
  {
    if hits == [] then []
    else (if Recent(hits[0], cutoff) then [hits[0]] else []) + RecentHits(hits[1..], cutoff)
  }

  /** The hit the final decision rests on: the best recent one, else the best of all. */
  function Top(hits: seq<SerpHit>, cutoff: int): SerpHit
    requires hits != []
  {
    var sorted := SortHits(hits);
    var recent := RecentHits(sorted, cutoff);
    if recent != [] then recent[0] else sorted[0]
  }

  function Approve(h: SerpHit): SerpDecision {
    SerpDecision(Approved, Revenue(h.valueUsd, h.year, h.source))
  }

  /** The decision from the collected hits once the loop is over. */
  function FinalDecision(hits: seq<SerpHit>, minRevenueUsd: real, cutoff: int): SerpDecision {
    if hits == [] then SerpDecision(Unsure, NoFigure)
    else
      var top := Top(hits, cutoff);
      if top.valueUsd >= minRevenueUsd then Approve(top)
      else SerpDecision(Unsure, BelowOrStale(minRevenueUsd, top.year, top.source))
  }

  /** The verdict over a sequence of hits: the first qualifying one approves, otherwise the final decision. */
  function Verdict(hits: seq<SerpHit>, minRevenueUsd: real, cutoff: int): SerpDecision {
    var first := FirstQualifying(hits, minRevenueUsd, cutoff);
    if first.Some? then Approve(hits[first.value]) else FinalDecision(hits, minRevenueUsd, cutoff)
  }

  // ---------------------------------------------------------------- the loop over queries

  /** The three query templates. */
  function AllQueries(domain: string): seq<string> {
    [domain + " revenue", domain + " ARR", domain + " annual revenue"]
  }

  /** Where `slice(0, end)` stops on a sequence of length `n`: a negative end counts from the back. */
  function SliceEnd(end: int, n: nat): (e: nat)
    ensures e <= n
  {
    if end >= 0 then (if end < n then end else n)
    else if n + end > 0 then n + end else 0
  }

  /** `queriesAll.slice(0, maxQueries)`. */
  function Queries(domain: string, maxQueries: int): (qs: seq<string>)
    ensures |qs| <= 3 && (maxQueries >= 0 ==> |qs| <= maxQueries)
  {
    AllQueries(domain)[..SliceEnd(maxQueries, 3)]
  }

  /** `Math.min(perRequestMs, Math.max(800, timeLeft - 50))`. */
  function RequestBudget(perRequestMs: int, timeLeft: int): (t: int)
    ensures t <= perRequestMs
    ensures t == perRequestMs || t == 800 || t == timeLeft - 50
  {
    var floor := if 800 > timeLeft - 50 then 800 else timeLeft - 50;
    if perRequestMs < floor then perRequestMs else floor
  }

  /** The `k` first requests went out as planned: each with time to spare and its budget. */
  predicate IssuedAsPlanned(issued: seq<Request>, queries: seq<string>, perRequestMs: int, deadline: int, clock: nat -> int) {
    |issued| <= |queries|
    && forall i :: 0 <= i < |issued| ==>
         deadline - clock(i) > 150 && issued[i] == Request(queries[i], RequestBudget(perRequestMs, deadline - clock(i)))
  }

  /** No request before the `n`-th left a qualifying hit among those collected up to it. */
  predicate NoneQualifiesBefore(hitsOf: nat -> seq<SerpHit>, n: nat, minRevenueUsd: real, cutoff: int) {
    forall i :: 0 <= i < n ==> FirstQualifying(Collected(hitsOf, i), minRevenueUsd, cutoff).None?
  }

  lemma NoneQualifiesOneMore(hitsOf: nat -> seq<SerpHit>, n: nat, minRevenueUsd: real, cutoff: int)
    requires NoneQualifiesBefore(hitsOf, n, minRevenueUsd, cutoff)
    requires FirstQualifying(Collected(hitsOf, n), minRevenueUsd, cutoff).None?
    ensures NoneQualifiesBefore(hitsOf, n + 1, minRevenueUsd, cutoff)
  {
  }

  lemma IssuedOneMore(issued: seq<Request>, queries: seq<string>, perRequestMs: int, deadline: int, clock: nat -> int)
    requires IssuedAsPlanned(issued, queries, perRequestMs, deadline, clock)
    requires |issued| < |queries| && deadline - clock(|issued|) > 150
    ensures IssuedAsPlanned(issued + [Request(queries[|issued|], RequestBudget(perRequestMs, deadline - clock(|issued|)))],
      queries, perRequestMs, deadline, clock)
  {
  }

  /**
   * `evaluateWithSerp`. The clock is read once for the deadline (`start`) and
   * then before each query (`clock(i)`); `replies(i)` is the outcome of the
   * i-th request. The model returns the requests it issued beside the decision.
   * With `reading == AsWritten` this is the shipped evaluator; with `Intended`
   * it reads figures with the corrected money grammar.
   */
  method EvaluateWithSerp(
    domain: string, apiKey: string, timeoutMs: int, perRequestMs: int, maxQueries: int,
    minRevenueUsd: real, recentYearCutoff: int,
    start: int, clock: nat -> int, replies: nat -> Fetched, oracles: Oracles, reading: Reading)
    returns (r: Result<SerpDecision>, issued: seq<Request>)
    ensures apiKey == "" ==> r == Failure("Missing SERP_API_KEY") && issued == []
    ensures apiKey != "" && domain == "" ==> r == Success(SerpDecision(Unsure, NoDomain)) && issued == []
    ensures apiKey != "" && domain != "" ==>
      var queries := Queries(domain, maxQueries);
      var deadline := start + timeoutMs;
      && IssuedAsPlanned(issued, queries, perRequestMs, deadline, clock)
      && r == Success(Verdict(Collected(HitsPerRequest(replies, oracles, reading), |issued|), minRevenueUsd, recentYearCutoff))
      && NoneQualifiesBefore(HitsPerRequest(replies, oracles, reading), |issued|, minRevenueUsd, recentYearCutoff)
      && (|issued| == |queries| || deadline - clock(|issued|) <= 150
          || FirstQualifying(Collected(HitsPerRequest(replies, oracles, reading), |issued|), minRevenueUsd, recentYearCutoff).Some?)
  {
    if apiKey == "" {
      return Failure("Missing SERP_API_KEY"), [];
    }
    if domain == "" {
      return Success(SerpDecision(Unsure, NoDomain)), [];
    }
    var hits, approved;
    hits, approved, issued := SearchQueries(Queries(domain, maxQueries), perRequestMs, start + timeoutMs, clock,
      HitsPerRequest(replies, oracles, reading), minRevenueUsd, recentYearCutoff);
    if approved.Some? {
      return Success(Approve(approved.value)), issued;
    }
    r := Success(FinalDecision(hits, minRevenueUsd, recentYearCutoff));
  }

  /**
   * The loop of `evaluateWithSerp` over the planned queries: stop when less
   * than 150 ms are left, otherwise issue the query and go through its hits.
   * Returns the hits collected, the hit that approves (when one qualifies)
   * and the requests issued.
   */
  method SearchQueries(queries: seq<string>, perRequestMs: int, deadline: int, clock: nat -> int,
                       hitsOf: nat -> seq<SerpHit>, minRevenueUsd: real, cutoff: int)
    returns (hits: seq<SerpHit>, approved: Option<SerpHit>, issued: seq<Request>)
    ensures IssuedAsPlanned(issued, queries, perRequestMs, deadline, clock)
    ensures hits == Collected(hitsOf, |issued|)
    ensures NoneQualifiesBefore(hitsOf, |issued|, minRevenueUsd, cutoff)
    ensures approved.None? ==>
      && FirstQualifying(hits, minRevenueUsd, cutoff).None?
      && (|issued| == |queries| || deadline - clock(|issued|) <= 150)
    ensures approved.Some? ==>
      var first := FirstQualifying(hits, minRevenueUsd, cutoff);
      first.Some? && hits[first.value] == approved.value
  {
    hits := [];
    issued := [];
    var k := 0;
    while k < |queries|
      invariant k <= |queries| && |issued| == k
      invariant IssuedAsPlanned(issued, queries, perRequestMs, deadline, clock)
      invariant hits == Collected(hitsOf, k)
      invariant NoneQualifiesBefore(hitsOf, k + 1, minRevenueUsd, cutoff)
    {
      var timeLeft := deadline - clock(k);
      if timeLeft <= 150 {
        break;
      }
      IssuedOneMore(issued, queries, perRequestMs, deadline, clock);
      issued := issued + [Request(queries[k], RequestBudget(perRequestMs, timeLeft))];
      var found := hitsOf(k);
      approved := ScanReply(hits, found, minRevenueUsd, cutoff);
      hits := hits + found;
      if approved.Some? {
        return;
      }
      NoneQualifiesOneMore(hitsOf, k + 1, minRevenueUsd, cutoff);
      k := k + 1;
    }
    approved := None;
  }

  /**
   * The loop over one reply's hits: each is collected in turn, and the first
   * that qualifies ends the search.
   */
  method ScanReply(hits: seq<SerpHit>, found: seq<SerpHit>, minRevenueUsd: real, cutoff: int)
    returns (approved: Option<SerpHit>)
    requires FirstQualifying(hits, minRevenueUsd, cutoff).None?
    ensures approved.None? ==> FirstQualifying(hits + found, minRevenueUsd, cutoff).None?
    ensures approved.Some? ==>
      var first := FirstQualifying(hits + found, minRevenueUsd, cutoff);
      first.Some? && (hits + found)[first.value] == approved.value
  {
    var all := hits + found;
    var j := 0;
    while j < |found|
      invariant j <= |found|
      invariant forall k :: 0 <= k < |hits| + j ==> !Qualifies(all[k], minRevenueUsd, cutoff)
    {
      if Qualifies(found[j], minRevenueUsd, cutoff) {
        assert all[|hits| + j] == found[j];
        return Some(found[j]);
      }
      j := j + 1;
    }
    approved := None;
  }

  // ---------------------------------------------------------------- properties of the ranking

  /** Ranking is a total preorder: every hit ranks at least itself. */
  lemma RanksAtLeastTotal(a: SerpHit, b: SerpHit, c: SerpHit)
    ensures RanksAtLeast(a, a)
    ensures RanksAtLeast(a, b) || RanksAtLeast(b, a)
    ensures RanksAtLeast(a, b) && RanksAtLeast(b, c) ==> RanksAtLeast(a, c)
  {
  }

  /** Two hits neither of which outranks the other. */
  predicate RankEqual(a: SerpHit, b: SerpHit) {
    RanksAtLeast(a, b) && RanksAtLeast(b, a)
  }

  /** The hits of `s` ranked equal to `x`, in their order in `s`. */
  function SameRank(s: seq<SerpHit>, x: SerpHit): seq<SerpHit> {
    if s == [] then []
    else (if RankEqual(s[0], x) then [s[0]] else []) + SameRank(s[1..], x)
  }

  /** Inserting a hit puts it after every hit ranked equal to it. */
  lemma {:induction false} InsertHitSameRank(h: SerpHit, s: seq<SerpHit>, x: SerpHit)
    ensures SameRank(InsertHit(h, s), x) == (if RankEqual(h, x) then [h] else []) + SameRank(s, x)
  {
    if s == [] || RanksAtLeast(h, s[0]) {
      assert ([h] + s)[0] == h && ([h] + s)[1..] == s;
    } else {
      var rest := InsertHit(h, s[1..]);
      InsertHitSameRank(h, s[1..], x);
      assert ([s[0]] + rest)[0] == s[0] && ([s[0]] + rest)[1..] == rest;
      if RankEqual(h, x) {
        RanksAtLeastTotal(h, x, s[0]);
      }
    }
  }

  /** `hits.sort(...)` is stable: the hits ranked equal to any one keep their order. */
  lemma {:induction false} SortHitsStable(hits: seq<SerpHit>, x: SerpHit)
    ensures SameRank(SortHits(hits), x) == SameRank(hits, x)
  {
    if hits != [] {
      SortHitsStable(hits[1..], x);
      InsertHitSameRank(hits[0], SortHits(hits[1..]), x);
    }
  }

  /** Inserting into a sorted sequence keeps it sorted. */
  lemma {:induction false} InsertHitSorted(h: SerpHit, s: seq<SerpHit>)
    requires SortedHits(s)
    ensures SortedHits(InsertHit(h, s))
  {
    if s == [] || RanksAtLeast(h, s[0]) {
      forall j | 0 <= j < |s| ensures RanksAtLeast(h, s[j]) {
        RanksAtLeastTotal(h, s[0], s[j]);
      }
    } else {
      var rest := InsertHit(h, s[1..]);
      InsertHitSorted(h, s[1..]);
      forall x | x in rest ensures RanksAtLeast(s[0], x) {
        assert x in multiset(rest);
        if x != h {
          assert x in multiset(s[1..]);
          var k :| 0 <= k < |s[1..]| && s[1..][k] == x;
          assert s[k + 1] == x;
        }
      }
      assert InsertHit(h, s) == [s[0]] + rest;
      forall i, j | 0 <= i < j < |[s[0]] + rest| ensures RanksAtLeast(([s[0]] + rest)[i], ([s[0]] + rest)[j]) {
        if i > 0 {
          assert ([s[0]] + rest)[i] == rest[i - 1] && ([s[0]] + rest)[j] == rest[j - 1];
        } else {
          assert ([s[0]] + rest)[j] in rest;
        }
      }
    }
  }

  /** `SortHits` orders hits by year, then figure, both descending. */
  lemma {:induction false} SortHitsSorted(hits: seq<SerpHit>)
    ensures SortedHits(SortHits(hits))
  {
    if hits != [] {
      SortHitsSorted(hits[1..]);
      InsertHitSorted(hits[0], SortHits(hits[1..]));
    }
  }

  /** Filtering keeps the order. */
  lemma {:induction false} RecentHitsSorted(s: seq<SerpHit>, cutoff: int)
    requires SortedHits(s)
    ensures SortedHits(RecentHits(s, cutoff))
  {
    if s != [] {
      var tail := RecentHits(s[1..], cutoff);
      RecentHitsSorted(s[1..], cutoff);
      if Recent(s[0], cutoff) {
        var r := [s[0]] + tail;
        forall i, j | 0 <= i < j < |r| ensures RanksAtLeast(r[i], r[j]) {
          if i > 0 {
            assert r[i] == tail[i - 1] && r[j] == tail[j - 1];
          } else {
            assert r[j] == tail[j - 1] && tail[j - 1] in s[1..];
          }
        }
      } else {
        assert RecentHits(s, cutoff) == tail;
      }
    }
  }

  /** The head of a sorted sequence ranks at least each of its elements. */
  lemma HeadRanksFirst(s: seq<SerpHit>, h: SerpHit)
    requires SortedHits(s) && h in s
    ensures RanksAtLeast(s[0], h)
  {
    var k :| 0 <= k < |s| && s[k] == h;
    if k == 0 {
      RanksAtLeastTotal(h, h, h);
    }
  }

  /**
   * The hit the final decision rests on is one of the hits; it is recent when
   * any hit is, and then ranks at least every recent hit; when no hit is
   * recent it ranks at least every hit.
   */
  lemma TopIsBest(hits: seq<SerpHit>, cutoff: int)
    requires hits != []
    ensures Top(hits, cutoff) in hits
    ensures (exists h :: h in hits && Recent(h, cutoff)) ==>
      Recent(Top(hits, cutoff), cutoff) && forall h :: h in hits && Recent(h, cutoff) ==> RanksAtLeast(Top(hits, cutoff), h)
    ensures (forall h :: h in hits ==> !Recent(h, cutoff)) ==>
      forall h :: h in hits ==> RanksAtLeast(Top(hits, cutoff), h)
  {
    var sorted := SortHits(hits);
    var recent := RecentHits(sorted, cutoff);
    SortHitsSorted(hits);
    RecentHitsSorted(sorted, cutoff);
    forall h ensures h in sorted <==> h in hits {
      assert h in sorted <==> h in multiset(sorted);
      assert h in hits <==> h in multiset(hits);
    }
    assert sorted[0] in sorted;
    if recent != [] {
      assert recent[0] in recent;
      forall h | h in hits && Recent(h, cutoff) ensures RanksAtLeast(recent[0], h) {
        HeadRanksFirst(recent, h);
      }
    } else {
      forall h | h in hits ensures RanksAtLeast(sorted[0], h) {
        HeadRanksFirst(sorted, h);
      }
    }
  }

  /**
   * The verdict never rejects; it approves exactly when some hit qualifies or
   * the top hit reaches the minimum, and an approval names a collected hit
   * that reaches the minimum.
   */
  lemma VerdictMeaning(hits: seq<SerpHit>, minRevenueUsd: real, cutoff: int)
    ensures Verdict(hits, minRevenueUsd, cutoff).status != Rejected
    ensures hits == [] ==> Verdict(hits, minRevenueUsd, cutoff) == SerpDecision(Unsure, NoFigure)
    ensures Verdict(hits, minRevenueUsd, cutoff).status == Approved <==>
      (exists h :: h in hits && Qualifies(h, minRevenueUsd, cutoff))
      || (hits != [] && Top(hits, cutoff).valueUsd >= minRevenueUsd)
    ensures Verdict(hits, minRevenueUsd, cutoff).status == Approved ==>
      exists h :: h in hits && h.valueUsd >= minRevenueUsd
        && Verdict(hits, minRevenueUsd, cutoff).reason == Revenue(h.valueUsd, h.year, h.source)
  {
    var first := FirstQualifying(hits, minRevenueUsd, cutoff);
    if first.Some? {
      assert hits[first.value] in hits;
    } else if hits != [] {
      TopIsBest(hits, cutoff);
    }
  }

  /**
   * Once no hit qualified on the way, an approval from the final ranking only
   * happens when every collected hit is stale: the top hit is then the best
   * of all of them.
   */
  lemma FinalApprovalIsStale(hits: seq<SerpHit>, minRevenueUsd: real, cutoff: int)
    requires FirstQualifying(hits, minRevenueUsd, cutoff).None?
    requires Verdict(hits, minRevenueUsd, cutoff).status == Approved
    ensures hits != []
    ensures forall h :: h in hits ==> !Recent(h, cutoff)
    ensures forall h :: h in hits ==> RanksAtLeast(Top(hits, cutoff), h)
  {
    TopIsBest(hits, cutoff);
    var top := Top(hits, cutoff);
    var k :| 0 <= k < |hits| && hits[k] == top;
    assert !Qualifies(hits[k], minRevenueUsd, cutoff);
  }

  // ---------------------------------------------------------------- the reason text

  /** `Math.round(v)`: halves round up. */
  function Round(v: real): (n: int)
    ensures v - 0.5 < n as real <= v + 0.5
  {
    (v + 0.5).Floor
  }

  /** The " (year)" part of a reason, present when the year is truthy. */
  function YearSuffix(year: Option<nat>): (t: string)
    ensures t == "" <==> year.None? || year.value == 0
  {
    if year.Some? && year.value != 0 then " (" + NatToString(year.value) + ")" else ""
  }

  /**
   * The reason string of a decision. `locale` is `toLocaleString` on a
   * number, which depends on the runtime's locale.
   */
  function ReasonText(reason: SerpReason, locale: real -> string): (t: string)
    ensures (reason.Revenue? || reason.BelowOrStale?) ==>
      EndsWith(t, YearSuffix(reason.year) + " (" + reason.source + ")")
  {
    match reason
    case NoDomain => "No domain provided."
    case NoFigure => "No reputable revenue figure found via search."
    case Revenue(v, y, src) =>
      var tail := YearSuffix(y) + " (" + src + ")";
      EndsWithAppend("Revenue \U{2248} $" + locale(Round(v) as real), tail);
      "Revenue \U{2248} $" + locale(Round(v) as real) + tail
    case BelowOrStale(m, y, src) =>
      var tail := YearSuffix(y) + " (" + src + ")";
      EndsWithAppend("Found revenue signal but < $" + locale(m) + " or stale", tail);
      "Found revenue signal but < $" + locale(m) + " or stale" + tail
  }

  /** `t` ends with `tail`. */
  predicate EndsWith(t: string, tail: string) {
    |tail| <= |t| && t[|t| - |tail|..] == tail
  }

  lemma EndsWithAppend(head: string, tail: string)
    ensures EndsWith(head + tail, tail)
  {
  }
}

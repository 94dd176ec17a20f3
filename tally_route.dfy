/**
 * The Tally scoring route of src/app/api/tally/route.ts: five answers read
 * straight from the payload, the guards of its POST handler, and the
 * enrichment and score it returns.
 */
module TallyRoute {
  import opened Wrappers
  import opened Json
  import opened Http
  import opened Enrich

  /** The five answers and the payload property each is read from. */
  const TallyFields: seq<(string, string)> := [
    (CompanyNameKey, "company_name"),
    (EmailKey, "work_email"),
    (CompanySizeKey, "company_size"),
    (SeatsKey, "company_seats"),
    (ComputersKey, "computers")]

  /** `input.key ?? ""`: a property read from the payload, "" when it is null or undefined. */
  function OrEmpty(input: Json, key: string): (v: Json)
    ensures !v.JNull?
    ensures Nullish(Get(input, key)) ==> v == JStr("")
    ensures !Nullish(Get(input, key)) ==> v == Get(input, key).value
  {
    var got := Coalesce(Get(input, key), Some(JStr("")));
    if got.Some? then got.value else JStr("")
  }

  /**
   * `toAnswers(input)`: the five answers, with the payload's values as they
   * are (a number stays a number). None when the payload is `null`, whose
   * property read throws a TypeError.
   */
  function ToAnswers(input: Json): (r: Option<map<string, Json>>)
    ensures r.None? <==> input.JNull?
    ensures r.Some? ==> r.value.Keys == {CompanyNameKey, EmailKey, CompanySizeKey, SeatsKey, ComputersKey}
    ensures r.Some? ==> forall i :: 0 <= i < |TallyFields| ==> r.value[TallyFields[i].0] == OrEmpty(input, TallyFields[i].1)
  {
    if input.JNull? then None
    else Some(map[
      CompanyNameKey := OrEmpty(input, "company_name"),
      EmailKey := OrEmpty(input, "work_email"),
      CompanySizeKey := OrEmpty(input, "company_size"),
      SeatsKey := OrEmpty(input, "company_seats"),
      ComputersKey := OrEmpty(input, "computers")])
  }

  /**
   * Whether `enrichWithAbstract` gets through its reads of the answers: each
   * is a string, except that a falsy seat count is read as no count. Any other
   * value makes `.trim()` or `.replace()` throw a TypeError.
   */
  predicate Readable(m: map<string, Json>) {
    forall k | k in m :: m[k].JStr? || (k == SeatsKey && !Truthy(m[k]))
  }

  /** The answers as `enrichWithAbstract` reads them: the string values, a falsy seat count left out. */
  function AsAnswers(m: map<string, Json>): (a: Answers)
    ensures a.Keys <= m.Keys
    ensures forall k | k in m && m[k].JStr? :: k in a && a[k] == m[k].s
    ensures Readable(m) ==> forall k | k in m && k !in a :: k == SeatsKey && !Truthy(m[k])
  {
    map k | k in m && m[k].JStr? :: m[k].s
  }

  /** What the POST handler answers; `Crashed` is an uncaught throw, answered with status 500. */
  datatype Response =
    | Refused(status: int, error: string)
    | Crashed(error: string)
    | Scored(decision: Score, enriched: EnrichedView)

  /**
   * The POST handler. `body` is the parsed request body (None when it is not
   * JSON); `apiKey` and `fetched` are what `enrichWithAbstract` sees; `called`
   * tells whether the enrichment request was made.
   */
  method Post(body: Option<Json>, apiKey: string, fetched: Fetched) returns (r: Response, called: bool)
    ensures body.None? ==> r == Refused(400, "Invalid JSON") && !called
    ensures body == Some(JNull) ==> r == Crashed("TypeError") && !called
    ensures body.Some? && !body.value.JNull? && !Truthy(ToAnswers(body.value).value[EmailKey]) ==>
      r == Refused(400, "Missing work_email") && !called
    ensures body.Some? && !body.value.JNull? && Truthy(ToAnswers(body.value).value[EmailKey]) ==>
      var m := ToAnswers(body.value).value;
      && (apiKey == "" ==> r == Crashed("Missing ABSTRACT_API_KEY") && !called)
      && (apiKey != "" && !Readable(m) ==> r == Crashed("TypeError") && !called)
      && (apiKey != "" && Readable(m) ==>
            && r.Scored?
            && r.enriched.derived == Derive(AsAnswers(m))
            && (called <==> Derive(AsAnswers(m)).domain.Some?))
    ensures r.Scored? ==>
      r.decision == ScoreLead(EnrichedResult(Some(r.enriched.companyEnrichment), r.enriched.derived, r.enriched.debug))
    ensures r.Scored? && called && fetched.Responded? && fetched.reply.Ok() ==>
      r.enriched.companyEnrichment == fetched.reply.Body() && r.enriched.debug.None?
    ensures r.Scored? && called && fetched.Responded? && !fetched.reply.Ok() ==>
      r.enriched.companyEnrichment == JNull && r.enriched.debug == Some(StatusError(fetched.reply.status, fetched.reply.Body()))
    ensures r.Scored? && called && fetched.Threw? ==>
      r.enriched.companyEnrichment == JNull && r.enriched.debug == Some(ErrorMessage(fetched.message))
    ensures r.Scored? && !called ==> r.enriched.companyEnrichment == JNull && r.enriched.debug.None?
  {
    called := false;
    if body.None? {
      return Refused(400, "Invalid JSON"), false;
    }
    var answers := ToAnswers(body.value);
    if answers.None? {
      return Crashed("TypeError"), false;
    }
    if !Truthy(answers.value[EmailKey]) {
      return Refused(400, "Missing work_email"), false;
    }
    if apiKey == "" {
      return Crashed("Missing ABSTRACT_API_KEY"), false;
    }
    if !Readable(answers.value) {
      return Crashed("TypeError"), false;
    }
    var enriched;
    enriched, called := EnrichWithAbstract(AsAnswers(answers.value), apiKey, fetched);
    ScoreOfEchoed(enriched.value);
    r := Scored(ScoreLead(enriched.value), Echoed(enriched.value));
  }

  /** A payload whose five properties are strings is readable, and its answers are those strings. */
  lemma {:induction false} StringAnswers(input: Json, name: string, email: string, size: string, seats: string, computers: string)
    requires input == JObj(map["company_name" := JStr(name), "work_email" := JStr(email),
      "company_size" := JStr(size), "company_seats" := JStr(seats), "computers" := JStr(computers)])
    ensures ToAnswers(input).Some? && Readable(ToAnswers(input).value)
    ensures AsAnswers(ToAnswers(input).value) == map[CompanyNameKey := name, EmailKey := email,
      CompanySizeKey := size, SeatsKey := seats, ComputersKey := computers]
  {
    var m := ToAnswers(input).value;
    assert m[TallyFields[0].0] == JStr(name);
    assert m[TallyFields[1].0] == JStr(email);
    assert m[TallyFields[2].0] == JStr(size);
    assert m[TallyFields[3].0] == JStr(seats);
    assert m[TallyFields[4].0] == JStr(computers);
  }

  /** A payload without `work_email` (or with a null one) is refused before any enrichment. */
  lemma MissingEmailRefused(input: Json)
    requires IsRecord(input) && Nullish(Get(input, "work_email"))
    ensures !Truthy(ToAnswers(input).value[EmailKey])
  {
    assert TallyFields[1] == (EmailKey, "work_email");
  }
}

/**
 * The generic webhook route of src/app/api/route.ts: the duck-typed reading
 * of a form provider's payload into `{ sid, answers }` and the guards of its
 * POST handler.
 */
module WebhookRoute {
  import opened Wrappers
  import opened Json
  import opened Enrich

  /**
   * `asStr(v)`: a string as it is, "" for null or undefined, and `String(v)`
   * for anything else; `render` is the runtime's rendering of numbers and
   * arrays.
   */
  function AsStr(v: Option<Json>, render: Json -> string): (r: string)
    ensures v.Some? && v.value.JStr? ==> r == v.value.s
    ensures Nullish(v) ==> r == ""
    ensures !Nullish(v) ==> r == JsString(v, render)
  {
    if Nullish(v) then "" else JsString(v, render)
  }

  /** `get(event, "data") ?? get(raw, "data")`: the event's data when it is there, else the payload's own. */
  function RootOf(raw: Json): (root: Option<Json>)
    ensures !Nullish(GetIn(Get(raw, "event"), "data")) ==> root == GetIn(Get(raw, "event"), "data")
    ensures Nullish(GetIn(Get(raw, "event"), "data")) ==> root == Get(raw, "data")
  {
    Coalesce(GetIn(Get(raw, "event"), "data"), Get(raw, "data"))
  }

  /** A field's label: the first non-empty of its `label`, `key` and `id`. */
  function Label(f: Json, render: Json -> string): (l: string)
    ensures l == "" <==>
      AsStr(Get(f, "label"), render) == "" && AsStr(Get(f, "key"), render) == "" && AsStr(Get(f, "id"), render) == ""
  {
    var byLabel := AsStr(Get(f, "label"), render);
    var key := AsStr(Get(f, "key"), render);
    if byLabel != "" then byLabel else if key != "" then key else AsStr(Get(f, "id"), render)
  }

  function FieldValue(f: Json, render: Json -> string): string {
    AsStr(Get(f, "value"), render)
  }

  /** The answers a list of fields leaves behind when they are stored one after another by label. */
  function FieldAnswers(fields: seq<Json>, render: Json -> string): Answers
    decreases |fields|
  {
    if fields == [] then map[]
    else
      var before := FieldAnswers(fields[..|fields| - 1], render);
      var f := fields[|fields| - 1];
      if Label(f, render) != "" then before[Label(f, render) := FieldValue(f, render)] else before
  }

  /** The seven answers of a flat payload and the property each is read from. */
  const FlatFields: seq<(string, string)> := [
    (CompanyNameKey, "company_name"),
    (EmailKey, "work_email"),
    (CompanySizeKey, "company_size"),
    (SeatsKey, "company_seats"),
    (ComputersKey, "computers"),
    ("Email Calendar", "email_calendar"),
    ("Questions", "questions")]

  /** The answers of a payload without a `fields` array. */
  function FlatAnswers(raw: Json, render: Json -> string): (answers: Answers)
    ensures answers.Keys == {CompanyNameKey, EmailKey, CompanySizeKey, SeatsKey, ComputersKey, "Email Calendar", "Questions"}
    ensures forall i :: 0 <= i < |FlatFields| ==> answers[FlatFields[i].0] == AsStr(Get(raw, FlatFields[i].1), render)
  {
    map[
      CompanyNameKey := AsStr(Get(raw, "company_name"), render),
      EmailKey := AsStr(Get(raw, "work_email"), render),
      CompanySizeKey := AsStr(Get(raw, "company_size"), render),
      SeatsKey := AsStr(Get(raw, "company_seats"), render),
      ComputersKey := AsStr(Get(raw, "computers"), render),
      "Email Calendar" := AsStr(Get(raw, "email_calendar"), render),
      "Questions" := AsStr(Get(raw, "questions"), render)]
  }

  /** The `fields` array of the payload root, when the root has one. */
  function FieldsOf(raw: Json): (items: Option<seq<Json>>)
    ensures items.Some? <==> GetIn(RootOf(raw), "fields").Some? && GetIn(RootOf(raw), "fields").value.JArr?
  {
    var maybe := GetIn(RootOf(raw), "fields");
    if maybe.Some? && maybe.value.JArr? then Some(maybe.value.items) else None
  }

  /**
   * `toAnswersFromAny(raw)`, with `uuid` the value `crypto.randomUUID()`
   * would give: the session id and the answers.
   */
  function AnswersFromAny(raw: Json, uuid: string, render: Json -> string): (r: (string, Answers))
    ensures FieldsOf(raw).Some? ==>
      r == (AsStr(GetIn(RootOf(raw), "responseId"), render), FieldAnswers(FieldsOf(raw).value, render))
    ensures FieldsOf(raw).None? ==> r.1 == FlatAnswers(raw, render)
    ensures FieldsOf(raw).None? && AsStr(Get(raw, "responseId"), render) == "" ==> r.0 == uuid
    ensures FieldsOf(raw).None? && AsStr(Get(raw, "responseId"), render) != "" ==> r.0 == AsStr(Get(raw, "responseId"), render)
  {
    var items := FieldsOf(raw);
    if items.Some? then (AsStr(GetIn(RootOf(raw), "responseId"), render), FieldAnswers(items.value, render))
    else
      var sid := AsStr(Get(raw, "responseId"), render);
      (if sid != "" then sid else uuid, FlatAnswers(raw, render))
  }

  /** `toAnswersFromAny`, storing the fields one by one into the answers record. */
  method ToAnswersFromAny(raw: Json, uuid: string, render: Json -> string) returns (sid: string, answers: Answers)
    ensures (sid, answers) == AnswersFromAny(raw, uuid, render)
  {
    var root := RootOf(raw);
    var maybeFields := GetIn(root, "fields");
    if maybeFields.Some? && maybeFields.value.JArr? {
      sid := AsStr(GetIn(root, "responseId"), render);
      answers := map[];
      var items := maybeFields.value.items;
      var k := 0;
      while k < |items|
        invariant 0 <= k <= |items|
        invariant answers == FieldAnswers(items[..k], render)
      {
        var f := items[k];
        var name := Label(f, render);
        var value := FieldValue(f, render);
        if name != "" {
          answers := answers[name := value];
        }
        assert items[..k + 1][..k] == items[..k];
        k := k + 1;
      }
      assert items[..|items|] == items;
      return;
    }
    sid := AsStr(Get(raw, "responseId"), render);
    if sid == "" {
      sid := uuid;
    }
    answers := FlatAnswers(raw, render);
  }

  /** The fields path keeps exactly the labelled fields: a label is a key iff some field carries it, and "" never is. */
  lemma {:induction false} FieldAnswersKeys(fields: seq<Json>, render: Json -> string)
    ensures "" !in FieldAnswers(fields, render)
    ensures forall k :: k in FieldAnswers(fields, render) <==>
      exists i :: 0 <= i < |fields| && k != "" && Label(fields[i], render) == k
    decreases |fields|
  {
    if fields != [] {
      var init := fields[..|fields| - 1];
      var last := fields[|fields| - 1];
      FieldAnswersKeys(init, render);
      forall k
        ensures k in FieldAnswers(fields, render) <==>
          exists i :: 0 <= i < |fields| && k != "" && Label(fields[i], render) == k
      {
        if k in FieldAnswers(fields, render) && k !in FieldAnswers(init, render) {
          assert Label(fields[|fields| - 1], render) == k;
        }
        if k in FieldAnswers(init, render) {
          var i :| 0 <= i < |init| && k != "" && Label(init[i], render) == k;
          assert fields[i] == init[i];
        }
        if exists i :: 0 <= i < |fields| && k != "" && Label(fields[i], render) == k {
          var i :| 0 <= i < |fields| && k != "" && Label(fields[i], render) == k;
          if i < |init| {
            assert init[i] == fields[i];
          }
        }
      }
    }
  }

  /** A later field with the same label overwrites: each label carries the value of the last field bearing it. */
  lemma {:induction false} LastLabelWins(fields: seq<Json>, render: Json -> string, i: nat)
    requires i < |fields| && Label(fields[i], render) != ""
    requires forall j :: i < j < |fields| ==> Label(fields[j], render) != Label(fields[i], render)
    ensures Label(fields[i], render) in FieldAnswers(fields, render)
    ensures FieldAnswers(fields, render)[Label(fields[i], render)] == FieldValue(fields[i], render)
    decreases |fields|
  {
    if i < |fields| - 1 {
      var init := fields[..|fields| - 1];
      assert init[i] == fields[i];
      LastLabelWins(init, render, i);
    }
  }

  /** What the POST handler answers. */
  datatype Response =
    | Refused(status: int, error: string)
    | Scored(sid: string, decision: Score, enriched: EnrichedView, config: Json, criteria: Json)

  /** `isRecord(v) ? v : null`. */
  function RecordOrNull(v: Option<Json>): (r: Json)
    ensures r.JObj? || r.JNull?
    ensures r.JObj? <==> v.Some? && IsRecord(v.value)
    ensures r.JObj? ==> r == v.value
  {
    if v.Some? && IsRecord(v.value) then v.value else JNull
  }

  /**
   * The POST handler. `body` is the parsed request body (None when it is not
   * JSON); `enrichWithApis` is the enrichment the handler calls, whose
   * definition is not part of the repository.
   */
  function Post(body: Option<Json>, uuid: string, render: Json -> string, enrichWithApis: Answers -> EnrichedResult)
    : (r: Response)
    ensures body.None? ==> r == Refused(400, "Invalid JSON")
    ensures body.Some? ==>
      var (sid, answers) := AnswersFromAny(body.value, uuid, render);
      && (r.Refused? <==> EmailKey !in answers || answers[EmailKey] == "")
      && (r.Refused? ==> r == Refused(400, "Missing work_email"))
      && (r.Scored? ==> r.sid == sid && r.decision == ScoreLead(enrichWithApis(answers))
                        && r.enriched == Echoed(enrichWithApis(answers)))
    ensures r.Scored? ==> r.config == RecordOrNull(Get(body.value, "config"))
    ensures r.Scored? ==> r.criteria == RecordOrNull(Get(body.value, "criteria"))
  {
    if body.None? then Refused(400, "Invalid JSON")
    else
      var (sid, answers) := AnswersFromAny(body.value, uuid, render);
      if EmailKey !in answers || answers[EmailKey] == "" then Refused(400, "Missing work_email")
      else
        var enriched := enrichWithApis(answers);
        Scored(sid, ScoreLead(enriched), Echoed(enriched),
          RecordOrNull(Get(body.value, "config")), RecordOrNull(Get(body.value, "criteria")))
  }

  /** A flat payload is refused exactly when its `work_email` reads as the empty string. */
  lemma FlatEmailRequired(raw: Json, uuid: string, render: Json -> string, enrichWithApis: Answers -> EnrichedResult)
    requires FieldsOf(raw).None?
    ensures Post(Some(raw), uuid, render, enrichWithApis).Refused? <==> AsStr(Get(raw, "work_email"), render) == ""
  {
    assert FlatFields[1] == (EmailKey, "work_email");
  }

  /** A fields payload with no field labelled "Email Address" is refused. */
  lemma FieldsEmailRequired(raw: Json, uuid: string, render: Json -> string, enrichWithApis: Answers -> EnrichedResult)
    requires FieldsOf(raw).Some?
    requires forall i :: 0 <= i < |FieldsOf(raw).value| ==> Label(FieldsOf(raw).value[i], render) != EmailKey
    ensures Post(Some(raw), uuid, render, enrichWithApis) == Refused(400, "Missing work_email")
  {
    FieldAnswersKeys(FieldsOf(raw).value, render);
  }
}

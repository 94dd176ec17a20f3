/**
 * `evaluateWithClaude`: how the model's reply text becomes an `AiDecision`.
 * The request itself is an oracle; the prompt is a constant string with no
 * behaviour.
 */
module Claude {
  import opened Wrappers
  import opened Text
  import opened Json
  import opened Http
  import opened SerpEval

  /** An `AiDecision` that is not null. */
  datatype AiDecision = AiDecision(status: AiStatus, reason: string)

  /**
   * What the model takes from the runtime: `render` is `String(v)` for a JSON
   * number or array, `parse` is `JSON.parse` (None when it throws).
   */
  datatype Runtime = Runtime(render: Json -> string, parse: string -> Option<Json>)

  /** `raw?.content?.[0]?.text ?? raw?.output_text ?? ""`. */
  function ReplyText(raw: Json): (t: Json)
    ensures !Nullish(GetIn(First(Get(raw, "content")), "text")) ==> t == GetIn(First(Get(raw, "content")), "text").value
    ensures Nullish(GetIn(First(Get(raw, "content")), "text")) && !Nullish(Get(raw, "output_text")) ==>
      t == Get(raw, "output_text").value
    ensures Nullish(GetIn(First(Get(raw, "content")), "text")) && Nullish(Get(raw, "output_text")) ==> t == JStr("")
  {
    var text := Coalesce(Coalesce(GetIn(First(Get(raw, "content")), "text"), Get(raw, "output_text")), Some(JStr("")));
    if text.Some? then text.value else JStr("")
  }

  /** The three statuses a decision may carry, as the model writes them in lower case. */
  function StatusOf(word: string): (s: Option<AiStatus>)
    ensures s.Some? <==> word in ["approved", "rejected", "unsure"]
  {
    if word == "approved" then Some(Approved)
    else if word == "rejected" then Some(Rejected)
    else if word == "unsure" then Some(Unsure)
    else None
  }

  /** The decision stated by the parsed model output `parsed`. */
  function DecisionOf(parsed: Json): (d: AiDecision)
    ensures var st := StrOf(Get(parsed, "status"));
      (st.Some? && StatusOf(ToLower(st.value)).Some? ==>
         d == AiDecision(StatusOf(ToLower(st.value)).value, StrOf(Get(parsed, "reason")).GetOr("")))
      && (st.None? || StatusOf(ToLower(st.value)).None? ==> d == AiDecision(Unsure, "Non-conforming status from model."))
  {
    var status := if StrOf(Get(parsed, "status")).Some? then ToLower(StrOf(Get(parsed, "status")).value) else "";
    var reason := StrOf(Get(parsed, "reason")).GetOr("");
    var s := StatusOf(status);
    if s.Some? then AiDecision(s.value, reason)
    else AiDecision(Unsure, "Non-conforming status from model.")
  }

  /**
   * `evaluateWithClaude`. A missing key throws before the request; a network
   * error or abort is not caught and fails the call; a body that is not JSON
   * reads as `{}`.
   */
  function EvaluateWithClaude(apiKey: string, f: Fetched, rt: Runtime): (r: Result<AiDecision>)
    ensures apiKey == "" ==> r == Failure("Missing ANTHROPIC_API_KEY")
    ensures apiKey != "" && f.Threw? ==> r == Failure(f.message)
    ensures apiKey != "" && f.Responded? <==> r.Success?
    ensures apiKey != "" && f.Responded? ==>
      var text := ReplyText(if f.reply.parsed.Some? then f.reply.parsed.value else JObj(map[]));
      var parsed := rt.parse(JsString(Some(text), rt.render));
      && (!Truthy(text) ==> r == Success(AiDecision(Unsure, "Empty response from model.")))
      && (Truthy(text) && parsed.None? ==> r == Success(AiDecision(Unsure, "Model did not return parseable JSON.")))
      && (Truthy(text) && parsed.Some? ==> r == Success(DecisionOf(parsed.value)))
  {
    if apiKey == "" then Failure("Missing ANTHROPIC_API_KEY")
    else if f.Threw? then Failure(f.message)
    else
      var raw := if f.reply.parsed.Some? then f.reply.parsed.value else JObj(map[]);
      var text := ReplyText(raw);
      if !Truthy(text) then Success(AiDecision(Unsure, "Empty response from model."))
      else
        var parsed := rt.parse(JsString(Some(text), rt.render));
        if parsed.None? then Success(AiDecision(Unsure, "Model did not return parseable JSON."))
        else Success(DecisionOf(parsed.value))
  }

  /**
   * The status the model writes is matched without regard to ASCII case, and
   * its reason passes through; the decision is never anything but one of the
   * three statuses.
   */
  lemma StatusIgnoresCase(word: string, reason: string)
    requires word in ["approved", "rejected", "unsure"]
    ensures DecisionOf(JObj(map["status" := JStr(ToUpper(word)), "reason" := JStr(reason)]))
      == AiDecision(StatusOf(word).value, reason)
  {
    var j := JObj(map["status" := JStr(ToUpper(word)), "reason" := JStr(reason)]);
    assert Get(j, "status") == Some(JStr(ToUpper(word)));
    assert Get(j, "reason") == Some(JStr(reason));
    LowerOfUpper(word);
  }

  /** Upper-casing a lower-case word and lower-casing it again gives it back. */
  lemma LowerOfUpper(w: string)
    requires forall i :: 0 <= i < |w| ==> 'a' <= w[i] <= 'z'
    ensures ToLower(ToUpper(w)) == w
  {
    forall i | 0 <= i < |w| ensures ToLower(ToUpper(w))[i] == w[i] {
      assert ToUpper(w)[i] == UpperChar(w[i]);
    }
  }
}

/**
 * The People Data Labs company lookup `fetchPDLByDomain`: the defensive
 * number reader `toNumber`, the unwrapping of the `data` envelope, and the
 * classification of the reply into an enrichment patch or a debug note.
 */
module Pdl {
  import opened Wrappers
  import opened Text
  import opened Json
  import opened Http

  /** `v.replace(/[^\d.]/g, "")`: the digits and dots of `v`, in order. */
  function DigitsAndDots(v: string): (r: string)
    ensures forall i :: 0 <= i < |r| ==> IsDigit(r[i]) || r[i] == '.'
    ensures |r| <= |v|
  {
    if v == [] then []
    else (if IsDigit(v[0]) || v[0] == '.' then [v[0]] else []) + DigitsAndDots(v[1..])
  }

  /** The value of the digit string `ds` read after a decimal point. */
  function Fraction(ds: string): (f: real)
    requires AllDigits(ds)
    ensures 0.0 <= f
  {
    NatValue(ds) as real / Pow10(|ds|) as real
  }

  /**
   * `parseFloat` on a string of digits and dots: the longest prefix that reads
   * as a decimal literal (`12`, `12.`, `12.5`, `.5`), None (NaN) when there is
   * none.
   */
  function ParseFloat(s: string): (r: Option<real>)
    ensures r.Some? ==> 0.0 <= r.value
  {
    var lead := DigitsEnd(s, 0);
    if lead > 0 then
      var whole := NatValue(s[..lead]) as real;
      if lead < |s| && s[lead] == '.' then
        var fracEnd := DigitsEnd(s, lead + 1);
        Some(whole + Fraction(s[lead + 1..fracEnd]))
      else Some(whole)
    else if |s| > 1 && s[0] == '.' && IsDigit(s[1]) then
      Some(Fraction(s[1..DigitsEnd(s, 1)]))
    else None
  }

  /**
   * `toNumber(v)`: a JSON number as it is (JSON numbers are finite), a string
   * through its digits and dots and `parseFloat`, anything else None.
   */
  function ToNumber(v: Option<Json>): (r: Option<real>)
    ensures v.Some? && v.value.JNum? ==> r == Some(v.value.n)
    ensures v.None? || !(v.value.JNum? || v.value.JStr?) ==> r.None?
    ensures v.Some? && v.value.JStr? && r.Some? ==> 0.0 <= r.value
  {
    if v.None? then None
    else match v.value
      case JNum(n) => Some(n)
      case JStr(s) => ParseFloat(DigitsAndDots(s))
      case _ => None
  }

  /** A string without digits reads as no number. */
  lemma ToNumberNoDigits(s: string)
    requires forall i :: 0 <= i < |s| ==> !IsDigit(s[i])
    ensures ToNumber(Some(JStr(s))).None?
  {
    NoDigitsKept(s);
  }

  lemma {:induction false} NoDigitsKept(s: string)
    requires forall i :: 0 <= i < |s| ==> !IsDigit(s[i])
    ensures forall i :: 0 <= i < |DigitsAndDots(s)| ==> DigitsAndDots(s)[i] == '.'
  {
    if s != [] {
      NoDigitsKept(s[1..]);
    }
  }

  lemma {:induction false} DigitsAndDotsOfDigits(ds: string)
    requires AllDigits(ds)
    ensures DigitsAndDots(ds) == ds
  {
    if ds != [] {
      DigitsAndDotsOfDigits(ds[1..]);
    }
  }

  lemma {:induction false} DigitsAndDotsAppend(a: string, b: string)
    ensures DigitsAndDots(a + b) == DigitsAndDots(a) + DigitsAndDots(b)
  {
    if a == [] {
      assert a + b == b;
    } else {
      assert (a + b)[0] == a[0] && (a + b)[1..] == a[1..] + b;
      DigitsAndDotsAppend(a[1..], b);
    }
  }

  /** A digit string reads as its value, and separators other than digits and dots do not change the reading. */
  lemma ToNumberOfGroupedDigits(a: string, sep: char, b: string)
    requires a != [] && AllDigits(a) && AllDigits(b)
    requires !IsDigit(sep) && sep != '.'
    ensures ToNumber(Some(JStr(a + [sep] + b))) == Some(NatValue(a + b) as real)
  {
    var s := a + b;
    assert DigitsAndDots(a + [sep] + b) == s by {
      DigitsAndDotsAppend(a + [sep], b);
      DigitsAndDotsAppend(a, [sep]);
      DigitsAndDotsOfDigits(a);
      DigitsAndDotsOfDigits(b);
      assert DigitsAndDots([sep]) == [];
    }
    assert AllDigits(s);
    DigitsRun(s);
  }

  lemma DigitsRun(s: string)
    requires s != [] && AllDigits(s)
    ensures ParseFloat(s) == Some(NatValue(s) as real)
  {
    DigitsEndAll(s, 0);
    assert s[..|s|] == s;
  }

  lemma {:induction false} DigitsEndAll(s: string, i: nat)
    requires i <= |s| && AllDigits(s)
    ensures DigitsEnd(s, i) == |s|
    decreases |s| - i
  {
    if i < |s| {
      DigitsEndAll(s, i + 1);
    }
  }

  /** A figure written `whole.frac` reads as its decimal value. */
  lemma ToNumberOfDecimal(whole: string, frac: string)
    requires whole != [] && AllDigits(whole) && AllDigits(frac)
    ensures ToNumber(Some(JStr(whole + "." + frac))) == Some(NatValue(whole) as real + Fraction(frac))
  {
    DecimalKept(whole, frac);
    ParseDecimal(whole, frac);
  }

  /** Digits and dots are all that a decimal figure holds. */
  lemma DecimalKept(whole: string, frac: string)
    requires AllDigits(whole) && AllDigits(frac)
    ensures DigitsAndDots(whole + "." + frac) == whole + "." + frac
  {
    DigitsAndDotsAppend(whole + ".", frac);
    DigitsAndDotsAppend(whole, ".");
    DigitsAndDotsOfDigits(whole);
    DigitsAndDotsOfDigits(frac);
  }

  lemma ParseDecimal(whole: string, frac: string)
    requires whole != [] && AllDigits(whole) && AllDigits(frac)
    ensures ParseFloat(whole + "." + frac) == Some(NatValue(whole) as real + Fraction(frac))
  {
    var s := whole + "." + frac;
    var n := |whole|;
    assert s[0..n] == whole && s[n] == '.';
    DigitsEndBefore(s, 0, n);
    assert s[n + 1..] == frac;
    DigitsEndShift(s, n + 1);
    assert s[..n] == whole && s[n + 1..|s|] == frac;
  }

  lemma {:induction false} DigitsEndBefore(s: string, i: nat, j: nat)
    requires i <= j < |s| && AllDigits(s[i..j]) && !IsDigit(s[j])
    ensures DigitsEnd(s, i) == j
    decreases j - i
  {
    if i < j {
      assert s[i] == s[i..j][0];
      assert s[i + 1..j] == s[i..j][1..];
      DigitsEndBefore(s, i + 1, j);
    }
  }

  lemma DigitsEndShift(s: string, i: nat)
    requires i <= |s| && AllDigits(s[i..])
    ensures DigitsEnd(s, i) == |s|
  {
    forall k | i <= k < |s| ensures IsDigit(s[k]) {
      assert s[k] == s[i..][k - i];
    }
    DigitsEndFrom(s, i);
  }

  lemma {:induction false} DigitsEndFrom(s: string, i: nat)
    requires i <= |s| && forall k :: i <= k < |s| ==> IsDigit(s[k])
    ensures DigitsEnd(s, i) == |s|
    decreases |s| - i
  {
    if i < |s| {
      DigitsEndFrom(s, i + 1);
    }
  }

  // ---------------------------------------------------------------- the lookup

  /** The enrichment patch: the two counts PDL reports. */
  datatype PdlCompany = PdlCompany(employeeCount: Option<real>, totalFundingRaised: Option<real>)

  /** `debug.pdlError`: the status and body of a failed reply, or the message of a thrown error. */
  datatype PdlError = StatusError(status: int, body: Json) | Message(message: string)

  datatype PdlResult = PdlResult(companyEnrichment: Option<PdlCompany>, debug: Option<PdlError>)

  /** The record the counts are read from: `body.data` when it is not nullish, else the body when it is a record. */
  function DataOf(body: Json): (d: Option<Json>)
    ensures !IsRecord(body) ==> d.None?
    ensures IsRecord(body) && !Nullish(Get(body, "data")) ==> d == Get(body, "data")
    ensures IsRecord(body) && Nullish(Get(body, "data")) ==> d == Some(body)
  {
    var container := if IsRecord(body) then Some(body) else None;
    Coalesce(GetIn(container, "data"), container)
  }

  /** The patch of a successful reply: the two counts read through `toNumber`. */
  function CompanyOf(body: Json): PdlCompany {
    var data := DataOf(body);
    PdlCompany(ToNumber(GetIn(data, "employee_count")), ToNumber(GetIn(data, "total_funding_raised")))
  }

  /**
   * `fetchPDLByDomain`: Failure when there is no key (before any request);
   * otherwise one of three outcomes decided by the reply.
   */
  function FetchPdlByDomain(apiKey: string, f: Fetched): (r: Result<PdlResult>)
    ensures apiKey == "" <==> r.Failure?
    ensures r.Failure? ==> r.error == "Missing PDL_API_KEY"
    ensures r.Success? ==> (r.value.companyEnrichment.Some? <==> r.value.debug.None?)
    ensures r.Success? && f.Threw? ==> r.value == PdlResult(None, Some(Message(f.message)))
    ensures r.Success? && f.Responded? && !f.reply.Ok() ==>
      r.value == PdlResult(None, Some(StatusError(f.reply.status, f.reply.Body())))
    ensures r.Success? && f.Responded? && f.reply.Ok() ==>
      r.value.companyEnrichment == Some(CompanyOf(f.reply.Body()))
  {
    if apiKey == "" then Failure("Missing PDL_API_KEY")
    else match f
      case Threw(m) => Success(PdlResult(None, Some(Message(m))))
      case Responded(reply) =>
        var body := reply.Body();
        if !reply.Ok() then Success(PdlResult(None, Some(StatusError(reply.status, body))))
        else Success(PdlResult(Some(CompanyOf(body)), None))
  }

  /**
   * The counts come from the `data` envelope when it is there, else from the
   * body itself; a body that is not a record yields no counts.
   */
  lemma CompanyOfEnvelope(inner: map<string, Json>, outer: map<string, Json>)
    requires "data" !in outer
    ensures CompanyOf(JObj(outer["data" := JObj(inner)])) ==
      PdlCompany(ToNumber(Get(JObj(inner), "employee_count")), ToNumber(Get(JObj(inner), "total_funding_raised")))
    ensures CompanyOf(JObj(outer)) ==
      PdlCompany(ToNumber(Get(JObj(outer), "employee_count")), ToNumber(Get(JObj(outer), "total_funding_raised")))
  {
    assert Get(JObj(outer["data" := JObj(inner)]), "data") == Some(JObj(inner));
    assert Get(JObj(outer), "data") == None;
  }

  /** A body that is not a record (null, text that did not parse, an array) yields no counts. */
  lemma CompanyOfNonRecord(body: Json)
    requires !IsRecord(body)
    ensures CompanyOf(body) == PdlCompany(None, None)
  {
  }
}

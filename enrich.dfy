/**
 * The form-driven enrichment of src/lib/enrich.ts: the defensive parsers
 * (`toInt`, `domainFromEmail`, `parseSize`), the derivation and outcome slots
 * of `enrichWithAbstract`, and the fixed 1000-employee `scoreLead`.
 */
module Enrich {
  import opened Wrappers
  import opened Text
  import opened Json
  import opened Http

  /** A form submission: question label to answer text. */
  type Answers = map<string, string>

  /** `parseInt(g.replace(/[^\d]/g, ""), 10)`: the number formed by all the digits, None (NaN) when there are none. */
  function DigitsValue(g: string): (r: Option<nat>)
    ensures r.None? <==> Digits(g) == []
  {
    var ds := Digits(g);
    if ds == [] then None else Some(NatValue(ds))
  }

  /** `toInt`: None for an absent or empty answer, or one without digits. */
  function ToInt(s: Option<string>): (r: Option<nat>)
    ensures r.None? <==> s.None? || Digits(s.value) == []
    ensures r.Some? ==> r.value == NatValue(Digits(s.value))
  {
    if s.None? || s.value == "" then None else DigitsValue(s.value)
  }

  /**
   * A numeral surrounded by text without digits reads back as its value:
   * signs, separators and words are dropped, so the result is never negative.
   */
  lemma ToIntOfNumeral(pre: string, n: nat, post: string)
    requires forall i :: 0 <= i < |pre| ==> !IsDigit(pre[i])
    requires forall i :: 0 <= i < |post| ==> !IsDigit(post[i])
    ensures ToInt(Some(pre + NatToString(n) + post)) == Some(n)
  {
    var ns := NatToString(n);
    DigitsAppend(pre + ns, post);
    DigitsAppend(pre, ns);
    DigitsEmptyIffNone(pre);
    DigitsEmptyIffNone(post);
    DigitsOfDigitString(ns);
    NatToStringRoundTrip(n);
    assert Digits(pre + ns + post) == ns;
  }

  /** `domainFromEmail`: the lower-cased non-empty text after the last `@`. */
  function DomainFromEmail(email: Option<string>): (r: Option<string>)
    ensures r.None? <==> email.None? || '@' !in email.value || email.value[|email.value| - 1] == '@'
    ensures r.Some? ==> r.value != "" && '@' !in r.value
    ensures r.Some? ==> exists i :: 0 <= i < |email.value| - 1 && email.value[i] == '@'
                                    && '@' !in email.value[i + 1..] && r.value == ToLower(email.value[i + 1..])
  {
    if email.None? || email.value == "" then None
    else
      var e := email.value;
      var at := LastIndexOf(e, '@');
      if at.None? then None
      else if at.value + 1 < |e| then
        var r := ToLower(e[at.value + 1..]);
        assert '@' !in r by {
          forall k | 0 <= k < |r| ensures r[k] != '@' {
            assert e[at.value + 1..][k] != '@';
          }
        }
        Some(r)
      else None
  }

  /** Any address whose last `@` is followed by text yields that text, lower-cased. */
  lemma DomainFromEmailOfAddress(local: string, domain: string)
    requires domain != "" && '@' !in domain
    ensures DomainFromEmail(Some(local + "@" + domain)) == Some(ToLower(domain))
  {
    var e := local + "@" + domain;
    var at := LastIndexOf(e, '@');
    assert e[|local|] == '@';
    assert at.Some?;
    assert at.value == |local|;
    assert e[at.value + 1..] == domain;
  }

  /** The answers a submission is read through. */
  const EmailKey := "Email Address"
  const CompanyNameKey := "Company Name"
  const SeatsKey := "Number of Seats"
  const CompanySizeKey := "Company Size"
  const ComputersKey := "Computers"

  /** `answers[key]?.trim()`. */
  function Trimmed(answers: Answers, key: string): (r: Option<string>)
    ensures r.Some? <==> key in answers
    ensures r.Some? ==> r.value == Trim(answers[key])
  {
    if key in answers then Some(Trim(answers[key])) else None
  }

  /** `answers[key]?.trim() || null`. */
  function TrimmedOrNull(answers: Answers, key: string): (r: Option<string>)
    ensures r.Some? <==> key in answers && Trim(answers[key]) != ""
    ensures r.Some? ==> r.value == Trim(answers[key])
  {
    var t := Trimmed(answers, key);
    if t.Some? && t.value != "" then t else None
  }

  /** The fields worked out from the answers alone. */
  datatype Derived = Derived(
    email: Option<string>,
    companyName: Option<string>,
    seats: Option<nat>,
    companySize: Option<string>,
    computers: Option<string>,
    domain: Option<string>)

  function Derive(answers: Answers): (d: Derived)
    ensures d.email == Trimmed(answers, EmailKey) && d.companyName == Trimmed(answers, CompanyNameKey)
    ensures d.seats == ToInt(if SeatsKey in answers then Some(answers[SeatsKey]) else None)
    ensures d.companySize == TrimmedOrNull(answers, CompanySizeKey)
    ensures d.computers == TrimmedOrNull(answers, ComputersKey)
    ensures d.domain == DomainFromEmail(d.email)
  {
    var email := Trimmed(answers, EmailKey);
    Derived(
      email,
      Trimmed(answers, CompanyNameKey),
      ToInt(if SeatsKey in answers then Some(answers[SeatsKey]) else None),
      TrimmedOrNull(answers, CompanySizeKey),
      TrimmedOrNull(answers, ComputersKey),
      DomainFromEmail(email))
  }

  /** Why a provider call did not give an enrichment: a non-2xx reply, or a thrown error's message. */
  datatype EnrichmentError = StatusError(status: int, body: Json) | ErrorMessage(message: string)

  /** `EnrichedResult`: the provider's body, the derived fields, and the error slot. */
  datatype EnrichedResult = EnrichedResult(
    companyEnrichment: Option<Json>,
    derived: Derived,
    debug: Option<EnrichmentError>)

  /**
   * `enrichWithAbstract`: refuses without an API key; derives the fields; with
   * no domain returns them alone without calling the provider; otherwise fills
   * exactly one slot from the provider's outcome. `apiKey` "" stands for an
   * unset key; `fetched` is what the request yields; `called` tells whether it
   * was made.
   */
  method EnrichWithAbstract(answers: Answers, apiKey: string, fetched: Fetched)
    returns (r: Result<EnrichedResult>, called: bool)
    ensures apiKey == "" <==> r.Failure?
    ensures apiKey == "" ==> r == Failure("Missing ABSTRACT_API_KEY") && !called
    ensures r.Success? ==> r.value.derived == Derive(answers)
    ensures r.Success? ==> (called <==> Derive(answers).domain.Some?)
    ensures r.Success? && !called ==> r.value.companyEnrichment.None? && r.value.debug.None?
    ensures r.Success? && called ==> (r.value.companyEnrichment.Some? <==> r.value.debug.None?)
    ensures r.Success? && called && fetched.Responded? && fetched.reply.Ok() ==>
      r.value.companyEnrichment == Some(fetched.reply.Body())
    ensures r.Success? && called && fetched.Responded? && !fetched.reply.Ok() ==>
      r.value.debug == Some(StatusError(fetched.reply.status, fetched.reply.Body()))
    ensures r.Success? && called && fetched.Threw? ==> r.value.debug == Some(ErrorMessage(fetched.message))
  {
    if apiKey == "" {
      return Failure("Missing ABSTRACT_API_KEY"), false;
    }
    var derived := Derive(answers);
    var out := EnrichedResult(None, derived, None);
    if derived.domain.None? {
      return Success(out), false;
    }
    called := true;
    match fetched {
      case Responded(reply) =>
        var body := reply.Body();
        if reply.Ok() {
          out := out.(companyEnrichment := Some(body));
        } else {
          out := out.(debug := Some(StatusError(reply.status, body)));
        }
      case Threw(message) =>
        out := out.(debug := Some(ErrorMessage(message)));
    }
    return Success(out), called;
  }

  /** The characters of a `[\d,\.]` group. */
  predicate IsGroupChar(c: char) { IsDigit(c) || c == ',' || c == '.' }

  /** The index just past the run of group characters that starts at `i`. */
  function GroupEnd(s: string, i: nat): (j: nat)
    requires i <= |s|
    ensures i <= j <= |s|
    ensures forall k :: i <= k < j ==> IsGroupChar(s[k])
    ensures j == |s| || !IsGroupChar(s[j])
    decreases |s| - i
  {
    if i < |s| && IsGroupChar(s[i]) then GroupEnd(s, i + 1) else i
  }

  /** A run of group characters ended by a non-group character is the one `GroupEnd` finds. */
  lemma GroupEndAt(s: string, i: nat, j: nat)
    requires i <= j <= |s|
    requires forall k :: i <= k < j ==> IsGroupChar(s[k])
    requires j == |s| || !IsGroupChar(s[j])
    ensures GroupEnd(s, i) == j
  {
  }

  /** `/^([\d,\.]+)\s*\+$/`: the group of an "N+" size. */
  function PlusForm(str: string): (g: Option<string>)
    ensures g.Some? ==> g.value != "" && |g.value| < |str| && g.value == str[..|g.value|] && str[|str| - 1] == '+'
  {
    var j := GroupEnd(str, 0);
    if 0 < j && str[|str| - 1] == '+' && SpacesEnd(str, j) == |str| - 1 then Some(str[..j]) else None
  }

  /** `/^([\d,\.]+)\s*-\s*([\d,\.]+)$/`: the two groups of an "A - B" size. */
  function RangeForm(str: string): (gs: Option<(string, string)>)
    ensures gs.Some? ==> gs.value.0 != "" && gs.value.1 != ""
    ensures gs.Some? ==> |gs.value.0| <= |str| && gs.value.0 == str[..|gs.value.0|]
  {
    var j1 := GroupEnd(str, 0);
    if j1 == 0 then None
    else
      var k := SpacesEnd(str, j1);
      if k == |str| || str[k] != '-' then None
      else
        var m := SpacesEnd(str, k + 1);
        var j2 := GroupEnd(str, m);
        if j2 == m || j2 != |str| then None else Some((str[..j1], str[m..]))
  }

  /** `parseSize`: "N+" gives N (None when 0), "A - B" its midpoint rounded half up, anything else all its digits. */
  function ParseSize(s: Option<string>): Option<nat> {
    if s.None? || s.value == "" then None else ParseNormalised(Trim(ToLower(s.value)))
  }

  /** `parseSize` on the lower-cased, trimmed text. */
  function ParseNormalised(str: string): (r: Option<nat>)
    ensures r.Some? && PlusForm(str).Some? ==> r.value > 0
  {
    var plus := PlusForm(str);
    if plus.Some? then
      var n := DigitsValue(plus.value);
      if n.None? || n.value == 0 then None else n
    else
      var range := RangeForm(str);
      if range.Some? then
        var a := DigitsValue(range.value.0);
        var b := DigitsValue(range.value.1);
        if a.Some? && b.Some? then Some((a.value + b.value + 1) / 2) else None
      else DigitsValue(str)
  }

  /** A numeral has no upper-case letters and no white space at its ends, so `toLowerCase().trim()` keeps it. */
  lemma NormalisedNumeral(s: string)
    requires s != [] && IsDigit(s[0]) && (IsDigit(s[|s| - 1]) || s[|s| - 1] == '+')
    requires forall i :: 0 <= i < |s| ==> IsDigit(s[i]) || s[i] == '+' || s[i] == ' ' || s[i] == '-'
    ensures Trim(ToLower(s)) == s
  {
    ToLowerNoUpper(s);
    TrimUnchanged(s);
  }

  lemma NumeralValue(n: nat)
    ensures DigitsValue(NatToString(n)) == Some(n)
  {
    DigitsOfDigitString(NatToString(n));
    NatToStringRoundTrip(n);
  }

  lemma PlusFormOfNumeral(ns: string)
    requires ns != [] && AllDigits(ns)
    ensures PlusForm(ns + "+") == Some(ns)
  {
    var s := ns + "+";
    GroupEndAt(s, 0, |ns|);
    assert s[..|ns|] == ns;
  }

  lemma {:induction false} RangeFormOfNumerals(sa: string, sb: string)
    requires sa != [] && AllDigits(sa) && sb != [] && AllDigits(sb)
    ensures PlusForm(sa + " - " + sb).None?
    ensures RangeForm(sa + " - " + sb) == Some((sa, sb))
  {
    var s := sa + " - " + sb;
    GroupEndAt(s, 0, |sa|);
    assert s[|sa|] == ' ' && s[|sa| + 1] == '-' && s[|sa| + 2] == ' ';
    assert SpacesEnd(s, |sa|) == |sa| + 1;
    assert s[|sa| + 3] == sb[0];
    assert SpacesEnd(s, |sa| + 2) == |sa| + 3;
    GroupEndAt(s, |sa| + 3, |s|);
    assert s[..|sa|] == sa;
    assert s[|sa| + 3..] == sb;
    assert s[|s| - 1] == sb[|sb| - 1];
  }

  lemma RangeNormalised(sa: string, sb: string)
    requires sa != [] && AllDigits(sa) && sb != [] && AllDigits(sb)
    ensures Trim(ToLower(sa + " - " + sb)) == sa + " - " + sb
  {
    var s := sa + " - " + sb;
    assert s[|s| - 1] == sb[|sb| - 1];
    assert forall i :: 0 <= i < |s| ==> IsDigit(s[i]) || s[i] == ' ' || s[i] == '-' by {
      forall i | 0 <= i < |s| ensures IsDigit(s[i]) || s[i] == ' ' || s[i] == '-' {
        if i < |sa| { assert s[i] == sa[i]; }
        else if i >= |sa| + 3 { assert s[i] == sb[i - |sa| - 3]; }
      }
    }
    NormalisedNumeral(s);
  }

  lemma ParseSizeOfNormalised(s: string)
    requires s != "" && Trim(ToLower(s)) == s
    ensures ParseSize(Some(s)) == ParseNormalised(s)
  {
  }

  /** "N+" reads as N, and "0+" as nothing. */
  lemma {:induction false} ParseSizePlus(n: nat)
    ensures ParseSize(Some(NatToString(n) + "+")) == if n == 0 then None else Some(n)
  {
    var ns := NatToString(n);
    var s := ns + "+";
    NormalisedNumeral(s);
    PlusFormOfNumeral(ns);
    NumeralValue(n);
  }

  /** Two digit groups around " - " read as their midpoint, rounded half up. */
  lemma RangeParsed(sa: string, sb: string)
    requires sa != [] && AllDigits(sa) && sb != [] && AllDigits(sb)
    ensures ParseNormalised(sa + " - " + sb) == Some((NatValue(sa) + NatValue(sb) + 1) / 2)
  {
    RangeFormOfNumerals(sa, sb);
    DigitsOfDigitString(sa);
    DigitsOfDigitString(sb);
  }

  /** "A - B", for digit groups A and B, reads as their midpoint, rounded half up. */
  lemma ParseSizeRange(sa: string, sb: string)
    requires sa != [] && AllDigits(sa) && sb != [] && AllDigits(sb)
    ensures ParseSize(Some(sa + " - " + sb)) == Some((NatValue(sa) + NatValue(sb) + 1) / 2)
  {
    RangeNormalised(sa, sb);
    ParseSizeOfNormalised(sa + " - " + sb);
    RangeParsed(sa, sb);
  }

  /** A plain numeral reads as its value. */
  lemma {:induction false} ParseSizeSingle(n: nat)
    ensures ParseSize(Some(NatToString(n))) == Some(n)
  {
    var s := NatToString(n);
    NormalisedNumeral(s);
    GroupEndAt(s, 0, |s|);
    NumeralValue(n);
  }

  /** Lower-casing and trimming bring in no digits. */
  lemma {:induction false} NormalisedNoDigits(s: string)
    requires forall i :: 0 <= i < |s| ==> !IsDigit(s[i])
    ensures var str := Trim(ToLower(s)); forall i :: 0 <= i < |str| ==> !IsDigit(str[i])
  {
    var lower := ToLower(s);
    var t := TrimStart(lower);
    var str := TrimEnd(t);
    forall i | 0 <= i < |str| ensures !IsDigit(str[i]) {
      assert str[i] == t[i] == lower[|lower| - |t| + i];
    }
  }

  /** A normalised text without digits matches no form with a value. */
  lemma ParseNormalisedNoDigits(str: string)
    requires forall i :: 0 <= i < |str| ==> !IsDigit(str[i])
    ensures ParseNormalised(str) == None
  {
    NoDigitsNoValue(str);
    var plus := PlusForm(str);
    if plus.Some? {
      NoDigitsNoValue(plus.value);
    } else {
      var range := RangeForm(str);
      if range.Some? {
        NoDigitsNoValue(range.value.0);
      }
    }
  }

  /** Text without digits has no size. */
  lemma {:induction false} ParseSizeNoDigits(s: string)
    requires forall i :: 0 <= i < |s| ==> !IsDigit(s[i])
    ensures ParseSize(Some(s)) == None
  {
    if s != "" {
      NormalisedNoDigits(s);
      ParseNormalisedNoDigits(Trim(ToLower(s)));
    }
  }

  lemma NoDigitsNoValue(g: string)
    requires forall i :: 0 <= i < |g| ==> !IsDigit(g[i])
    ensures DigitsValue(g) == None
  {
    DigitsEmptyIffNone(g);
  }

  /** Why `scoreLead` rejects a lead. */
  datatype RejectReason = NoEmployeeCount | TooSmall(employees: real)

  /** `{ approved, reason? }`. */
  datatype Score = Score(approved: bool, reason: Option<RejectReason>)

  /** `companyEnrichment?.employee_count` when it is a number. */
  function EmployeeCount(companyEnrichment: Option<Json>): (r: Option<real>)
    ensures r.Some? <==> companyEnrichment.Some? && Get(companyEnrichment.value, "employee_count").Some?
                         && Get(companyEnrichment.value, "employee_count").value.JNum?
    ensures r.Some? ==> r.value == Get(companyEnrichment.value, "employee_count").value.n
  {
    if companyEnrichment.None? then None
    else
      var v := Get(companyEnrichment.value, "employee_count");
      if v.Some? && v.value.JNum? then Some(v.value.n) else None
  }

  /** The smallest head count `scoreLead` approves. */
  const MinEmployees: real := 1000.0

  /** `scoreLead`: approves exactly the companies with a numeric head count of at least 1000. */
  function ScoreLead(enriched: EnrichedResult): (s: Score)
    ensures var count := EmployeeCount(enriched.companyEnrichment);
      && (s.approved <==> count.Some? && count.value >= MinEmployees)
      && (s.approved <==> s.reason.None?)
      && (count.None? ==> s.reason == Some(NoEmployeeCount))
      && (count.Some? && count.value < MinEmployees ==> s.reason == Some(TooSmall(count.value)))
  {
    var count := EmployeeCount(enriched.companyEnrichment);
    if count.None? then Score(false, Some(NoEmployeeCount))
    else if count.value < MinEmployees then Score(false, Some(TooSmall(count.value)))
    else Score(true, None)
  }

  /** The reason text; `renderNumber` is JavaScript's rendering of a number in a template. */
  function ReasonText(reason: RejectReason, renderNumber: real -> string): (t: string)
    ensures reason.NoEmployeeCount? ==> t == "No employee count available"
    ensures reason.TooSmall? ==> t == "Too small (" + renderNumber(reason.employees) + " employees)"
  {
    match reason
    case NoEmployeeCount => "No employee count available"
    case TooSmall(n) => "Too small (" + renderNumber(n) + " employees)"
  }
  /** The `enriched` part of a route's reply: `companyEnrichment ?? null`, `debug ?? null`. */
  datatype EnrichedView = EnrichedView(derived: Derived, companyEnrichment: Json, debug: Option<EnrichmentError>)

  function Echoed(e: EnrichedResult): (v: EnrichedView)
    ensures v.derived == e.derived && v.debug == e.debug
    ensures v.companyEnrichment == JNull <==> Nullish(e.companyEnrichment)
    ensures !Nullish(e.companyEnrichment) ==> v.companyEnrichment == e.companyEnrichment.value
  {
    EnrichedView(e.derived, if Nullish(e.companyEnrichment) then JNull else e.companyEnrichment.value, e.debug)
  }

  /** Scoring what a route echoes gives the decision it sends beside it. */
  lemma ScoreOfEchoed(e: EnrichedResult)
    ensures var v := Echoed(e); ScoreLead(EnrichedResult(Some(v.companyEnrichment), v.derived, v.debug)) == ScoreLead(e)
  {
    var v := Echoed(e);
    assert EmployeeCount(Some(v.companyEnrichment)) == EmployeeCount(e.companyEnrichment);
  }
}

/**
 * The sales tester's contact form (app/tester/components/QualifyForm.tsx, and
 * the identical copy inside app/tester/page.tsx): field validation, the
 * defensive number reader, the all-enabled-minimums qualification rule, and
 * the redirect it sends the visitor to.
 */
module TesterForm {
  import opened Wrappers
  import opened Text

  /** The form's values. */
  datatype FormValues = FormValues(
    fullName: string,
    workEmail: string,
    company: string,
    domain: string,
    website: string,
    employees: string,
    revenueUsd: string,
    fundingUsd: string,
    useCase: string,
    accept: bool)

  const Initial := FormValues("", "", "", "", "", "", "", "", "", false)

  /** Which criteria count, and the minimum each must reach. */
  datatype Config = Config(
    bookingUrl: string,
    successUrl: string,
    employeesEnabled: bool,
    fundingEnabled: bool,
    revenueEnabled: bool,
    minEmployees: real,
    minFundingUsd: real,
    minRevenueUsd: real)

  const Defaults := Config("https://calendly.com/your-link", "https://yoursite.com/thanks",
    true, true, true, 400.0, 100000000.0, 50000000.0)

  // ---------------------------------------------------------------- validation

  /** A non-empty run of characters matched by `[^@\s]`. */
  predicate Plain(t: string) {
    t != [] && forall i :: 0 <= i < |t| ==> t[i] != '@' && !IsSpace(t[i])
  }

  /** `/^[^@\s]+@[^@\s]+\.[^@\s]+$/.test(s)`. */
  predicate EmailShape(s: string) {
    exists a: nat | a < |s| :: exists d: nat | a < d < |s| ::
      Plain(s[..a]) && s[a] == '@' && Plain(s[a + 1..d]) && s[d] == '.' && Plain(s[d + 1..])
  }

  /** `local@host.tld` passes when no part is empty or holds `@` or white space. */
  lemma EmailShapeOf(local: string, host: string, tld: string)
    requires Plain(local) && Plain(host) && Plain(tld)
    ensures EmailShape(local + "@" + host + "." + tld)
  {
    var s := local + "@" + host + "." + tld;
    var a := |local|;
    var d := |local| + 1 + |host|;
    assert s[..a] == local && s[a + 1..d] == host && s[d + 1..] == tld;
    assert s[a] == '@' && s[d] == '.';
  }

  /** An address that passes has exactly one `@` and no white space. */
  lemma EmailShapeMeans(s: string)
    requires EmailShape(s)
    ensures CountChar(s, '@') == 1
    ensures forall i :: 0 <= i < |s| ==> !IsSpace(s[i])
  {
    var a: nat, d: nat :| a < d < |s| && Plain(s[..a]) && s[a] == '@' && Plain(s[a + 1..d]) && s[d] == '.' && Plain(s[d + 1..]);
    EmailPartsOneAt(s, a, d);
    EmailPartsNoSpace(s, a, d);
  }

  lemma {:induction false} EmailPartsOneAt(s: string, a: nat, d: nat)
    requires a < d < |s| && Plain(s[..a]) && s[a] == '@' && Plain(s[a + 1..d]) && s[d] == '.' && Plain(s[d + 1..])
    ensures CountChar(s, '@') == 1
  {
    var left, mid, right := s[..a], s[a + 1..d], s[d + 1..];
    assert s == left + ([s[a]] + (mid + ([s[d]] + right)));
    CountCharAbsent(left, '@');
    CountCharAbsent(mid, '@');
    CountCharAbsent(right, '@');
    CountCharAppend([s[d]], right, '@');
    CountCharAppend(mid, [s[d]] + right, '@');
    CountCharAppend([s[a]], mid + ([s[d]] + right), '@');
    CountCharAppend(left, [s[a]] + (mid + ([s[d]] + right)), '@');
  }

  lemma EmailPartsNoSpace(s: string, a: nat, d: nat)
    requires a < d < |s| && Plain(s[..a]) && s[a] == '@' && Plain(s[a + 1..d]) && s[d] == '.' && Plain(s[d + 1..])
    ensures forall i :: 0 <= i < |s| ==> !IsSpace(s[i])
  {
    forall i | 0 <= i < |s| ensures !IsSpace(s[i]) {
      if i < a {
        assert s[i] == s[..a][i];
      } else if a < i < d {
        assert s[i] == s[a + 1..d][i - a - 1];
      } else if d < i {
        assert s[i] == s[d + 1..][i - d - 1];
      }
    }
  }

  /** The fields `validate` may flag. */
  datatype Field = FullName | WorkEmail | Company | Domain | Accept

  /** The property name each flagged field is recorded under. */
  function FieldName(f: Field): string {
    match f
    case FullName => "fullName"
    case WorkEmail => "workEmail"
    case Company => "company"
    case Domain => "domain"
    case Accept => "accept"
  }

  /** `!s.trim()`, stated as "white space only" (see BlankIsTrimEmpty). */
  predicate Blank(s: string) {
    AllSpace(s)
  }

  /** A string is blank exactly when `trim()` leaves nothing of it. */
  lemma BlankIsTrimEmpty(s: string)
    ensures Blank(s) <==> Trim(s) == ""
  {
    TrimEmptyIffAllSpace(s);
  }

  /** Whether `validate` flags field `f`. */
  predicate Flagged(v: FormValues, f: Field) {
    match f
    case FullName => Blank(v.fullName)
    case WorkEmail => !EmailShape(v.workEmail)
    case Company => Blank(v.company)
    case Domain => Blank(v.domain) && Blank(v.website)
    case Accept => !v.accept
  }

  /** The message `validate` records for a flagged field. */
  function Message(f: Field): string {
    match f
    case FullName => "Please enter your name"
    case WorkEmail => "Enter a valid work email"
    case Company => "Company is required"
    case Domain => "Add a company domain or website"
    case Accept => "You must accept the privacy terms"
  }

  /** The errors `validate` records, by field. */
  function ErrorsOf(v: FormValues): (errors: map<Field, string>)
    ensures FullName in errors <==> Blank(v.fullName)
    ensures WorkEmail in errors <==> !EmailShape(v.workEmail)
    ensures Company in errors <==> Blank(v.company)
    ensures Domain in errors <==> Blank(v.domain) && Blank(v.website)
    ensures Accept in errors <==> !v.accept
    ensures forall f | f in errors :: errors[f] == Message(f)
  {
    map f: Field | f in {FullName, WorkEmail, Company, Domain, Accept} && Flagged(v, f) :: Message(f)
  }

  /** The form passes exactly when all five checks do. */
  predicate Passes(v: FormValues) {
    && !Blank(v.fullName)
    && EmailShape(v.workEmail)
    && !Blank(v.company)
    && (!Blank(v.domain) || !Blank(v.website))
    && v.accept
  }

  lemma ValidateIff(v: FormValues)
    ensures ErrorsOf(v) == map[] <==> Passes(v)
  {
    if !Passes(v) {
      if Blank(v.fullName) { assert FullName in ErrorsOf(v); }
      else if !EmailShape(v.workEmail) { assert WorkEmail in ErrorsOf(v); }
      else if Blank(v.company) { assert Company in ErrorsOf(v); }
      else if !v.accept { assert Accept in ErrorsOf(v); }
      else { assert Domain in ErrorsOf(v); }
    }
  }

  // ---------------------------------------------------------------- numbers

  /** The characters `[0-9.\-]` keeps. */
  predicate IsNumeric(c: char) { IsDigit(c) || c == '.' || c == '-' }

  /** `String(v).replace(/[^0-9.\-]/g, "")`. */
  function KeepNumeric(v: string): (r: string)
    ensures forall i :: 0 <= i < |r| ==> IsNumeric(r[i])
  {
    if v == [] then []
    else (if IsNumeric(v[0]) then [v[0]] else []) + KeepNumeric(v[1..])
  }

  /** The value of a digit string read after a decimal point. */
  function Fraction(ds: string): (f: real)
    requires AllDigits(ds)
    ensures 0.0 <= f
  {
    NatValue(ds) as real / Pow10(|ds|) as real
  }

  /** An unsigned decimal literal as `Number` reads it: `12`, `12.`, `12.5` or `.5`, and nothing else. */
  function UnsignedDecimal(s: string): (r: Option<real>)
    ensures r.Some? ==> 0.0 <= r.value
  {
    var lead := DigitsEnd(s, 0);
    if lead == |s| then (if lead > 0 then Some(NatValue(s) as real) else None)
    else if s[lead] == '.' then
      var fracEnd := DigitsEnd(s, lead + 1);
      if fracEnd == |s| && (lead > 0 || fracEnd > lead + 1) then
        Some(NatValue(s[..lead]) as real + Fraction(s[lead + 1..]))
      else None
    else None
  }

  /**
   * `Number(k)` for a string of digits, dots and minus signs: 0 for the empty
   * string, a decimal literal with an optional leading minus, None (NaN) for
   * anything else.
   */
  function NumberOf(k: string): Option<real> {
    if k == [] then Some(0.0)
    else if k[0] == '-' then
      var u := UnsignedDecimal(k[1..]);
      if u.Some? then Some(-u.value) else None
    else UnsignedDecimal(k)
  }

  /** `toNumber(v)`: the number the kept characters spell, 0 when they spell none. */
  function ToNumber(v: string): (n: real)
    ensures NumberOf(KeepNumeric(v)).None? ==> n == 0.0
    ensures NumberOf(KeepNumeric(v)).Some? ==> n == NumberOf(KeepNumeric(v)).value
  {
    var k := KeepNumeric(v);
    var parsed := NumberOf(k);
    if parsed.Some? then parsed.value else 0.0
  }

  lemma {:induction false} KeepNumericAppend(a: string, b: string)
    ensures KeepNumeric(a + b) == KeepNumeric(a) + KeepNumeric(b)
  {
    if a == [] {
      assert a + b == b;
    } else {
      assert (a + b)[0] == a[0] && (a + b)[1..] == a[1..] + b;
      KeepNumericAppend(a[1..], b);
    }
  }

  lemma {:induction false} KeepNumericOfDigits(ds: string)
    requires AllDigits(ds)
    ensures KeepNumeric(ds) == ds
  {
    if ds != [] {
      KeepNumericOfDigits(ds[1..]);
    }
  }

  /** A digit string reads as its value. */
  lemma ToNumberOfDigits(ds: string)
    requires ds != [] && AllDigits(ds)
    ensures ToNumber(ds) == NatValue(ds) as real
  {
    KeepNumericOfDigits(ds);
    assert DigitsEnd(ds, 0) == |ds|;
    assert IsDigit(ds[0]);
  }

  /** Separators that are not digits, dots or minus signs are dropped, as in "1,200" or "$400". */
  lemma ToNumberOfGroupedDigits(a: string, sep: char, b: string)
    requires AllDigits(a) && AllDigits(b) && a + b != []
    requires !IsNumeric(sep)
    ensures ToNumber(a + [sep] + b) == NatValue(a + b) as real
  {
    assert KeepNumeric(a + [sep] + b) == a + b by {
      KeepNumericAppend(a + [sep], b);
      KeepNumericAppend(a, [sep]);
      KeepNumericOfDigits(a);
      KeepNumericOfDigits(b);
      assert KeepNumeric([sep]) == [];
    }
    assert AllDigits(a + b);
    ToNumberOfDigits(a + b);
    KeepNumericOfDigits(a + b);
  }

  /** A minus sign before digits gives the negative value. */
  lemma ToNumberNegative(ds: string)
    requires ds != [] && AllDigits(ds)
    ensures ToNumber("-" + ds) == -(NatValue(ds) as real)
  {
    var k := "-" + ds;
    assert KeepNumeric(k) == k by {
      KeepNumericAppend("-", ds);
      KeepNumericOfDigits(ds);
    }
    assert k[1..] == ds;
    assert DigitsEnd(ds, 0) == |ds|;
  }

  /** Text that spells no number reads as 0: a lone minus, a minus inside the digits, two dots. */
  lemma ToNumberMalformed()
    ensures ToNumber("") == 0.0
    ensures ToNumber("-") == 0.0
    ensures ToNumber("1-2") == 0.0
    ensures ToNumber("1.2.3") == 0.0
  {
    assert KeepNumeric("-") == "-";
    assert KeepNumeric("1-2") == "1-2";
    assert KeepNumeric("1.2.3") == "1.2.3";
    assert DigitsEnd("1-2", 0) == 1;
    assert DigitsEnd("1.2.3", 0) == 1;
    assert DigitsEnd("1.2.3", 2) == 3;
  }

  // ---------------------------------------------------------------- qualification

  /** `isQualified`: every enabled criterion meets its minimum. */
  function IsQualified(v: FormValues, c: Config): (q: bool)
    ensures q <==>
      && (c.employeesEnabled ==> ToNumber(v.employees) >= c.minEmployees)
      && (c.fundingEnabled ==> ToNumber(v.fundingUsd) >= c.minFundingUsd)
      && (c.revenueEnabled ==> ToNumber(v.revenueUsd) >= c.minRevenueUsd)
  {
    var employees := ToNumber(v.employees);
    var funding := ToNumber(v.fundingUsd);
    var revenue := ToNumber(v.revenueUsd);
    if c.employeesEnabled && employees < c.minEmployees then false
    else if c.fundingEnabled && funding < c.minFundingUsd then false
    else if c.revenueEnabled && revenue < c.minRevenueUsd then false
    else true
  }

  /** The head counts either side of the shipped minimum read as their values. */
  lemma HeadCountsRead()
    ensures ToNumber("400") == 400.0 && ToNumber("399") == 399.0
  {
    ToNumberOfDigits("400");
    assert NatValue("400") == 400 by {
      assert "400"[..2] == "40" && "40"[..1] == "4";
    }
    ToNumberOfDigits("399");
    assert NatValue("399") == 399 by {
      assert "399"[..2] == "39" && "39"[..1] == "3";
    }
  }

  /** With the shipped configuration the employee minimum is inclusive: 400 passes, 399 does not. */
  lemma DefaultEmployeesInclusive(v: FormValues)
    requires ToNumber(v.fundingUsd) >= Defaults.minFundingUsd && ToNumber(v.revenueUsd) >= Defaults.minRevenueUsd
    ensures IsQualified(v.(employees := "400"), Defaults)
    ensures !IsQualified(v.(employees := "399"), Defaults)
  {
    HeadCountsRead();
  }

  // ---------------------------------------------------------------- the redirect

  /**
   * The `domain` parameter as written, `values.domain || values.website`: a
   * domain of blanks is sent in place of the website, although `validate`
   * treated it as missing.
   */
  function DomainParamAsWritten(v: FormValues): (d: string)
    ensures !Blank(v.domain) ==> d == DomainParam(v)
    ensures v.domain == "" ==> d == DomainParam(v)
    ensures Blank(v.domain) && v.domain != "" ==> d == v.domain
  {
    if v.domain != "" then v.domain else v.website
  }

  /** A form with a blank domain and a website passes, and its blank domain is what gets sent. */
  lemma BlankDomainSent(v: FormValues)
    requires v.domain == " " && v.website == "acme.com"
    ensures !Flagged(v, Domain)
    ensures DomainParamAsWritten(v) == " " && Blank(DomainParamAsWritten(v))
  {
    assert !IsSpace("acme.com"[0]);
  }

  /**
   * The `domain` parameter as evidently intended, reading the two fields as
   * `validate` does: the domain unless it is blank, else the website.
   */
  function DomainParam(v: FormValues): (d: string)
    ensures !Blank(v.domain) ==> d == v.domain
    ensures Blank(v.domain) ==> d == v.website
  {
    if !Blank(v.domain) then v.domain else v.website
  }

  /** A form that passes validation always sends a non-blank domain. */
  lemma PassingFormSendsDomain(v: FormValues)
    requires Passes(v)
    ensures !Blank(DomainParam(v))
  {
  }

  /** Where the visitor is sent and the query it carries. */
  datatype Submission = Submission(dest: string, q: string, email: string, domain: string, employees: string)

  /** The redirect a passing form produces, with the `domain` parameter as written. */
  function SubmissionOf(v: FormValues, c: Config): (s: Submission)
    ensures s.q == (if IsQualified(v, c) then "1" else "0")
    ensures IsQualified(v, c) ==> s.dest == c.bookingUrl
    ensures !IsQualified(v, c) ==> s.dest == c.successUrl
    ensures s.email == v.workEmail && s.domain == DomainParamAsWritten(v) && s.employees == v.employees
  {
    var qualified := IsQualified(v, c);
    Submission(if qualified then c.bookingUrl else c.successUrl, if qualified then "1" else "0",
      v.workEmail, DomainParamAsWritten(v), v.employees)
  }

  /** The redirect as evidently intended: the same, but the domain read as `validate` reads it. */
  function SubmissionOfIntended(v: FormValues, c: Config): (s: Submission)
    ensures s == SubmissionOf(v, c).(domain := DomainParam(v))
    ensures Passes(v) ==> !Blank(s.domain)
  {
    SubmissionOf(v, c).(domain := DomainParam(v))
  }

  /**
   * A passing form sends the domain `validate` accepted exactly when its
   * domain field is empty or not blank: a domain of blanks beside a website
   * is the one case the shipped redirect gets wrong.
   */
  lemma SubmissionSendsValidatedDomain(v: FormValues, c: Config)
    requires Passes(v)
    ensures SubmissionOf(v, c).domain == SubmissionOfIntended(v, c).domain <==> v.domain == "" || !Blank(v.domain)
  {
  }

  /** With the shipped URLs, the visitor lands on the booking page exactly when qualified. */
  lemma BookingIffQualified(v: FormValues)
    ensures SubmissionOf(v, Defaults).dest == Defaults.bookingUrl <==> IsQualified(v, Defaults)
  {
    assert Defaults.bookingUrl[8] != Defaults.successUrl[8];
  }

  /**
   * `${dest}?${params.toString()}`; `encode` is the form encoding of one
   * parameter value.
   */
  function Href(s: Submission, encode: string -> string): string {
    s.dest + "?q=" + encode(s.q) + "&email=" + encode(s.email) + "&domain=" + encode(s.domain)
      + "&employees=" + encode(s.employees)
  }

  /** Where a passing form sends the visitor with the shipped configuration. */
  function Target(v: FormValues, encode: string -> string): string {
    Href(SubmissionOf(v, Defaults), encode)
  }

  /** The names of the form's text inputs. */
  const TextInputs: set<string> :=
    {"fullName", "workEmail", "company", "domain", "website", "employees", "revenueUSD", "fundingUSD", "useCase"}

  /**
   * The value an input event stores: a checkbox's state under `accept`, an
   * input's text under its own name; any other name changes nothing.
   */
  function WithInput(v: FormValues, name: string, value: string, isCheckbox: bool, checked: bool): (r: FormValues)
    ensures isCheckbox && name == "accept" ==> r == v.(accept := checked)
    ensures isCheckbox && name != "accept" ==> r == v
    ensures !isCheckbox && name == "fullName" ==> r == v.(fullName := value)
    ensures !isCheckbox && name == "workEmail" ==> r == v.(workEmail := value)
    ensures !isCheckbox && name == "company" ==> r == v.(company := value)
    ensures !isCheckbox && name == "domain" ==> r == v.(domain := value)
    ensures !isCheckbox && name == "website" ==> r == v.(website := value)
    ensures !isCheckbox && name == "employees" ==> r == v.(employees := value)
    ensures !isCheckbox && name == "revenueUSD" ==> r == v.(revenueUsd := value)
    ensures !isCheckbox && name == "fundingUSD" ==> r == v.(fundingUsd := value)
    ensures !isCheckbox && name == "useCase" ==> r == v.(useCase := value)
    ensures !isCheckbox && name !in TextInputs ==> r == v
    ensures !(isCheckbox && name == "accept") ==> r.accept == v.accept
  {
    if isCheckbox then (if name == "accept" then v.(accept := checked) else v)
    else if name == "fullName" then v.(fullName := value)
    else if name == "workEmail" then v.(workEmail := value)
    else if name == "company" then v.(company := value)
    else if name == "domain" then v.(domain := value)
    else if name == "website" then v.(website := value)
    else if name == "employees" then v.(employees := value)
    else if name == "revenueUSD" then v.(revenueUsd := value)
    else if name == "fundingUSD" then v.(fundingUsd := value)
    else if name == "useCase" then v.(useCase := value)
    else v
  }

  /** The form's state: its values, the errors on show, the submitting flag and where the window was sent. */
  class QualifyForm {
    var values: FormValues
    var errors: map<Field, string>
    var submitting: bool
    var location: Option<string>

    constructor ()
      ensures values == Initial && errors == map[] && !submitting && location.None?
    {
      values := Initial;
      errors := map[];
      submitting := false;
      location := None;
    }

    /** `onChange`. */
    method OnChange(name: string, value: string, isCheckbox: bool, checked: bool)
      modifies this
      ensures values == WithInput(old(values), name, value, isCheckbox, checked)
      ensures errors == old(errors) && submitting == old(submitting) && location == old(location)
    {
      values := WithInput(values, name, value, isCheckbox, checked);
    }

    /** `validate`: records the errors and tells whether there are none. */
    method Validate() returns (ok: bool)
      modifies this
      ensures values == old(values) && submitting == old(submitting) && location == old(location)
      ensures errors == ErrorsOf(values)
      ensures ok <==> errors == map[]
    {
      var next := ErrorsOf(values);
      errors := next;
      ok := next == map[];
    }

    /** `onSubmit` with the shipped configuration: a failing form stays put; a passing one is sent on. */
    method OnSubmit(encode: string -> string)
      modifies this
      ensures values == old(values) && errors == ErrorsOf(values)
      ensures errors != map[] ==> location == old(location) && submitting == old(submitting)
      ensures errors == map[] ==> location == Some(Target(values, encode)) && !submitting
    {
      var ok := Validate();
      if !ok {
        return;
      }
      submitting := true;
      location := Some(Target(values, encode));
      submitting := false;
    }
  }
}

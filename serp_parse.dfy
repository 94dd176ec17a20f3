/**
 * The text recognisers of the search-result evaluator: the money grammar,
 * the currency gate and unit scaling, the year token and the revenue
 * keyword gate. Each regular expression is written out as a recogniser
 * that follows the engine's leftmost, greedy, first-alternative-wins order.
 */
module SerpParse {
  import opened Wrappers
  import opened Text

  /** The scale word after a figure. */
  datatype Unit = NoUnit | Million | Billion

  /** `ParsedMoney`: the figure, its currency label upper-cased, its scale. */
  datatype ParsedMoney = ParsedMoney(value: real, currency: Option<string>, unit: Unit)

  /** Which reading of the number part of the money grammar is used. */
  datatype Reading = AsWritten | Intended

  /** One match of the money grammar: the captured groups. */
  datatype MoneyMatch = MoneyMatch(cur1: Option<string>, numRaw: string, unit: Option<string>, cur2: Option<string>)

  /** The alternatives of the currency prefix, the unit and the currency suffix, lower case, in the order the engine tries them. */
  const PrefixCurrencies: seq<string> := ["usd", "us$", "$", "gbp", "\U{00A3}", "eur", "\U{20AC}"]
  const Units: seq<string> := ["billion", "bn", "b", "million", "m"]
  const SuffixCurrencies: seq<string> := ["usd", "us$", "gbp", "eur"]

  /** The first alternative of `alts` that occurs at `p`, ignoring case. */
  function FirstAlt(s: string, p: nat, alts: seq<string>): (r: Option<string>)
    ensures r.Some? ==> r.value in alts && StartsAtIgnoringCase(s, p, r.value)
    ensures r.None? <==> forall a :: a in alts ==> !StartsAtIgnoringCase(s, p, a)
  {
    if alts == [] then None
    else if StartsAtIgnoringCase(s, p, alts[0]) then Some(alts[0])
    else FirstAlt(s, p, alts[1..])
  }

  /** Just past `\d{1,3}` at `q`: the greedy quantifier takes up to three digits. */
  function LeadEnd(s: string, q: nat): (e: nat)
    requires q < |s| && IsDigit(s[q])
    ensures q < e <= q + 3 && e <= |s|
    ensures forall k :: q <= k < e ==> IsDigit(s[k])
  {
    var d := DigitsEnd(s, q);
    assert forall k :: q <= k < d ==> IsDigit(s[k]) by {
      forall k | q <= k < d ensures IsDigit(s[k]) { assert s[q..d][k - q] == s[k]; }
    }
    if d - q > 3 then q + 3 else d
  }

  predicate IsSep(c: char) { c == ',' || IsSpace(c) }

  /** Just past `(?:[,\s]\d{3})*` at `i`: as many separator-and-three-digit groups as follow. */
  function GroupsEnd(s: string, i: nat): (j: nat)
    requires i <= |s|
    ensures i <= j <= |s|
    decreases |s| - i
  {
    if i + 4 <= |s| && IsSep(s[i]) && IsDigit(s[i + 1]) && IsDigit(s[i + 2]) && IsDigit(s[i + 3])
    then GroupsEnd(s, i + 4)
    else i
  }

  /** Just past `(?:\.\d+)?` at `i`. */
  function FractionEnd(s: string, i: nat): (j: nat)
    requires i <= |s|
    ensures i <= j <= |s|
  {
    if i + 1 < |s| && s[i] == '.' && IsDigit(s[i + 1]) then DigitsEnd(s, i + 1) else i
  }

  /**
   * Just past the number that starts at the digit `q`. As written, the first
   * alternative `\d{1,3}(?:[,\s]\d{3})*(?:\.\d+)?` matches whenever a digit is
   * there, so the second, `\d+(?:\.\d+)?`, is never reached. The intended
   * reading takes whichever of the two is longer.
   */
  function NumberEnd(s: string, q: nat, reading: Reading): (e: nat)
    requires q < |s| && IsDigit(s[q])
    ensures q < e <= |s|
  {
    var grouped := FractionEnd(s, GroupsEnd(s, LeadEnd(s, q)));
    var plain := FractionEnd(s, DigitsEnd(s, q));
    if reading == Intended && plain > grouped then plain else grouped
  }

  /** `(?:\s*(alt))?` at `i`: the matched text and the index past it, else nothing and `i`. */
  function OptionalWord(s: string, i: nat, alts: seq<string>): (r: (Option<string>, nat))
    requires i <= |s|
    ensures i <= r.1 <= |s|
    ensures r.0.None? ==> r.1 == i
  {
    var k := SpacesEnd(s, i);
    var a := FirstAlt(s, k, alts);
    if a.Some? then (Some(s[k..k + |a.value|]), k + |a.value|) else (None, i)
  }

  /** The captured groups when the number starts at the digit `q` and the prefix `pre` (if any) at `p`. */
  function MatchFrom(s: string, p: nat, pre: Option<string>, q: nat, reading: Reading): MoneyMatch
    requires q < |s| && IsDigit(s[q])
    requires pre.Some? ==> p + |pre.value| <= q
  {
    var e := NumberEnd(s, q, reading);
    var unit := OptionalWord(s, e, Units);
    var cur2 := OptionalWord(s, unit.1, SuffixCurrencies);
    MoneyMatch(if pre.Some? then Some(s[p..p + |pre.value|]) else None, s[q..e], unit.0, cur2.0)
  }

  /** The match of the money grammar that starts at `p`, if any. */
  function MatchAt(s: string, p: nat, reading: Reading): (m: Option<MoneyMatch>)
    requires p <= |s|
  {
    var pre := FirstAlt(s, p, PrefixCurrencies);
    var q := if pre.Some? then SpacesEnd(s, p + |pre.value|) else p;
    if q < |s| && IsDigit(s[q]) then Some(MatchFrom(s, p, pre, q, reading)) else None
  }

  /** `s.match(MONEY_RE)`: the leftmost match at or after `p`. */
  function FirstMatch(s: string, p: nat, reading: Reading): (r: Option<MoneyMatch>)
    requires p <= |s|
    decreases |s| - p
  {
    var m := MatchAt(s, p, reading);
    if m.Some? || p == |s| then m else FirstMatch(s, p + 1, reading)
  }

  /** `raw.replace(/[, ]/g, "")`. */
  function StripCommasAndSpaces(s: string): (r: string)
    ensures ',' !in r && ' ' !in r
  {
    if s == [] then []
    else (if s[0] == ',' || s[0] == ' ' then [] else [s[0]]) + StripCommasAndSpaces(s[1..])
  }

  /** Stripping works character by character: a concatenation strips to the concatenation of the stripped parts. */
  lemma {:induction false} StripCommasAndSpacesAppend(a: string, b: string)
    ensures StripCommasAndSpaces(a + b) == StripCommasAndSpaces(a) + StripCommasAndSpaces(b)
  {
    if a == [] {
      assert a + b == b;
    } else {
      assert (a + b)[0] == a[0] && (a + b)[1..] == a[1..] + b;
      StripCommasAndSpacesAppend(a[1..], b);
    }
  }

  /** Every character other than a comma or a space is kept: a string without them strips to itself. */
  lemma {:induction false} StripCommasAndSpacesKeeps(s: string)
    requires ',' !in s && ' ' !in s
    ensures StripCommasAndSpaces(s) == s
  {
    if s != [] {
      assert s[0] in s;
      assert forall c :: c in s[1..] ==> c in s;
      StripCommasAndSpacesKeeps(s[1..]);
    }
  }

  /** `Number(raw)` for a decimal literal; None (NaN) for anything else, such as a tab or a non-breaking space left inside. */
  function DecimalNumber(raw: string): Option<real> {
    if raw == [] then Some(0.0)
    else
      var dot := FindFrom(raw, ".", 0);
      if dot.None? then
        if AllDigits(raw) then Some(NatValue(raw) as real) else None
      else
        var whole := raw[..dot.value];
        var frac := raw[dot.value + 1..];
        if AllDigits(whole) && AllDigits(frac) && (whole != [] || frac != [])
        then Some(NatValue(whole) as real + NatValue(frac) as real / Pow10(|frac|) as real)
        else None
  }

  /** `/^(billion|bn|b)$/i` and `/^(million|m)$/i` on the unit text. */
  function UnitOf(unitRaw: Option<string>): Unit {
    if unitRaw.None? then NoUnit
    else if ToLower(unitRaw.value) in ["billion", "bn", "b"] then Billion
    else if ToLower(unitRaw.value) in ["million", "m"] then Million
    else NoUnit
  }

  /** `parseMoney(s)` under the given reading of the number part. */
  function ParseMoneyWith(s: string, reading: Reading): Option<ParsedMoney> {
    match FirstMatch(s, 0, reading)
    case None => None
    case Some(m) =>
      var currency :=
        if m.cur1.Some? then Some(ToUpper(m.cur1.value))
        else if m.cur2.Some? then Some(ToUpper(m.cur2.value))
        else None;
      var n := DecimalNumber(StripCommasAndSpaces(m.numRaw));
      if n.None? then None else Some(ParsedMoney(n.value, currency, UnitOf(m.unit)))
  }

  /** `parseMoney(s)` as the source is written. */
  function ParseMoney(s: string): Option<ParsedMoney> {
    ParseMoneyWith(s, AsWritten)
  }

  /** `parseMoney(s)` with the number read as its authors intended: the corrected parser the evaluator uses. */
  function ParseMoneyIntended(s: string): Option<ParsedMoney> {
    ParseMoneyWith(s, Intended)
  }

  function Scale(u: Unit): real {
    match u
    case NoUnit => 1.0
    case Million => 1000000.0
    case Billion => 1000000000.0
  }

  /** `toUSDLikeNumber(pm)`: only unlabelled or dollar figures pass, scaled by their unit. */
  function ToUsd(pm: ParsedMoney): (r: Option<real>)
    ensures r.Some? <==> pm.currency.None? || pm.currency.value in ["", "$", "US$", "USD"]
    ensures r.Some? && pm.unit == NoUnit ==> r.value == pm.value
    ensures r.Some? && pm.unit == Million ==> r.value == pm.value * 1000000.0
    ensures r.Some? && pm.unit == Billion ==> r.value == pm.value * 1000000000.0
  {
    var isUsd := pm.currency.None? || pm.currency.value == "" || pm.currency.value == "$"
      || pm.currency.value == "US$" || pm.currency.value == "USD";
    if !isUsd then None else Some(pm.value * Scale(pm.unit))
  }

  // ---------------------------------------------------------------- properties of the money grammar

  /** A digit is not the first character of any currency or unit word. */
  lemma {:induction false} NoWordAtDigit(s: string, p: nat, alts: seq<string>)
    requires p < |s| && IsDigit(s[p])
    requires forall a :: a in alts ==> a != [] && !IsDigit(a[0])
    ensures FirstAlt(s, p, alts).None?
  {
    forall a | a in alts ensures !StartsAtIgnoringCase(s, p, a) {
    }
  }

  /** No word fits at the end of the text. */
  lemma NoWordAtEnd(s: string, alts: seq<string>)
    requires forall a :: a in alts ==> a != []
    ensures FirstAlt(s, |s|, alts).None?
  {
  }

  /** A digit string holds no dot, comma or space. */
  lemma {:induction false} DigitStringPlain(ds: string)
    requires AllDigits(ds)
    ensures StripCommasAndSpaces(ds) == ds
    ensures FindFrom(ds, ".", 0).None?
  {
    if ds != [] {
      DigitStringPlain(ds[1..]);
      assert [ds[0]] + ds[1..] == ds;
    }
    forall k | 0 <= k <= |ds| ensures !StartsAt(ds, k, ".") {
    }
  }

  /** The whole text is read as the number when it is a run of digits and the number part reaches its end. */
  lemma MatchOfDigitString(ds: string, reading: Reading)
    requires AllDigits(ds) && ds != []
    requires reading == Intended || |ds| <= 3
    ensures FirstMatch(ds, 0, reading) == Some(MoneyMatch(None, ds, None, None))
  {
    NoWordAtDigit(ds, 0, PrefixCurrencies);
    assert DigitsEnd(ds, 0) == |ds| by { DigitsRunToEnd(ds, 0); }
    assert NumberEnd(ds, 0, reading) == |ds|;
    NoWordAtEnd(ds, Units);
    NoWordAtEnd(ds, SuffixCurrencies);
    assert ds[0..|ds|] == ds;
  }

  lemma {:induction false} DigitsRunToEnd(s: string, i: nat)
    requires i <= |s| && forall k :: i <= k < |s| ==> IsDigit(s[k])
    ensures DigitsEnd(s, i) == |s|
    decreases |s| - i
  {
    if i < |s| { DigitsRunToEnd(s, i + 1); }
  }

  /** Up to three digits read back as their value, unlabelled and unscaled. */
  lemma ParseMoneySmallNumeral(n: nat)
    requires n < 1000
    ensures ParseMoney(NatToString(n)) == Some(ParsedMoney(n as real, None, NoUnit))
  {
    var ds := NatToString(n);
    assert |ds| <= 3 by { NatToStringShort(n); }
    MatchOfDigitString(ds, AsWritten);
    DigitStringPlain(ds);
    NatToStringRoundTrip(n);
  }

  lemma {:induction false} NatToStringShort(n: nat)
    requires n < 1000
    ensures |NatToString(n)| <= 3
  {
    if n >= 10 { NatToStringShort(n / 10); }
  }

  /**
   * As written, a run of more than three digits with nothing after it is cut
   * to its first three: "2500000" reads as 250, not 2,500,000.
   */
  lemma ParseMoneyTruncates(ds: string)
    requires AllDigits(ds) && |ds| > 3
    ensures ParseMoney(ds) == Some(ParsedMoney(NatValue(ds[..3]) as real, None, NoUnit))
  {
    MatchOfLongDigitString(ds);
    DigitStringPlain(ds[..3]);
  }

  /** As written, the match of a long run of digits captures its first three only. */
  lemma MatchOfLongDigitString(ds: string)
    requires AllDigits(ds) && |ds| > 3
    ensures FirstMatch(ds, 0, AsWritten) == Some(MoneyMatch(None, ds[..3], None, None))
  {
    MatchAtOfLongRun(ds);
  }
  lemma {:induction false} MatchAtOfLongRun(ds: string)
    requires AllDigits(ds) && |ds| > 3
    ensures MatchAt(ds, 0, AsWritten) == Some(MoneyMatch(None, ds[..3], None, None))
  {
    assert FirstAlt(ds, 0, PrefixCurrencies).None? by { NoWordAtDigit(ds, 0, PrefixCurrencies); }
    MatchFromOfLongRun(ds);
  }
  lemma MatchFromOfLongRun(ds: string)
    requires AllDigits(ds) && |ds| > 3
    ensures MatchFrom(ds, 0, None, 0, AsWritten) == MoneyMatch(None, ds[..3], None, None)
  {
    assert NumberEnd(ds, 0, AsWritten) == 3 by { NumberEndOfLongRun(ds); }
    assert OptionalWord(ds, 3, Units) == (None, 3) by { NoWordAfterNumber(ds, 3, Units); }
    assert OptionalWord(ds, 3, SuffixCurrencies) == (None, 3) by { NoWordAfterNumber(ds, 3, SuffixCurrencies); }
    assert ds[0..3] == ds[..3];
  }

  lemma NumberEndOfLongRun(ds: string)
    requires AllDigits(ds) && |ds| > 3
    ensures NumberEnd(ds, 0, AsWritten) == 3
  {
    DigitsRunToEnd(ds, 0);
    assert LeadEnd(ds, 0) == 3;
    assert GroupsEnd(ds, 3) == 3 by { assert !IsSep(ds[3]); }
    assert FractionEnd(ds, 3) == 3 by { assert ds[3] != '.'; }
  }

  /** No unit or currency word is read where a digit follows the number. */
  lemma NoWordAfterNumber(s: string, i: nat, alts: seq<string>)
    requires i < |s| && IsDigit(s[i])
    requires forall a :: a in alts ==> a != [] && !IsDigit(a[0])
    ensures OptionalWord(s, i, alts) == (None, i)
  {
    assert SpacesEnd(s, i) == i;
    NoWordAtDigit(s, i, alts);
  }

  /** Hence, as written, every figure of four or more digits without separators reads as less than it is. */
  lemma ParseMoneyLosesDigits(n: nat)
    requires n >= 1000
    ensures ParseMoney(NatToString(n)).Some?
    ensures ParseMoney(NatToString(n)).value.value < n as real
  {
    var ds := NatToString(n);
    NatToStringLong(n);
    ParseMoneyTruncates(ds);
    assert NatValue(ds[..3]) < 1000 by { NatValueBound(ds[..3]); }
    assert NatValue(ds) == n by { NatToStringRoundTrip(n); }
  }

  lemma {:induction false} NatToStringLong(n: nat)
    requires n >= 1000
    ensures |NatToString(n)| > 3
  {
    assert NatToString(n) == NatToString(n / 10) + [DigitChar(n % 10)];
    assert NatToString(n / 10) == NatToString(n / 100) + [DigitChar(n / 10 % 10)];
    assert NatToString(n / 100) == NatToString(n / 1000) + [DigitChar(n / 100 % 10)];
  }

  lemma {:induction false} NatValueBound(t: string)
    requires AllDigits(t)
    ensures NatValue(t) < Pow10(|t|)
  {
    if t != [] { NatValueBound(t[..|t| - 1]); }
  }

  /** Read as intended, every numeral gives back its value. */
  lemma ParseMoneyIntendedRoundTrip(n: nat)
    ensures ParseMoneyIntended(NatToString(n)) == Some(ParsedMoney(n as real, None, NoUnit))
  {
    var ds := NatToString(n);
    MatchOfDigitString(ds, Intended);
    DigitStringPlain(ds);
    NatToStringRoundTrip(n);
  }

  /** A unit word after the number scales it: `m`/`million` by a million, `b`/`bn`/`billion` by a billion, in either case. */
  lemma UnitScales(u: string)
    requires ToLower(u) in Units
    ensures UnitOf(Some(u)) == (if ToLower(u) in ["million", "m"] then Million else Billion)
  {
  }

  // ---------------------------------------------------------------- the year token

  /** `\b` at index `i`: a word character on exactly one side. */
  predicate Boundary(s: string, i: int)
    requires 0 <= i <= |s|
  {
    (i > 0 && IsWordChar(s[i - 1])) != (i < |s| && IsWordChar(s[i]))
  }

  /** `\b(20\d{2}|19\d{2})\b` matches at `p`. */
  predicate YearAt(s: string, p: nat) {
    p + 4 <= |s| && Boundary(s, p)
    && ((s[p] == '2' && s[p + 1] == '0') || (s[p] == '1' && s[p + 1] == '9'))
    && IsDigit(s[p + 2]) && IsDigit(s[p + 3])
    && Boundary(s, p + 4)
  }

  /** The first index at or after `p` where a year token stands. */
  function FirstYearAt(s: string, p: nat): (r: Option<nat>)
    ensures r.Some? ==> p <= r.value && YearAt(s, r.value)
    ensures r.Some? ==> forall k :: p <= k < r.value ==> !YearAt(s, k)
    ensures r.None? ==> forall k :: p <= k ==> !YearAt(s, k)
    decreases |s| - p
  {
    if p + 4 > |s| then None
    else if YearAt(s, p) then Some(p)
    else FirstYearAt(s, p + 1)
  }

  /** `extractYear(text)`: the first standalone 19xx or 20xx token. */
  function ExtractYear(s: string): (r: Option<nat>)
    ensures r.Some? ==> 1900 <= r.value <= 2099
    ensures r.None? <==> forall p :: !YearAt(s, p)
  {
    var p := FirstYearAt(s, 0);
    if p.None? then None
    else
      var t := s[p.value..p.value + 4];
      NatValueFour(t);
      Some(NatValue(t))
  }

  /** The value of four digits, place by place. */
  lemma NatValueFour(t: string)
    requires |t| == 4 && AllDigits(t)
    ensures NatValue(t) == DigitValue(t[0]) * 1000 + DigitValue(t[1]) * 100 + DigitValue(t[2]) * 10 + DigitValue(t[3])
  {
    assert t[..3][..2] == t[..2];
    assert t[..2][..1] == t[..1];
    assert t[..1][..0] == [];
    assert NatValue(t[..1]) == DigitValue(t[0]);
    assert NatValue(t[..2]) == DigitValue(t[0]) * 10 + DigitValue(t[1]);
    assert NatValue(t[..3]) == NatValue(t[..2]) * 10 + DigitValue(t[2]);
  }

  /** A year written into text with no digits before it and no word character right after it is the one found. */
  lemma ExtractYearOf(pre: string, y: nat, post: string)
    requires 1900 <= y <= 2099
    requires forall i :: 0 <= i < |pre| ==> !IsWordChar(pre[i])
    requires post == [] || !IsWordChar(post[0])
    ensures ExtractYear(pre + NatToString(y) + post) == Some(y)
  {
    var ys := NatToString(y);
    var s := pre + ys + post;
    assert |ys| == 4 by { NatToStringFour(y); }
    assert s[|pre|..|pre| + 4] == ys;
    NatToStringRoundTrip(y);
    YearDigits(y);
    assert YearAt(s, |pre|);
    forall k | 0 <= k < |pre| ensures !YearAt(s, k) {
      assert s[k] == pre[k];
    }
  }

  lemma NatToStringFour(y: nat)
    requires 1000 <= y <= 9999
    ensures |NatToString(y)| == 4
  {
    assert NatToString(y) == NatToString(y / 10) + [DigitChar(y % 10)];
    assert NatToString(y / 10) == NatToString(y / 100) + [DigitChar(y / 10 % 10)];
    assert NatToString(y / 100) == NatToString(y / 1000) + [DigitChar(y / 100 % 10)];
    assert |NatToString(y / 1000)| == 1;
  }

  lemma {:induction false} YearDigits(y: nat)
    requires 1900 <= y <= 2099
    ensures var t := NatToString(y);
      |t| == 4 && ((t[0] == '2' && t[1] == '0') || (t[0] == '1' && t[1] == '9'))
  {
    NatToStringFour(y);
    var t := NatToString(y);
    assert t == NatToString(y / 10) + [DigitChar(y % 10)];
    assert NatToString(y / 10) == NatToString(y / 100) + [DigitChar(y / 10 % 10)];
    assert NatToString(y / 100) == [DigitChar(y / 1000)] + [DigitChar(y / 100 % 10)];
  }

  // ---------------------------------------------------------------- the revenue keyword gate

  /** The lower-case word `w` stands at `p` on its own: word boundaries on both sides. */
  predicate StandaloneWord(s: string, p: nat, w: string) {
    p + |w| <= |s| && Boundary(s, p) && StartsAtIgnoringCase(s, p, w) && Boundary(s, p + |w|)
  }

  /** The end of `annual\s+revenue` at `p`, if it matches there. */
  function AnnualRevenueEnd(s: string, p: nat): Option<nat> {
    if !StartsAtIgnoringCase(s, p, "annual") then None
    else
      var q := SpacesEnd(s, p + 6);
      if q > p + 6 && StartsAtIgnoringCase(s, q, "revenue") then Some(q + 7) else None
  }

  /** The end of `fy\d{2,4}\s+revenue` at `p`: the digits must be a run of two to four, as no shorter take lets a space follow. */
  function FyRevenueEnd(s: string, p: nat): Option<nat> {
    if !StartsAtIgnoringCase(s, p, "fy") then None
    else
      var d := DigitsEnd(s, p + 2);
      var q := SpacesEnd(s, d);
      if 2 <= d - (p + 2) <= 4 && q > d && StartsAtIgnoringCase(s, q, "revenue") then Some(q + 7) else None
  }

  /** The end of `fiscal\s+year\s+\d{4}\s+revenue` at `p`. */
  function FiscalYearRevenueEnd(s: string, p: nat): Option<nat> {
    if !StartsAtIgnoringCase(s, p, "fiscal") then None
    else
      var a := SpacesEnd(s, p + 6);
      if a == p + 6 || !StartsAtIgnoringCase(s, a, "year") then None
      else
        var b := SpacesEnd(s, a + 4);
        var d := DigitsEnd(s, b);
        var q := SpacesEnd(s, d);
        if b > a + 4 && d - b == 4 && q > d && StartsAtIgnoringCase(s, q, "revenue") then Some(q + 7) else None
  }

  /** An alternative that ended at `e` is followed by a word boundary. */
  predicate ClosedAt(s: string, e: Option<nat>) {
    e.Some? && e.value <= |s| && Boundary(s, e.value)
  }

  /** Some alternative of the keyword group matches at `p` between word boundaries. */
  predicate RevenueAt(s: string, p: nat) {
    p <= |s| && Boundary(s, p) &&
    (|| StandaloneWord(s, p, "revenue")
     || StandaloneWord(s, p, "arr")
     || ClosedAt(s, AnnualRevenueEnd(s, p))
     || ClosedAt(s, FyRevenueEnd(s, p))
     || ClosedAt(s, FiscalYearRevenueEnd(s, p)))
  }

  /** `textImpliesRevenue(text)`. */
  predicate TextImpliesRevenue(s: string) {
    exists p: nat | p <= |s| :: RevenueAt(s, p)
  }

  /** "revenue" or "arr" stands at `p` as a word of its own. */
  predicate KeywordAt(s: string, p: nat) {
    StandaloneWord(s, p, "revenue") || StandaloneWord(s, p, "arr")
  }

  /** A character that lower-cases to a letter is a word character. */
  lemma LetterIsWordChar(c: char)
    requires 'a' <= LowerChar(c) <= 'z'
    ensures IsWordChar(c)
  {
  }

  /** Where "revenue" closes one of the longer alternatives, it stands there as a word of its own. */
  lemma RevenueClosesAsWord(s: string, q: nat)
    requires 0 < q && q + 7 <= |s| && IsSpace(s[q - 1])
    requires StartsAtIgnoringCase(s, q, "revenue") && Boundary(s, q + 7)
    ensures KeywordAt(s, q)
  {
    assert ToLower(s[q..q + 7])[0] == LowerChar(s[q]);
    LetterIsWordChar(s[q]);
  }

  lemma AnnualGivesKeyword(s: string, p: nat)
    requires ClosedAt(s, AnnualRevenueEnd(s, p))
    ensures KeywordAt(s, AnnualRevenueEnd(s, p).value - 7)
  {
    RevenueClosesAsWord(s, AnnualRevenueEnd(s, p).value - 7);
  }

  lemma FyGivesKeyword(s: string, p: nat)
    requires ClosedAt(s, FyRevenueEnd(s, p))
    ensures KeywordAt(s, FyRevenueEnd(s, p).value - 7)
  {
    RevenueClosesAsWord(s, FyRevenueEnd(s, p).value - 7);
  }

  lemma FiscalGivesKeyword(s: string, p: nat)
    requires ClosedAt(s, FiscalYearRevenueEnd(s, p))
    ensures KeywordAt(s, FiscalYearRevenueEnd(s, p).value - 7)
  {
    RevenueClosesAsWord(s, FiscalYearRevenueEnd(s, p).value - 7);
  }

  lemma RevenueAtCases(s: string, p: nat)
    requires RevenueAt(s, p)
    ensures KeywordAt(s, p) || ClosedAt(s, AnnualRevenueEnd(s, p)) || ClosedAt(s, FyRevenueEnd(s, p))
      || ClosedAt(s, FiscalYearRevenueEnd(s, p))
  {
  }

  /**
   * The three longer alternatives add nothing: the gate passes exactly when
   * "revenue" or "arr" stands somewhere as a word of its own, in any case.
   */
  lemma TextImpliesRevenueIff(s: string)
    ensures TextImpliesRevenue(s) <==> exists p: nat :: KeywordAt(s, p)
  {
    if TextImpliesRevenue(s) {
      var p: nat :| RevenueAt(s, p);
      RevenueAtCases(s, p);
      if KeywordAt(s, p) {
      } else if ClosedAt(s, AnnualRevenueEnd(s, p)) {
        AnnualGivesKeyword(s, p);
      } else if ClosedAt(s, FyRevenueEnd(s, p)) {
        FyGivesKeyword(s, p);
      } else {
        FiscalGivesKeyword(s, p);
      }
    }
    if exists p: nat :: KeywordAt(s, p) {
      var p: nat :| KeywordAt(s, p);
      assert RevenueAt(s, p);
    }
  }

  /** The knowledge-graph gate tests "revenue " before the figure, so it always passes. */
  lemma KnowledgeGraphGatePasses(rev: string)
    ensures TextImpliesRevenue("revenue " + rev)
  {
    var s := "revenue " + rev;
    assert s[0..7] == "revenue";
    assert StandaloneWord(s, 0, "revenue");
    assert RevenueAt(s, 0);
  }
}

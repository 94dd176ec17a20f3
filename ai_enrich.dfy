/**
 * The `/api/ai-enrich` route: the search results it formats, the source URLs
 * it reads back out of them, the SUMMARY / PRIORITY / REASONING sections it
 * reads out of the model's answer, and the fallback used when the model call
 * fails.
 */
module AiEnrich {
  import opened Wrappers
  import opened Text
  import opened Json
  import opened Http

  // ---------------------------------------------------------------- search results

  /** `${item.title}: ${item.snippet || item.description || ""} (${item.link})`. */
  function FormatItem(item: Json, render: Json -> string): string {
    JsString(Get(item, "title"), render) + ": "
    + JsString(Or(Or(Get(item, "snippet"), Get(item, "description")), Some(JStr(""))), render)
    + " (" + JsString(Get(item, "link"), render) + ")"
  }

  /**
   * What `for (const item of v)` walks: the elements of an array, the
   * characters of a string; None when `v` is not iterable and the loop throws.
   */
  function Iterated(v: Json): (items: Option<seq<Json>>)
    ensures v.JArr? ==> items == Some(v.items)
    ensures v.JStr? ==> items.Some? && |items.value| == |v.s|
    ensures !(v.JArr? || v.JStr?) ==> items.None?
  {
    match v
    case JArr(items) => Some(items)
    case JStr(s) => Some(seq(|s|, i requires 0 <= i < |s| => JStr([s[i]])))
    case _ => None
  }

  /** One formatted line per item; none at all when an item is null, because reading its title throws. */
  function ItemResults(items: seq<Json>, render: Json -> string): (r: seq<string>)
    ensures (exists i :: 0 <= i < |items| && items[i].JNull?) ==> r == []
    ensures (forall i :: 0 <= i < |items| ==> !items[i].JNull?) ==>
      |r| == |items| && forall i :: 0 <= i < |items| ==> r[i] == FormatItem(items[i], render)
  {
    if exists i :: 0 <= i < |items| && items[i].JNull? then []
    else seq(|items|, i requires 0 <= i < |items| => FormatItem(items[i], render))
  }

  /**
   * `searchGoogle`: Failure (a throw) when the key is missing; every failure
   * after that (network, status, JSON, a throw in the loop) is caught and
   * gives no results.
   */
  function SearchResults(apiKey: string, f: Fetched, render: Json -> string): (r: Result<seq<string>>)
    ensures apiKey == "" <==> r.Failure?
    ensures apiKey != "" && (f.Threw? || !f.reply.Ok()) ==> r == Success([])
  {
    if apiKey == "" then Failure("SerpAPI key not configured")
    else if f.Threw? || !f.reply.Ok() || f.reply.parsed.None? || f.reply.parsed.value.JNull? then Success([])
    else
      var org := Get(f.reply.parsed.value, "organic_results");
      if !TruthyOpt(org) then Success([])
      else
        var items := Iterated(org.value);
        if items.None? then Success([]) else Success(ItemResults(items.value, render))
  }

  /** `searchGoogle`, pushing one formatted line per organic result. */
  method SearchGoogle(apiKey: string, f: Fetched, render: Json -> string) returns (r: Result<seq<string>>)
    ensures r == SearchResults(apiKey, f, render)
  {
    if apiKey == "" {
      return Failure("SerpAPI key not configured");
    }
    if f.Threw? || !f.reply.Ok() || f.reply.parsed.None? || f.reply.parsed.value.JNull? {
      return Success([]);
    }
    var org := Get(f.reply.parsed.value, "organic_results");
    if !TruthyOpt(org) {
      return Success([]);
    }
    var items := Iterated(org.value);
    if items.None? {
      return Success([]);
    }
    var results := FormatItems(items.value, render);
    return Success(results);
  }

  /** The loop of `searchGoogle` over the organic results; a null result throws, and the catch gives no results. */
  method FormatItems(all: seq<Json>, render: Json -> string) returns (results: seq<string>)
    ensures results == ItemResults(all, render)
  {
    results := [];
    var i := 0;
    while i < |all|
      invariant i <= |all|
      invariant forall k :: 0 <= k < i ==> !all[k].JNull?
      invariant |results| == i
      invariant forall k :: 0 <= k < i ==> results[k] == FormatItem(all[k], render)
    {
      if all[i].JNull? {
        return [];
      }
      results := results + [FormatItem(all[i], render)];
      i := i + 1;
    }
  }

  // ---------------------------------------------------------------- source URLs

  /** `/\((https?:\/\/[^)]+)\)$/` matches at `i`: an http(s) URL in parentheses that close the text. */
  predicate SourceAt(r: string, i: nat) {
    i + 1 < |r| && r[i] == '(' && r[|r| - 1] == ')'
    && ((StartsAt(r, i + 1, "https://") && i + 9 < |r| - 1) || (StartsAt(r, i + 1, "http://") && i + 8 < |r| - 1))
    && ')' !in r[i + 1..|r| - 1]
  }

  function FirstSource(r: string, i: nat): (k: Option<nat>)
    ensures k.Some? ==> i <= k.value && SourceAt(r, k.value)
    ensures k.Some? ==> forall j :: i <= j < k.value ==> !SourceAt(r, j)
    ensures k.None? ==> forall j :: i <= j ==> !SourceAt(r, j)
    decreases |r| - i
  {
    if i >= |r| then None
    else if SourceAt(r, i) then Some(i)
    else FirstSource(r, i + 1)
  }

  /** The URL of the leftmost match, None when the result has no trailing URL. */
  function SourceOf(r: string): (u: Option<string>)
    ensures u.Some? ==> u.value != "" && ')' !in u.value
  {
    var k := FirstSource(r, 0);
    if k.None? then None else Some(r[k.value + 1..|r| - 1])
  }

  /** The `sources` of the response: the URL of each result that has one, in order. */
  function Sources(results: seq<string>): (s: seq<string>)
    ensures |s| <= |results|
    ensures forall u :: u in s ==> exists r :: r in results && SourceOf(r) == Some(u)
    ensures (forall i :: 0 <= i < |results| ==> SourceOf(results[i]).Some?) ==> |s| == |results|
  {
    if results == [] then []
    else
      var u := SourceOf(results[0]);
      (if u.Some? then [u.value] else []) + Sources(results[1..])
  }

  /** Every '(' of `p` is closed again within `p`. */
  predicate ParensClosed(p: string) {
    forall i :: 0 <= i < |p| && p[i] == '(' ==> ')' in p[i + 1..]
  }

  /** An http(s) URL without ')' of at least one character past its scheme. */
  predicate PlainUrl(link: string) {
    ')' !in link
    && ((StartsAt(link, 0, "https://") && |link| > 8) || (StartsAt(link, 0, "http://") && |link| > 7))
  }

  lemma {:induction false} FirstSourceAt(r: string, from: nat, p: nat)
    requires from <= p && SourceAt(r, p)
    requires forall k :: from <= k < p ==> !SourceAt(r, k)
    ensures FirstSource(r, from) == Some(p)
    decreases p - from
  {
    if from < p {
      FirstSourceAt(r, from + 1, p);
    }
  }

  /**
   * The URL of a line ending in " (" + link + ")" is read back as that link,
   * provided the text before it closes every parenthesis it opens.
   */
  lemma SourceRoundTrip(prefix: string, link: string)
    requires ParensClosed(prefix) && PlainUrl(link)
    ensures SourceOf(prefix + " (" + link + ")") == Some(link)
  {
    var r := prefix + " (" + link + ")";
    var p := |prefix| + 1;
    assert r[p + 1..|r| - 1] == link;
    assert r[p + 1..][..|link|] == link;
    forall k | 0 <= k < p ensures !SourceAt(r, k) {
      if k < |prefix| && r[k] == '(' {
        assert prefix[k] == '(';
        var j :| j in prefix[k + 1..] && j == ')';
        var m :| k + 1 <= m < |prefix| && prefix[m] == ')';
        assert r[m] == ')' && r[k + 1..|r| - 1][m - k - 1] == ')';
      }
    }
    FirstSourceAt(r, 0, p);
  }

  /** A search result formatted from a title and snippet without '(' and a plain http(s) link gives that link back. */
  lemma FormattedSource(title: string, snippet: string, link: string, render: Json -> string)
    requires '(' !in title && '(' !in snippet && PlainUrl(link)
    ensures SourceOf(FormatItem(JObj(map["title" := JStr(title), "snippet" := JStr(snippet), "link" := JStr(link)]), render))
      == Some(link)
  {
    var item := JObj(map["title" := JStr(title), "snippet" := JStr(snippet), "link" := JStr(link)]);
    var text := JsString(Or(Or(Get(item, "snippet"), Get(item, "description")), Some(JStr(""))), render);
    assert text == snippet;
    var prefix := title + ": " + snippet;
    assert FormatItem(item, render) == prefix + " (" + link + ")";
    assert forall i :: 0 <= i < |prefix| ==> prefix[i] != '(' by {
      forall i | 0 <= i < |prefix| ensures prefix[i] != '(' {
        if i < |title| {
          assert prefix[i] == title[i];
        } else if i >= |title| + 2 {
          assert prefix[i] == snippet[i - |title| - 2];
        }
      }
    }
    SourceRoundTrip(prefix, link);
  }

  // ---------------------------------------------------------------- the model's answer

  /** A summary, a priority flag and a reasoning, as the route returns them. */
  datatype AiResult = AiResult(summary: string, priority: bool, reasoning: string)

  /**
   * `/SUMMARY:\s*([\s\S]*?)(?=PRIORITY:|$)/`, trimmed, or the whole answer
   * when that is missing or blank: the text from the first "SUMMARY:" (past
   * the white space after it) up to the next "PRIORITY:" or the end.
   */
  function Summary(full: string): string {
    var at := FindFrom(full, "SUMMARY:", 0);
    if at.None? then full
    else
      var start := SpacesEnd(full, at.value + 8);
      var end := FindFrom(full, "PRIORITY:", start);
      var t := Trim(full[start..if end.Some? then end.value else |full|]);
      if t == "" then full else t
  }

  /** `/PRIORITY:\s*(YES|NO)/i` matches at `p`. */
  predicate PriorityAt(s: string, p: nat) {
    StartsAtIgnoringCase(s, p, "priority:")
    && var q := SpacesEnd(s, p + 9);
    (StartsAtIgnoringCase(s, q, "yes") || StartsAtIgnoringCase(s, q, "no"))
  }

  function FirstPriority(s: string, from: nat): (k: Option<nat>)
    ensures k.Some? ==> from <= k.value && PriorityAt(s, k.value)
    ensures k.Some? ==> forall j :: from <= j < k.value ==> !PriorityAt(s, j)
    decreases |s| - from
  {
    if from >= |s| then None
    else if PriorityAt(s, from) then Some(from)
    else FirstPriority(s, from + 1)
  }

  /** `priorityMatch?.[1]?.toUpperCase() === "YES"`: the first match reads YES in any case. */
  function Priority(s: string): bool {
    var p := FirstPriority(s, 0);
    p.Some? && StartsAtIgnoringCase(s, SpacesEnd(s, p.value + 9), "yes")
  }

  /** `/REASONING:\s*([\s\S]*?)$/`, trimmed, or "": everything after the first "REASONING:". */
  function Reasoning(s: string): string {
    var at := FindFrom(s, "REASONING:", 0);
    if at.None? then "" else Trim(s[SpacesEnd(s, at.value + 10)..])
  }

  /**
   * `generateSummary`: None when it throws (missing or malformed key, network
   * error, error status, a body without `content`, a text that is not a
   * string); the messages of those throws are only logged.
   */
  function GenerateSummary(apiKey: string, f: Fetched): (r: Option<AiResult>)
    ensures !StartsAt(Trim(apiKey), 0, "sk-ant-") ==> r.None?
    ensures f.Threw? ==> r.None?
  {
    var key := Trim(apiKey);
    if key == "" || !StartsAt(key, 0, "sk-ant-") then None
    else if f.Threw? || !f.reply.Ok() || f.reply.parsed.None? || f.reply.parsed.value.JNull? then None
    else
      var content := Get(f.reply.parsed.value, "content");
      if Nullish(content) then None
      else
        var text := Or(GetIn(First(content), "text"), Some(JStr("Unable to generate summary")));
        if text.None? || !text.value.JStr? then None
        else
          var full := text.value.s;
          Some(AiResult(Summary(full), Priority(full), Reasoning(full)))
  }

  /** The summary is the trimmed text between the first "SUMMARY:" at `at` and the next "PRIORITY:" at `e`. */
  lemma SummaryAt(s: string, at: nat, e: nat)
    requires StartsAt(s, at, "SUMMARY:") && forall k :: 0 <= k < at ==> !StartsAt(s, k, "SUMMARY:")
    requires at + 8 <= e && StartsAt(s, e, "PRIORITY:")
    requires forall k :: at + 8 <= k < e ==> !StartsAt(s, k, "PRIORITY:")
    requires Trim(s[at + 8..e]) != ""
    ensures Summary(s) == Trim(s[at + 8..e])
  {
    assert FindFrom(s, "SUMMARY:", 0) == Some(at) by {
      FindFromAt(s, "SUMMARY:", 0, at);
    }
    assert s[e] == 'P' by {
      assert s[e..e + 9][0] == s[e];
    }
    SkipToLabel(s, at + 8, e);
  }

  /** Past the white space after `b`, the next "PRIORITY:" is the one at `e`, and the trimmed text is unchanged. */
  lemma SkipToLabel(s: string, b: nat, e: nat)
    requires b <= e < |s| && s[e] == 'P' && StartsAt(s, e, "PRIORITY:")
    requires forall k :: b <= k < e ==> !StartsAt(s, k, "PRIORITY:")
    ensures SpacesEnd(s, b) <= e
    ensures FindFrom(s, "PRIORITY:", SpacesEnd(s, b)) == Some(e)
    ensures Trim(s[SpacesEnd(s, b)..e]) == Trim(s[b..e])
  {
    var start := SpacesEnd(s, b);
    SpacesStop(s, b, e);
    FindFromAt(s, "PRIORITY:", start, e);
    SkipSpaces(s, b, e);
  }

  /** White space from `i` stops at or before a character that is not white space. */
  lemma SpacesStop(s: string, i: nat, e: nat)
    requires i <= e < |s| && !IsSpace(s[e])
    ensures SpacesEnd(s, i) <= e
  {
  }

  /** Trimming ignores the white space `SpacesEnd` skips. */
  lemma SkipSpaces(s: string, b: nat, e: nat)
    requires b <= e <= |s| && SpacesEnd(s, b) <= e
    ensures Trim(s[SpacesEnd(s, b)..e]) == Trim(s[b..e])
  {
    SkipSpacesStart(s, b, e);
  }

  lemma {:induction false} SkipSpacesStart(s: string, b: nat, e: nat)
    requires b <= e <= |s| && SpacesEnd(s, b) <= e
    ensures TrimStart(s[SpacesEnd(s, b)..e]) == TrimStart(s[b..e])
    decreases e - b
  {
    if b < e && IsSpace(s[b]) {
      assert SpacesEnd(s, b) == SpacesEnd(s, b + 1);
      DropLeadingSpace(s[b..e], s[b + 1..e]);
      SkipSpacesStart(s, b + 1, e);
    }
  }

  /** The summary written between "SUMMARY:" and "PRIORITY:" is read back trimmed. */
  lemma SummaryRoundTrip(pre: string, body: string, rest: string)
    requires forall k :: 0 <= k < |pre| ==> !StartsAt(pre + "SUMMARY:" + body + "PRIORITY:" + rest, k, "SUMMARY:")
    requires forall k :: |pre| + 8 <= k < |pre| + 8 + |body| ==>
      !StartsAt(pre + "SUMMARY:" + body + "PRIORITY:" + rest, k, "PRIORITY:")
    requires Trim(body) != ""
    ensures Summary(pre + "SUMMARY:" + body + "PRIORITY:" + rest) == Trim(body)
  {
    Framed(pre, body, rest);
    SummaryAt(pre + "SUMMARY:" + body + "PRIORITY:" + rest, |pre|, |pre| + 8 + |body|);
  }

  /** Where the two labels and the body sit in the framed text. */
  lemma Framed(pre: string, body: string, rest: string)
    ensures var s := pre + "SUMMARY:" + body + "PRIORITY:" + rest;
      && StartsAt(s, |pre|, "SUMMARY:")
      && StartsAt(s, |pre| + 8 + |body|, "PRIORITY:")
      && s[|pre| + 8..|pre| + 8 + |body|] == body
  {
    var s := pre + "SUMMARY:" + body + "PRIORITY:" + rest;
    var e := |pre| + 8 + |body|;
    assert s[|pre|..|pre| + 8] == "SUMMARY:";
    assert s[e..e + 9] == "PRIORITY:";
    assert s[|pre| + 8..e] == body;
  }

  /** The reasoning is the trimmed text after the first "REASONING:" at `at`. */
  lemma ReasoningAt(s: string, at: nat)
    requires StartsAt(s, at, "REASONING:") && forall k :: 0 <= k < at ==> !StartsAt(s, k, "REASONING:")
    ensures Reasoning(s) == Trim(s[at + 10..])
  {
    FindFromAt(s, "REASONING:", 0, at);
    ReasoningFound(s, at);
  }

  lemma ReasoningFound(s: string, at: nat)
    requires at + 10 <= |s| && FindFrom(s, "REASONING:", 0) == Some(at)
    ensures Reasoning(s) == Trim(s[at + 10..])
  {
    SkipSpacesToEnd(s, at + 10);
  }

  /** Trimming ignores the white space `SpacesEnd` skips, up to the end of the text. */
  lemma {:induction false} SkipSpacesToEnd(s: string, b: nat)
    requires b <= |s|
    ensures TrimStart(s[SpacesEnd(s, b)..]) == TrimStart(s[b..])
    decreases |s| - b
  {
    if b < |s| && IsSpace(s[b]) {
      assert SpacesEnd(s, b) == SpacesEnd(s, b + 1);
      DropLeadingSpace(s[b..], s[b + 1..]);
      SkipSpacesToEnd(s, b + 1);
    }
  }

  /** The reasoning written after "REASONING:" is read back trimmed. */
  lemma ReasoningRoundTrip(pre: string, tail: string)
    requires forall k :: 0 <= k < |pre| ==> !StartsAt(pre + "REASONING:" + tail, k, "REASONING:")
    ensures Reasoning(pre + "REASONING:" + tail) == Trim(tail)
  {
    var s := pre + "REASONING:" + tail;
    assert s[|pre|..|pre| + 10] == "REASONING:";
    assert s[|pre| + 10..] == tail;
    ReasoningAt(s, |pre|);
  }

  lemma LowerLabels()
    ensures ToLower("PRIORITY:") == "priority:"
    ensures ToLower("YES") == "yes" && ToLower("NO") == "no"
  {
    assert ToLower("PRIORITY:")[..] == "priority:";
  }

  /** The flag is read at the first match `p`, with the answer after one space. */
  lemma PriorityAtAnswer(s: string, p: nat, answer: string)
    requires answer == "YES" || answer == "NO"
    requires StartsAt(s, p, "PRIORITY: ") && StartsAt(s, p + 10, answer)
    ensures PriorityAt(s, p)
    ensures SpacesEnd(s, p + 9) == p + 10
    ensures StartsAtIgnoringCase(s, p + 10, "yes") <==> answer == "YES"
  {
    LowerLabels();
    assert s[p..p + 9] == s[p..p + 10][..9];
    assert s[p + 9] == s[p..p + 10][9] == ' ';
    assert s[p + 10] == answer[0];
    if answer == "NO" && p + 13 <= |s| {
      assert ToLower(s[p + 10..p + 13])[0] == 'n';
    }
  }

  /** A line "PRIORITY: YES" or "PRIORITY: NO" decides the flag when no earlier match exists. */
  lemma PriorityRoundTrip(pre: string, answer: string, rest: string)
    requires answer == "YES" || answer == "NO"
    requires forall k :: 0 <= k < |pre| ==> !PriorityAt(pre + "PRIORITY: " + answer + rest, k)
    ensures Priority(pre + "PRIORITY: " + answer + rest) <==> answer == "YES"
  {
    var s := pre + "PRIORITY: " + answer + rest;
    var p := |pre|;
    assert s[p..p + 10] == "PRIORITY: ";
    assert s[p + 10..p + 10 + |answer|] == answer;
    PriorityAtAnswer(s, p, answer);
    FirstPriorityAt(s, 0, p);
  }

  lemma {:induction false} FirstPriorityAt(s: string, from: nat, p: nat)
    requires from <= p && PriorityAt(s, p)
    requires forall k :: from <= k < p ==> !PriorityAt(s, k)
    ensures FirstPriority(s, from) == Some(p)
    decreases p - from
  {
    if from < p {
      FirstPriorityAt(s, from + 1, p);
    }
  }

  // ---------------------------------------------------------------- the fallback

  /** `result.split(":")[1]?.split("(")[0]?.trim() || result`. */
  function Bullet(r: string): string {
    var pieces := Split(r, ':');
    if |pieces| < 2 then r
    else
      var t := Trim(Split(pieces[1], '(')[0]);
      if t == "" then r else t
  }

  /** The summary built from at most the first three results when the model call fails. */
  function FallbackSummary(name: string, results: seq<string>): string {
    var first := if |results| <= 3 then results else results[..3];
    var lines := seq(|first|, i requires 0 <= i < |first| => "\U{2022} " + Bullet(first[i]));
    "Based on search results for " + name + ":\n\n" + (if lines == [] then "" else Join(lines, "\n\n"))
  }

  const FallbackReasoning: string := "Unable to assess priority due to AI processing error"

  /** The bullet of a formatted search result is its snippet, when title and snippet hold no ':' or '('. */
  lemma BulletOfFormatted(title: string, snippet: string, rest: string)
    requires ':' !in title && ':' !in snippet && '(' !in snippet
    requires snippet != "" && !IsSpace(snippet[0]) && !IsSpace(snippet[|snippet| - 1])
    ensures Bullet(title + ": " + snippet + " (" + rest) == snippet
  {
    var head := " " + snippet + " ";
    var tail := head + "(" + rest;
    assert title + ": " + snippet + " (" + rest == title + [':'] + tail;
    SplitAtFirst(title, tail, ':');
    assert Split(title + [':'] + tail, ':')[1] == Split(tail, ':')[0];
    SecondPiece(head, rest);
    TrimPadded(snippet);
  }

  /** The piece before the '(' of `head + "(" + rest`, where `head` has no ':' or '('. */
  lemma SecondPiece(head: string, rest: string)
    requires ':' !in head && '(' !in head
    ensures Split(Split(head + "(" + rest, ':')[0], '(')[0] == head
  {
    assert ':' !in head + "(";
    SplitFirstPiece(head + "(", rest, ':');
    var piece := head + "(" + Split(rest, ':')[0];
    assert piece == head + ['('] + Split(rest, ':')[0];
    SplitAtFirst(head, Split(rest, ':')[0], '(');
  }

  /** A string with no white space at either end is what trimming it with one space on each side gives. */
  lemma {:induction false} TrimPadded(x: string)
    requires x != [] && !IsSpace(x[0]) && !IsSpace(x[|x| - 1])
    ensures Trim(" " + x + " ") == x
  {
    var y := x + " ";
    DropLeadingSpace(" " + x + " ", y);
    assert y[0] == x[0];
    assert TrimStart(y) == y;
    DropTrailingSpace(y, x);
    assert TrimEnd(x) == x;
  }

  lemma {:induction false} DropLeadingSpace(s: string, t: string)
    requires s != [] && IsSpace(s[0]) && s[1..] == t
    ensures TrimStart(s) == TrimStart(t)
  {
  }

  lemma {:induction false} DropTrailingSpace(s: string, t: string)
    requires s != [] && IsSpace(s[|s| - 1]) && s[..|s| - 1] == t
    ensures TrimEnd(s) == TrimEnd(t)
  {
  }

  /** The first piece of a split runs through any prefix free of the separator. */
  lemma {:induction false} SplitFirstPiece(a: string, b: string, c: char)
    requires c !in a
    ensures Split(a + b, c)[0] == a + Split(b, c)[0]
  {
    if a != [] {
      assert (a + b)[0] == a[0] && (a + b)[1..] == a[1..] + b;
      SplitFirstPiece(a[1..], b, c);
      assert [a[0]] + a[1..] == a;
    } else {
      assert a + b == b;
    }
  }

  // ---------------------------------------------------------------- the route

  /** What the route answers: an error status with its message (None: the runtime's own), or the enrichment. */
  datatype Outcome =
    | Failed(status: int, error: Option<string>)
    | Enriched(summary: string, priority: bool, reasoning: string, sources: seq<string>)

  /** `companyEmail.split("@")[1]`, which is `undefined` when there is no '@'. */
  function DomainPart(email: string): string {
    var pieces := Split(email, '@');
    if |pieces| < 2 then "undefined" else pieces[1]
  }

  /** The query searched for. */
  function SearchQuery(name: Json, email: string, render: Json -> string): string {
    JsString(Some(name), render) + " company " + DomainPart(email) + " business"
  }

  /** The domain of an address with one '@' is the text after it; without '@' it renders as "undefined". */
  lemma DomainPartOf(local: string, domain: string)
    requires '@' !in local && '@' !in domain
    ensures DomainPart(local + "@" + domain) == domain
    ensures DomainPart(local) == "undefined"
  {
    SplitAtFirst(local, domain, '@');
    SplitAbsent(domain, '@');
    SplitAbsent(local, '@');
  }

  /** A parsed body carrying a truthy `companyName` and a truthy `companyEmail`. */
  predicate NamedBody(body: Option<Json>) {
    body.Some? && !body.value.JNull?
    && TruthyOpt(Get(body.value, "companyName")) && TruthyOpt(Get(body.value, "companyEmail"))
  }

  /**
   * `POST /api/ai-enrich`. `body` is what `req.json()` yields (None when it
   * throws); `query` is the search issued, if any.
   */
  method Post(body: Option<Json>, serpKey: string, serpReply: Fetched, anthropicKey: string, modelReply: Fetched,
              render: Json -> string)
    returns (o: Outcome, query: Option<string>)
    ensures body.None? || body.value.JNull? ==> o == Failed(500, None) && query.None?
    ensures (body.Some? && !body.value.JNull?
             && (!TruthyOpt(Get(body.value, "companyName")) || !TruthyOpt(Get(body.value, "companyEmail")))) ==>
        o == Failed(400, Some("Company name and email are required")) && query.None?
    ensures o.Enriched? ==>
      && body.Some? && !body.value.JNull? && serpKey != ""
      && TruthyOpt(Get(body.value, "companyName")) && TruthyOpt(Get(body.value, "companyEmail"))
    ensures (o.Enriched? && body.Some? && !body.value.JNull? && serpKey != ""
             && TruthyOpt(Get(body.value, "companyName")) && TruthyOpt(Get(body.value, "companyEmail"))) ==>
      var name := Get(body.value, "companyName").value;
      var email := Get(body.value, "companyEmail").value;
      var results := SearchResults(serpKey, serpReply, render).value;
      && body.Some? && TruthyOpt(Get(body.value, "companyName")) && email.JStr? && serpKey != ""
      && query == Some(SearchQuery(name, email.s, render))
      && results != []
      && o.sources == Sources(results)
      && (GenerateSummary(anthropicKey, modelReply).Some? ==>
            var ai := GenerateSummary(anthropicKey, modelReply).value;
            o.summary == ai.summary && o.priority == ai.priority && o.reasoning == ai.reasoning)
      && (GenerateSummary(anthropicKey, modelReply).None? ==>
            o.summary == FallbackSummary(JsString(Some(name), render), results)
            && !o.priority && o.reasoning == FallbackReasoning)
    ensures query.Some? && serpKey == "" ==> o == Failed(500, Some("SerpAPI key not configured"))
    ensures query.Some? && serpKey != "" && SearchResults(serpKey, serpReply, render).value == [] ==>
      o == Failed(404, Some("No search results found for the company"))
    ensures (body.Some? && !body.value.JNull?
             && TruthyOpt(Get(body.value, "companyName")) && TruthyOpt(Get(body.value, "companyEmail"))
             && Get(body.value, "companyEmail").value.JStr?) ==> query.Some?
    ensures NamedBody(body) && !Get(body.value, "companyEmail").value.JStr? ==> o == Failed(500, None) && query.None?
    ensures NamedBody(body) && Get(body.value, "companyEmail").value.JStr?
            && SearchResults(serpKey, serpReply, render).Failure? ==>
      o == Failed(500, Some(SearchResults(serpKey, serpReply, render).error))
    ensures NamedBody(body) && Get(body.value, "companyEmail").value.JStr?
            && SearchResults(serpKey, serpReply, render).Success? && SearchResults(serpKey, serpReply, render).value != [] ==>
      o.Enriched?
  {
    query := None;
    if body.None? || body.value.JNull? {
      return Failed(500, None), None;
    }
    var name := Get(body.value, "companyName");
    var email := Get(body.value, "companyEmail");
    if !TruthyOpt(name) || !TruthyOpt(email) {
      return Failed(400, Some("Company name and email are required")), None;
    }
    if !email.value.JStr? {
      // `companyEmail.split` is not a function
      return Failed(500, None), None;
    }
    query := Some(SearchQuery(name.value, email.value.s, render));
    var results := SearchGoogle(serpKey, serpReply, render);
    if results.Failure? {
      return Failed(500, Some(results.error)), query;
    }
    if results.value == [] {
      return Failed(404, Some("No search results found for the company")), query;
    }
    var ai := GenerateSummary(anthropicKey, modelReply);
    var aiResult: AiResult;
    if ai.Some? {
      aiResult := ai.value;
    } else {
      aiResult := AiResult(FallbackSummary(JsString(name, render), results.value), false, FallbackReasoning);
    }
    o := Enriched(aiResult.summary, aiResult.priority, aiResult.reasoning, Sources(results.value));
  }
}

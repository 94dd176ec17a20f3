# tally-enricher, modelled in Dafny

tally-enricher qualifies B2B leads that arrive from form providers. A submission
gives a work email and some company answers. The service works out the email's
domain and enriches the company through outside data providers:

- People Data Labs for head count and funding;
- a web-search API that scans for revenue figures;
- Anthropic's model for a judgement and a summary.

It then decides, against a workspace's thresholds, whether the lead is
qualified. A qualified lead is sent to the workspace's booking page; any other
lead goes to its success page. Each decision is stored as an analytics row in
the Convex database.

This project models that decision core, file by file:

- **Pure logic** is modelled as functions over datatypes, with lemmas about them:
  - parsing and normalising answers, emails, company sizes and money figures;
  - qualification rules and ranking of search hits;
  - reading provider replies.
- **State that changes in place** is modelled as classes whose methods say
  their whole new state:
  - the Redis cache behind `lib/index.ts` (`LeadLib.LeadCache`);
  - the Convex tables (`ConvexSchema.Db`);
  - the tester form component (`TesterForm.QualifyForm`).
- **Loops** are modelled as methods with invariants, proved against the
  specification functions beside them:
  - the search-query loop;
  - the Clay webhook retry loop;
  - the loop over a search reply's items;
  - the loop over a webhook payload's fields.

Anything from the outside world is a parameter of the operation that uses it:

- network replies (`Http.Fetched`: a thrown error, or a status, a body text and
  what `JSON.parse` made of it);
- clock readings;
- generated UUIDs;
- `JSON.parse`, `decodeURIComponent` and URL-encoding;
- JavaScript's `String()` of non-string values.

Modules: `Wrappers`, `Text`, `Json`, `Http` (shared helpers); `LeadTypes`,
`ConvexSchema` (records and tables); `Workspaces`, `Analytics`, `Users`
(`convex/`); `LeadLib` (`lib/index.ts`); `SrcLeadLib` (`src/lib/index.ts`);
`Enrich`, `SerpParse`, `SerpEval`, `Pdl`, `Claude`, `Clay` (`src/lib/`);
`AiEnrich`, `WebhookRoute`, `TallyRoute` (`src/app/api/`); `RedirectPage`
(`app/r/page.tsx`); `TesterForm` (`app/tester/`).

Four facts about the code that the model keeps:

- **Score threshold.** `scoreLead` compares the employee count with a fixed
  1000; the workspace's `min_employees` plays no part in it.
- **Threshold comparisons.** Both qualification rules pass at equality
  (`>=`).
- **Clay retries.** The webhook retry repeats after any status that is
  neither 2xx nor 4xx, 3xx included.
- **Search hits.** A hit need not be traceable to the queried company's
  host or name: any organic result whose text mentions revenue together
  with a USD figure counts.

## Model

| member | source | states |
|---|---|---|
| Json.Get | src/lib/pdl_api.ts:10-15 | `get(obj, key)` yields a property only of a record (not null, not an array), exactly when the key is present, and yields that property's value |
| Json.BodyOf | src/lib/post_to_clay.ts:39-41 | an empty reply text reads as null, unparseable text as the text itself, parseable text as its parse |
| LeadLib.ExtractDomainFromEmail | lib/index.ts:19-22 | a domain comes back iff the email holds exactly one `@`; it is the `@`-free part after it (`src/lib/index.ts` lines 37-40 hold the same code) |
| LeadLib.ExtractDomainOfAddress | lib/index.ts:19-22 | round trip: `local@domain` with no other `@` yields `domain` |
| LeadLib.ExtractDomainNeedsOneAt | lib/index.ts:19-22 | no `@` or several `@` yield null |
| LeadLib.QualifyLeadVerdicts | lib/index.ts:91-115 | missing data or criteria gives "missing_data"; else the employee rule wins first, then the funding rule, else "no criteria met"; `result` holds iff a rule passed (each direction proved) |
| LeadLib.ZeroThresholdDisablesRule | lib/index.ts:103-108 | a zero threshold is falsy, so it disables its rule exactly like a missing one |
| LeadLib.RevenueIgnored | lib/index.ts:110-114 | the revenue threshold never changes the verdict |
| LeadLib.Sector | lib/index.ts:71-73 | null iff both industries are missing or empty; never the empty string |
| LeadLib.SectorOfBoth | lib/index.ts:71-73 | two non-empty industries join as "a, b" |
| LeadLib.Enriched | lib/index.ts:66-75 | the record built from a provider reply: `display_name` before `name`, counts and size copied, sector as above; all nulls without data |
| LeadLib.Lookup | lib/index.ts:32-37 | a cached value is seen iff its key is stored and not yet expired, and it is the stored value |
| LeadLib.LookupAfterPut | lib/index.ts:77 | after a set with expiry, the key reads back the value until the expiry and nothing after; other keys are unaffected |
| LeadLib.LeadCache.constructor | lib/index.ts:14-17 | a fresh cache is empty |
| LeadLib.LeadCache.EnrichDomain | lib/index.ts:24-89 | missing key throws and changes nothing; a live cache entry is returned without a request; otherwise the provider is called, an ok reply is cached and returned, anything else yields all nulls and leaves the cache alone |
| LeadLib.LeadCache.GetWorkspaceWithCache | lib/index.ts:117-131 | a live cache entry is returned without a query; otherwise the database row by name is returned and cached when found |
| SrcLeadLib.QualifyLeadPrecedence | src/lib/index.ts:42-68 | the rules apply in order: public company, largest size bucket, employees, funding; qualified iff any holds, each reason iff its rule is the first to hold |
| Workspaces.Get | convex/workspaces.ts:4-10 | all workspace rows, in table order |
| Workspaces.FirstNamed | convex/workspaces.ts:12-21 | the first row with the name; null iff no row has it |
| Workspaces.GetByName | convex/workspaces.ts:12-21 | the query result is a row of the table with that name; null iff there is none |
| Analytics.Insert | convex/analytics.ts:23-25 | appends exactly the row and changes no other table |
| Analytics.RowsOf | convex/analytics.ts:36-39 | every kept row is a table row of the workspace and every table row of the workspace is kept; none when no row names it |
| Analytics.RowsOfAppend | convex/analytics.ts:36-39 | the filter keeps table order: the rows of a concatenation are the rows of each part, in turn |
| Analytics.RowsOfOne | convex/analytics.ts:38 | a single row is kept iff it names the workspace |
| Analytics.Summarize | convex/analytics.ts:41-47 | qualified count never exceeds submissions; an unknown workspace sums to zero |
| Analytics.SummaryForWorkspaceName | convex/analytics.ts:33-49 | the query's counts are bounded by the table size |
| Analytics.QualifiedCountBound | convex/analytics.ts:42-45 | the qualified rows are among all rows |
| Analytics.SummaryAfterInsert | convex/analytics.ts:23-47 | inserting a row raises that workspace's submissions by one and its qualified count by one iff the row qualified; other workspaces' summaries are unchanged |
| Users.FindBySubject | convex/users.ts:13-16 | finds the last user with the identity subject, or proves none has it |
| Users.ImageUrl | convex/users.ts:21 | `profileUrl ?? pictureUrl` |
| Users.Refreshed | convex/users.ts:18-26 | patching an existing user refreshes email, name, image and update time and keeps id, subject, creation time and workspace |
| Users.Fresh | convex/users.ts:30-35 | a new user has no workspace and equal creation and update times |
| Users.WellFormedAfterPatch | convex/users.ts:26 | patching a row while keeping its id and subject keeps ids and subjects unique |
| Users.EnsureUser | convex/users.ts:7-37 | unauthenticated fails and changes nothing; a known subject is patched in place; a new subject is appended under a fresh id; uniqueness of ids and subjects is preserved |
| Users.SetMyWorkspaceByName | convex/users.ts:40-61 | each failure leaves users unchanged with its own message; a signed-in caller with a user row and an existing workspace always succeeds, and success sets exactly that user's workspace to the named one |
| Users.View | convex/users.ts:78-93 | the workspace view copies the listed fields |
| Users.Me | convex/users.ts:63-95 | a view exists iff the caller's user row exists; its workspace is the linked one and is present whenever the linked row exists |
| Users.LinkUserToWorkspace | convex/users.ts:99-114 | unknown user or workspace fails and changes nothing; otherwise exactly that user is linked |
| Users.MeAfterEnsureUser | convex/users.ts:25-35 | after `ensureUser`, `me` finds the caller |
| Enrich.ToInt | src/lib/enrich.ts:17-21 | the digits of the string read as a number; null iff there are none |
| Enrich.ToIntOfNumeral | src/lib/enrich.ts:17-21 | a numeral wrapped in non-digits reads back as its value |
| Enrich.DomainFromEmail | src/lib/enrich.ts:23-27 | the lower-cased text after the last `@`; null iff there is no `@` or nothing follows it |
| Enrich.DomainFromEmailOfAddress | src/lib/enrich.ts:23-27 | round trip: `local@domain` yields the lower-cased domain |
| Enrich.Trimmed | src/lib/enrich.ts:33-34 | a present answer, trimmed |
| Enrich.TrimmedOrNull | src/lib/enrich.ts:36-37 | a present answer that trims to non-empty, trimmed; else null |
| Enrich.Derive | src/lib/enrich.ts:33-42 | the derived record: trimmed email and company name, seat count, size and computers, and the email's domain |
| Enrich.EnrichWithAbstract | src/lib/enrich.ts:29-68 | missing key throws; the provider is called iff a domain was derived; an ok reply is the enrichment, a failing status or a throw goes to debug, never both |
| Enrich.ParseNormalised | src/lib/enrich.ts:74-75 | an "N+" size is positive whenever it is read |
| Enrich.PlusFormOfNumeral | src/lib/enrich.ts:74-75 | "N+" is recognised as the plus form with numeral N |
| Enrich.RangeFormOfNumerals | src/lib/enrich.ts:74-76 | "A - B" is not a plus form and is the range form with A and B |
| Enrich.ParseSizePlus | src/lib/enrich.ts:74-75 | "N+" parses as N, or null for N = 0 |
| Enrich.ParseSizeRange | src/lib/enrich.ts:76-81 | "A - B" parses as the midpoint, rounded half up |
| Enrich.ParseSizeSingle | src/lib/enrich.ts:82-83 | a plain numeral parses as itself |
| Enrich.ParseSizeNoDigits | src/lib/enrich.ts:71-84 | a size with no digit is null |
| Enrich.EmployeeCount | src/lib/enrich.ts:89-92 | a count exists iff the enrichment holds a numeric `employee_count`, and it is that number |
| Enrich.ScoreLead | src/lib/enrich.ts:88-103 | approved iff the count is at least 1000; otherwise the reason says the count is missing or too small |
| Enrich.ReasonText | src/lib/enrich.ts:94-100 | the two rejection messages |
| Enrich.Echoed | src/app/api/tally/route.ts:37-41 | the echoed enrichment is null iff there was none, and otherwise the enrichment itself |
| Enrich.ScoreOfEchoed | src/app/api/tally/route.ts:31-41 | scoring the echoed record gives the same verdict |
| SerpParse.ToUsd | src/lib/serp_api.ts:28-36 | only unlabeled or USD-like currencies convert; million and billion scale the value |
| SerpParse.UnitScales | src/lib/serp_api.ts:18-21 | "million"/"m" in any case scale by a million, every other unit by a billion |
| SerpParse.StripCommasAndSpaces | src/lib/serp_api.ts:17 | the cleaned number text holds no comma and no space |
| SerpParse.StripCommasAndSpacesAppend | src/lib/serp_api.ts:17 | stripping goes character by character: a concatenation strips to the stripped parts, in order |
| SerpParse.StripCommasAndSpacesKeeps | src/lib/serp_api.ts:17 | every other character is kept: a text without commas and spaces strips to itself |
| SerpParse.ParseMoneySmallNumeral | src/lib/serp_api.ts:12-25 | a numeral of up to three digits parses as its value |
| SerpParse.ParseMoneyTruncates | src/lib/serp_api.ts:8 | as written, a run of more than three digits parses as its first three |
| SerpParse.ParseMoneyLosesDigits | src/lib/serp_api.ts:8 | as written, every numeral of four or more digits parses to less than its value |
| SerpParse.ParseMoneyIntendedRoundTrip | src/lib/serp_api.ts:8 | with the longer alternative taken, every numeral parses as its value |
| SerpParse.ExtractYear | src/lib/serp_api.ts:38-41 | a year between 1900 and 2099; null iff no four-digit 19xx/20xx stands between word boundaries |
| SerpParse.ExtractYearOf | src/lib/serp_api.ts:38-41 | round trip: a year set off by non-word text is read back |
| SerpParse.FirstYearAt | src/lib/serp_api.ts:39 | the leftmost year match from a position |
| SerpParse.TextImpliesRevenueIff | src/lib/serp_api.ts:43-46 | the keyword gate passes iff "revenue" or "arr" stands as a whole word, in any case |
| SerpParse.RevenueAtCases | src/lib/serp_api.ts:45 | every alternative of the keyword pattern contains such a whole word |
| SerpParse.KnowledgeGraphGatePasses | src/lib/serp_api.ts:120 | the knowledge-graph text always passes the gate |
| SerpEval.Figure | src/lib/serp_api.ts:121-123 | a figure is the non-zero USD value of the money the chosen grammar parses: the shipped pattern under `AsWritten`, the corrected one under `Intended` |
| SerpEval.FigureOfLongNumeral | src/lib/serp_api.ts:8 | a numeral of four or more digits is read as its value by the corrected grammar and never by the shipped one |
| SerpEval.KnowledgeGraphHit | src/lib/serp_api.ts:117-130 | a knowledge-graph hit is sourced to google.com with a non-zero value (figures read with the grammar passed in) |
| SerpEval.CandidateHit | src/lib/serp_api.ts:145-154 | an answer-box hit comes from a string passing the keyword gate, with its figure under the grammar passed in |
| SerpEval.OrganicHit | src/lib/serp_api.ts:166-185 | an organic hit's text passes the gate, its value is the text's figure under the grammar passed in, its snippet is at most 300 characters |
| SerpEval.Take | src/lib/serp_api.ts:184 | `slice(0, n)` is a prefix of at most n characters |
| SerpEval.FirstQualifying | src/lib/serp_api.ts:132-137 | the first hit that is large enough and recent; none iff no hit qualifies |
| SerpEval.InsertHit | src/lib/serp_api.ts:206-210 | inserting keeps every hit (a permutation) |
| SerpEval.SortHits | src/lib/serp_api.ts:206-210 | sorting keeps every hit (a permutation) |
| SerpEval.SortHitsSorted | src/lib/serp_api.ts:206-210 | sorted by year, then value, both descending |
| SerpEval.InsertHitSameRank | src/lib/serp_api.ts:206-210 | an inserted hit lands after every hit ranked equal to it |
| SerpEval.SortHitsStable | src/lib/serp_api.ts:206-210 | the sort is stable: hits ranked equal keep their order, so ties go to the hit found first |
| SerpEval.RanksAtLeastTotal | src/lib/serp_api.ts:206-210 | the comparator is a total preorder |
| SerpEval.RecentHits | src/lib/serp_api.ts:212 | the filter keeps exactly the recent hits |
| SerpEval.RecentHitsSorted | src/lib/serp_api.ts:212 | filtering keeps the order |
| SerpEval.HeadRanksFirst | src/lib/serp_api.ts:212-213 | the head of a sorted list ranks at least as high as each hit |
| SerpEval.TopIsBest | src/lib/serp_api.ts:212-213 | the final hit is the best recent hit when there is one, else the best of all |
| SerpEval.VerdictMeaning | src/lib/serp_api.ts:202-225 | never rejects; no hits gives unsure; approves iff some hit qualifies or the best hit meets the floor, and an approval names a hit meeting it |
| SerpEval.FinalApprovalIsStale | src/lib/serp_api.ts:212-220 | an approval after the loop found no qualifying hit rests on a figure whose every hit is stale |
| SerpEval.Queries | src/lib/serp_api.ts:78-88 | at most three queries and at most `maxQueries` |
| SerpEval.RequestBudget | src/lib/serp_api.ts:97 | each request's budget is at most the per-request limit: that limit, 800 ms, or the time left less 50 ms |
| SerpEval.EvaluateWithSerp | src/lib/serp_api.ts:56-226 | missing key throws; no domain is unsure; otherwise the requests go out in order with their budgets while time remains, no earlier prefix had a qualifying hit, the loop stops at the end, the deadline or the first qualifying hit, and the result is the verdict over the collected hits; `AsWritten` gives the shipped evaluator |
| SerpEval.SearchQueries | src/lib/serp_api.ts:93-199 | the loop keeps the collected hits equal to those of the requests made, and returns the first qualifying hit |
| SerpEval.ScanReply | src/lib/serp_api.ts:130-137 | scanning one reply's hits returns the first qualifying hit of the collected hits |
| SerpEval.Round | src/lib/serp_api.ts:135 | rounding lies within a half of the value |
| SerpEval.YearSuffix | src/lib/serp_api.ts:135 | the year suffix is empty iff there is no year |
| SerpEval.ReasonText | src/lib/serp_api.ts:216-224 | each revenue reason ends in the year suffix and the source host |
| Pdl.ToNumber | src/lib/pdl_api.ts:17-24 | numbers pass through; strings read through `parseFloat` of their digits and dots; anything else is null |
| Pdl.DigitsAndDots | src/lib/pdl_api.ts:20 | the cleaned text holds only digits and dots |
| Pdl.ToNumberNoDigits | src/lib/pdl_api.ts:19-21 | a string with no digit is null |
| Pdl.ToNumberOfGroupedDigits | src/lib/pdl_api.ts:19-21 | "12,500" reads as 12500 |
| Pdl.ToNumberOfDecimal | src/lib/pdl_api.ts:19-21 | "12.5" reads as its decimal value |
| Pdl.DataOf | src/lib/pdl_api.ts:63-66 | the reply's `data` envelope when present, else the reply itself; nothing for a non-record |
| Pdl.CompanyOfEnvelope | src/lib/pdl_api.ts:63-69 | a wrapped and an unwrapped reply give the same company fields |
| Pdl.CompanyOfNonRecord | src/lib/pdl_api.ts:63-69 | a non-record reply gives no fields |
| Pdl.FetchPdlByDomain | src/lib/pdl_api.ts:30-98 | missing key fails; an ok reply gives the company, a failing status or a throw gives debug only, never both |
| Claude.ReplyText | src/lib/claude_api.ts:81 | the first content item's text, else `output_text`, else "" |
| Claude.StatusOf | src/lib/claude_api.ts:89 | a status is recognised iff it is one of the three words |
| Claude.DecisionOf | src/lib/claude_api.ts:85-92 | a recognised status (case-insensitive) is kept with its reason; anything else is unsure |
| Claude.EvaluateWithClaude | src/lib/claude_api.ts:41-99 | missing key and thrown requests fail; otherwise an empty reply and an unparseable reply are unsure, a parsed reply is read by `DecisionOf` |
| Claude.StatusIgnoresCase | src/lib/claude_api.ts:87-90 | an upper-cased status word is recognised as itself |
| AiEnrich.Iterated | src/app/api/ai-enrich/route.ts:33-34 | `for…of` walks an array's items or a string's characters; anything else throws |
| AiEnrich.ItemResults | src/app/api/ai-enrich/route.ts:33-45 | one formatted line per item; a null item makes the whole list empty |
| AiEnrich.SearchResults | src/app/api/ai-enrich/route.ts:12-47 | missing key throws; a thrown or failing request gives no results |
| AiEnrich.SearchGoogle | src/app/api/ai-enrich/route.ts:12-47 | the method computes `SearchResults` |
| AiEnrich.FormatItems | src/app/api/ai-enrich/route.ts:31-39 | the loop computes `ItemResults` |
| AiEnrich.FirstSource | src/app/api/ai-enrich/route.ts:250 | the leftmost `(http…)` group |
| AiEnrich.SourceOf | src/app/api/ai-enrich/route.ts:250 | an extracted source is non-empty and holds no `)` |
| AiEnrich.Sources | src/app/api/ai-enrich/route.ts:248-253 | each source comes from some result; when every result has one, there is one per result |
| AiEnrich.SourceRoundTrip | src/app/api/ai-enrich/route.ts:248-253 | "text (link)" yields the link |
| AiEnrich.FormattedSource | src/app/api/ai-enrich/route.ts:35-37 | a formatted search item yields its link as source |
| AiEnrich.GenerateSummary | src/app/api/ai-enrich/route.ts:49-187 | no valid key or a thrown request gives no summary |
| AiEnrich.SummaryAt | src/app/api/ai-enrich/route.ts:165-167 | the summary is the trimmed text between "SUMMARY:" and "PRIORITY:" |
| AiEnrich.SummaryRoundTrip | src/app/api/ai-enrich/route.ts:165-167 | round trip of the summary section |
| AiEnrich.ReasoningAt | src/app/api/ai-enrich/route.ts:169 | the reasoning is the trimmed text after "REASONING:" |
| AiEnrich.ReasoningRoundTrip | src/app/api/ai-enrich/route.ts:169 | round trip of the reasoning section |
| AiEnrich.PriorityRoundTrip | src/app/api/ai-enrich/route.ts:168 | "PRIORITY: YES" is read as priority and "PRIORITY: NO" is not |
| AiEnrich.FirstPriority | src/app/api/ai-enrich/route.ts:168 | the leftmost priority label |
| AiEnrich.BulletOfFormatted | src/app/api/ai-enrich/route.ts:239 | the fallback bullet of a formatted item is its snippet |
| AiEnrich.DomainPartOf | src/app/api/ai-enrich/route.ts:202 | `email.split("@")[1]` is the domain, or "undefined" without `@` |
| AiEnrich.Post | src/app/api/ai-enrich/route.ts:189-291 | bad body gives 500, missing name or email 400, a non-string email 500 before any search; a failing search gives 500 with its message and no results 404; with name, string email and results the answer is an enrichment, carrying the results' sources and the model's answer or else the fallback summary |
| WebhookRoute.AsStr | src/app/api/route.ts:11 | strings as they are, "" for null or undefined, `String(v)` otherwise |
| WebhookRoute.RootOf | src/app/api/route.ts:15-16 | the event's data, else the payload's data |
| WebhookRoute.FieldsOf | src/app/api/route.ts:18-19 | the root's `fields` exactly when it is an array |
| WebhookRoute.Label | src/app/api/route.ts:23 | a field's label is empty iff its label, key and id all are |
| WebhookRoute.FlatAnswers | src/app/api/route.ts:30-39 | a flat payload gives exactly the seven answers, each read from its property |
| WebhookRoute.AnswersFromAny | src/app/api/route.ts:14-41 | a fields payload gives the fields' answers and response id; a flat one gives the flat answers and its response id or the fresh UUID |
| WebhookRoute.ToAnswersFromAny | src/app/api/route.ts:14-41 | the loop over fields computes `AnswersFromAny` |
| WebhookRoute.FieldAnswersKeys | src/app/api/route.ts:22-26 | the answer keys are exactly the non-empty labels of the fields |
| WebhookRoute.LastLabelWins | src/app/api/route.ts:22-26 | a label carries the value of the last field bearing it |
| WebhookRoute.RecordOrNull | src/app/api/route.ts:76-77 | config and criteria are echoed only when they are records |
| WebhookRoute.Post | src/app/api/route.ts:43-79 | bad JSON gives 400; refused iff the email answer is missing or empty; otherwise scored on the enrichment of the answers |
| WebhookRoute.FlatEmailRequired | src/app/api/route.ts:52-54 | a flat payload is refused iff its `work_email` reads as "" |
| WebhookRoute.FieldsEmailRequired | src/app/api/route.ts:52-54 | a fields payload without an "Email Address" field is refused |
| TallyRoute.OrEmpty | src/app/api/tally/route.ts:10-14 | `input.key ?? ""` |
| TallyRoute.ToAnswers | src/app/api/tally/route.ts:8-16 | the five answers from their properties; a null payload throws |
| TallyRoute.StringAnswers | src/app/api/tally/route.ts:8-16 | a payload of five strings is read as those strings |
| TallyRoute.AsAnswers | src/app/api/tally/route.ts:31 | the string answers as the enrichment reads them |
| TallyRoute.Post | src/app/api/tally/route.ts:18-43 | bad JSON 400, null payload throws, missing email 400, missing key or unreadable answers throw; otherwise the answers are enriched and scored, echoing the enrichment or its debug |
| TallyRoute.MissingEmailRefused | src/app/api/tally/route.ts:26-29 | a payload without `work_email` is refused |
| Clay.Final | src/lib/post_to_clay.ts:43-61 | 2xx posts; 4xx is "Clay 4xx", every other status "Clay 5xx", with status and body; a throw keeps its message |
| Clay.Run | src/lib/post_to_clay.ts:23-65 | the loop stops at the first 2xx or 4xx, or after `retries` repeats; only non-terminal attempts come before |
| Clay.Backoff | src/lib/post_to_clay.ts:49-58 | the n-th wait is `retryDelayMs × n` |
| Clay.PostToClay | src/lib/post_to_clay.ts:14-66 | no URL fails without a request; otherwise the result and request count are those of `Run` and the waits those of `Backoff` |
| Clay.Attempt | src/lib/post_to_clay.ts:28-61 | one pass ends the loop iff its outcome is terminal or the retries are spent, with `Final`'s result |
| Clay.RunStep | src/lib/post_to_clay.ts:43-60 | one step of the loop |
| Clay.ClientErrorNotRetried | src/lib/post_to_clay.ts:45-47 | a 4xx ends the loop at once |
| Clay.ExhaustedAs5xx | src/lib/post_to_clay.ts:49-54 | persistent non-4xx failures use every retry and report "Clay 5xx" |
| RedirectPage.NormalizeUrl | app/r/page.tsx:112-116 | fallback for empty, unchanged with a scheme, else prefixed with https:// |
| RedirectPage.NormalizeUrlAbsolute | app/r/page.tsx:112-116 | with an absolute fallback the result is absolute and normalising is idempotent |
| RedirectPage.Admit | app/r/page.tsx:27-57 | missing parameters go to the error page, a bad escape throws, an address without exactly one `@` or with an empty domain goes to the error page; otherwise its domain goes on |
| RedirectPage.EmptyDomainTurnedAway | app/r/page.tsx:43-57 | "a@" goes to the error page |
| RedirectPage.AddressAdmitted | app/r/page.tsx:43-57 | a well-formed address goes on with its domain |
| RedirectPage.Destination | app/r/page.tsx:118-136 | a qualified lead goes to the booking URL, any other to the success URL, always absolute |
| RedirectPage.FoundWorkspace | app/r/page.tsx:60-63 | without a cached row, the workspace is the database row by name |
| RedirectPage.FoundEnrichment | app/r/page.tsx:60-63 | without a cached record, an ok provider reply is the enrichment, else all nulls |
| RedirectPage.VisitRow | app/r/page.tsx:99-110 | the analytics row records the visit's email, domain, workspace, verdict, time and enrichment |
| RedirectPage.StoreAfterWorkspace | lib/index.ts:117-131 | a workspace missed by the cache and found in the database is put for a day; otherwise the cache is unchanged |
| RedirectPage.StoreAfterEnrichment | lib/index.ts:24-80 | with a key, a record missed by the cache and answered ok is put for a week; otherwise the cache is unchanged |
| RedirectPage.RepeatVisitServedFromCache | app/r/page.tsx:60-63 | a repeat visit at the same instant gets the same workspace and record from the cache, whatever the database and provider now say |
| RedirectPage.Visit | app/r/page.tsx:19-137 | the guards stop visits without a change; a missing key throws; an unknown workspace goes to the error page; otherwise the lead is qualified, sent to its destination and recorded; the new cache is the old one with the workspace and then the enrichment put as the two lookups do |
| TesterForm.EmailShapeOf | app/tester/components/QualifyForm.tsx:68 | `local@host.tld` with no spaces or extra `@` passes the email check |
| TesterForm.EmailShapeMeans | app/tester/components/QualifyForm.tsx:68 | an accepted email has exactly one `@` and no whitespace |
| TesterForm.BlankIsTrimEmpty | app/tester/components/QualifyForm.tsx:67 | blank means empty after trimming |
| TesterForm.ErrorsOf | app/tester/components/QualifyForm.tsx:65-72 | each field is flagged iff its rule fails, with its message |
| TesterForm.ValidateIff | app/tester/components/QualifyForm.tsx:72-73 | no errors iff every rule passes (the page copy, `app/tester/page.tsx` lines 237-246, is the same code) |
| TesterForm.KeepNumeric | app/tester/components/QualifyForm.tsx:77 | only digits, dots and minus signs are kept |
| TesterForm.ToNumber | app/tester/components/QualifyForm.tsx:76-79 | `Number` of the kept characters, 0 when that is not a number (the page copy at lines 248-251 of `app/tester/page.tsx` is the same code) |
| TesterForm.ToNumberOfDigits | app/tester/components/QualifyForm.tsx:76-79 | a numeral reads as its value |
| TesterForm.ToNumberOfGroupedDigits | app/tester/components/QualifyForm.tsx:76-79 | "1,200" reads as 1200 |
| TesterForm.ToNumberNegative | app/tester/components/QualifyForm.tsx:76-79 | a leading minus negates |
| TesterForm.ToNumberMalformed | app/tester/components/QualifyForm.tsx:76-79 | empty or malformed input reads as 0 |
| TesterForm.IsQualified | app/tester/components/QualifyForm.tsx:81-93 | qualified iff every enabled threshold is met (the page copy at lines 253-265 of `app/tester/page.tsx` is the same code) |
| TesterForm.DefaultEmployeesInclusive | app/tester/components/QualifyForm.tsx:89-91 | with the default thresholds, 400 employees qualify and 399 do not |
| TesterForm.BlankDomainSent | app/tester/components/QualifyForm.tsx:109 | as written, a blank domain passes validation and is sent (the page copy has the same line at 281) |
| TesterForm.DomainParamAsWritten | app/tester/components/QualifyForm.tsx:109 | `domain \|\| website`: agrees with the intended reading except for a domain of blanks, which is sent itself |
| TesterForm.DomainParam | app/tester/components/QualifyForm.tsx:70 | as evidently intended: the domain, or the website when the domain is blank as `validate` reads it |
| TesterForm.PassingFormSendsDomain | app/tester/components/QualifyForm.tsx:70 | with the intended reading, a form that passes validation never has a blank domain parameter |
| TesterForm.SubmissionOf | app/tester/components/QualifyForm.tsx:104-111 | the redirect carries email, the domain as written, employees and the verdict, and goes to the booking URL iff qualified |
| TesterForm.SubmissionOfIntended | app/tester/components/QualifyForm.tsx:104-111 | the corrected redirect differs only in its domain, which is never blank for a passing form |
| TesterForm.SubmissionSendsValidatedDomain | app/tester/components/QualifyForm.tsx:70 | a passing form sends the domain validation accepted iff its domain field is empty or not blank |
| TesterForm.BookingIffQualified | app/tester/components/QualifyForm.tsx:105 | the booking page iff qualified |
| TesterForm.WithInput | app/tester/components/QualifyForm.tsx:50-61 | a checkbox change sets `accept`; a text change sets exactly the field of its name, for each of the nine text inputs; any other name changes nothing |
| TesterForm.QualifyForm.constructor | app/tester/components/QualifyForm.tsx:21-38 | initial values, no errors, not submitting |
| TesterForm.QualifyForm.OnChange | app/tester/components/QualifyForm.tsx:50-61 | updates exactly the changed value |
| TesterForm.QualifyForm.Validate | app/tester/components/QualifyForm.tsx:65-74 | sets the errors of the current values and reports whether there are none |
| TesterForm.QualifyForm.OnSubmit | app/tester/components/QualifyForm.tsx:95-120 | a failing form only shows its errors; a passing one navigates to its target, with the domain as written (the page copy at lines 267-292 of `app/tester/page.tsx` is the same code) |

## Left out

- `enrichWithAPIs`, which the generic webhook route calls, is not part of the repository. `WebhookRoute.Post` takes it as a parameter.
- `enrichDomain` in `src/lib/index.ts` (lines 1-35) is one provider request with no logic of its own. It is not part of this model.
- Network requests, `AbortController`, timers and timeouts are not modelled. Replies are parameters; a request that times out is a thrown reply.
- Slack posts, console logging and the `NODE_ENV` switches are not modelled.
- `Promise.all` concurrency is not modelled. The redirect page's two lookups run one after the other.
- JavaScript doubles are modelled as `real`, with no NaN, no Infinity and no rounding. `toLocaleString` and number rendering are parameters.
- URL encoding (`URLSearchParams`, `encodeURIComponent`), `decodeURIComponent` and `hostFromUrl`'s URL parser are parameters.
- `crypto.randomUUID()` and `Date.now()` are parameters.
- Query parameters that repeat, and labels such as `__proto__` that an object literal treats specially, are not modelled.
- The prompts sent to the model and the page layout are not modelled.
- SrcLeadLib.QualifyLeadPrecedence: the model treats a missing threshold as `undefined`, which fails every comparison. A threshold stored as JavaScript `null` would compare as 0; that case is not modelled, because the schema only allows a number or nothing.
- Users.EnsureUser: Convex's `.unique()` throws when two user rows share a subject. The model requires unique subjects (and ids) instead, and preserves that.
- Users.SetMyWorkspaceByName: `.unique()` on the user's subject and on the workspace name throws when either repeats. The model requires unique subjects and unique workspace names instead.
- Users.Me: the same `.unique()` on the subject is modelled as the last matching row, which is the only one when subjects are unique.
- LeadLib.LeadCache.EnrichDomain: Redis expiry is modelled with an explicit `now`. A set with an expiry of 0 or less fails in Redis; the model leaves the cache unchanged.
- Enrich.DomainFromEmail: lower-cases ASCII letters only. JavaScript's `toLowerCase()` also lowers other letters (`x@ÄCME.de` gives `äcme.de`); the model keeps them as they are.
- Enrich.DomainFromEmailOfAddress: the round trip is stated with the same ASCII-only lowering, so it does not say what `toLowerCase()` does to other letters.
- `toLowerCase()` elsewhere (the size parser, the model's status field, host names) is modelled by the same ASCII-only lowering.
- TesterForm.WithInput: an input event under a name that is not one of the form's fields adds a key the form never reads. The model drops it, so the values are unchanged.
- AiEnrich.GenerateSummary: its error messages are only logged, so failures are modelled as an absent summary.
- SerpEval.EvaluateWithSerp: an error thrown by one request is modelled as a reply with no hits. That matches the code, which catches the error and carries on.

## Findings

| source | as written | input that shows it | evidently intended | confidence | as-written member | corrected member |
|---|---|---|---|---|---|---|
| src/lib/serp_api.ts:8 | The money pattern's first alternative, up to three digits with optional comma groups, always wins the alternation. So a plain run of digits stops after three. | "Revenue 2500000 USD" parses as 250, not 2500000 | Read the whole numeral, taking the plain-digits alternative when it is longer; the revenue evaluator takes the grammar as a parameter, so both readings are modelled | not executed | SerpParse.ParseMoneyLosesDigits | SerpParse.ParseMoneyIntendedRoundTrip |
| app/tester/components/QualifyForm.tsx:109 | The domain sent is `domain \|\| website`. A domain of spaces is truthy, so it is sent, although validation accepted the form only because the website is filled. | domain " ", website "acme.com": validation passes and " " is sent as the domain | Send the website whenever the domain is blank after trimming, as validation assumes | not executed | TesterForm.BlankDomainSent | TesterForm.SubmissionOfIntended |

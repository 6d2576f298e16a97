# CortexHub catalogue and network-status logic in Dafny

CortexHub is a catalogue web application listing apps built on the
Cortensor decentralised-inference network. Almost all of it is React
markup; this project models the few pieces of real logic in it:

- **The catalogue filter** on the home page (`Catalogue`): a stable filter
  over the catalogue entries that keeps an entry when it passes the
  category test (the entry's lower-cased category equals the selected
  category, unless "all" is selected) and the search test (an empty query
  passes; otherwise the lower-cased query occurs in the lower-cased name,
  description, some tag or author). Around it: the "N app(s) available"
  label, the empty-state view and "Clear filters".
- **The network-status summary** (`Cortensor`): how each of the three
  router reads settles, how the status, miner list and session list
  combine into one `NetworkStats` record, and the fixed demo record.
- **The network-status widget** (`NetworkWidget`): the fallback rule that
  keeps a live summary only when it reports miners and otherwise shows the
  demo record (also when the fetch rejects), the loading flag, and what the
  widget renders.
- **The app card** (`AppCard`): the first three tags plus a "+N" overflow
  badge, the default gradient, the initial letter, and the status label
  and colour maps.

Supporting modules: `Optional` (present/absent values, TypeScript's
optional fields and `null`), `Text` (lower-casing, the substring test
behind `includes`, decimal rendering of counts) and `Types` (the `App`
and `NetworkStats` records).

Strings are `seq<char>`. Lower-casing maps the ASCII letters `A`-`Z` to
`a`-`z` and leaves every other character alone; the filter's properties
rely only on lower-casing being per-character, idempotent and producing no
letter `A`-`Z`.

Behaviours of the code a reader might not expect:

- The category test lower-cases only the entry's category, not the selected
  value, so a selected value containing an upper-case letter matches
  nothing (`Catalogue.UpperCaseSelectionKeepsNothing`).
- The summary status is `status?.status || 'unknown'`, so an empty status
  string also becomes "unknown" (`Cortensor.SummaryStatus`).
- The reads are not failure-proof: a 2xx response whose body is not JSON
  makes the read reject, and with it the whole summary (see Findings).
- The router's JSON is not validated, so `RouterStatus.status` and
  `RouterStatus.health` are optional, and the status body may be `null`.

## Model

| member | source | states |
|---|---|---|
| Catalogue.FilterApps | src/app/page.tsx:19-39 | the result is no longer than the catalogue, every shown entry comes from the catalogue and passes both tests, and an empty catalogue gives an empty result |
| Catalogue.FilterIsSubsequence | src/app/page.tsx:20 | the result is a subsequence of the catalogue: catalogue order is kept and nothing is added or duplicated |
| Catalogue.FilterCounts | src/app/page.tsx:20-38 | every entry occurs in the result exactly as often as in the catalogue when it passes both tests, and not at all otherwise |
| Catalogue.FilterMembership | src/app/page.tsx:20-38 | soundness and completeness: an entry is shown if and only if it is in the catalogue and passes both tests |
| Catalogue.FilterIdentity | src/app/page.tsx:20-37 | with category "all" and an empty query the result is the whole catalogue in its original order |
| Catalogue.FilterKeepsAllPassing | src/app/page.tsx:20-38 | a list whose entries all pass both tests is returned unchanged |
| Catalogue.FilterIdempotent | src/app/page.tsx:20-38 | filtering the result again with the same query and category returns it unchanged |
| Catalogue.CategorySoundness | src/app/page.tsx:22 | with a concrete category every shown entry's lower-cased category equals the selected value |
| Catalogue.UpperCaseSelectionKeepsNothing | src/app/page.tsx:22 | the selected value is not lower-cased, so one containing an upper-case letter shows nothing |
| Catalogue.SearchSoundness | src/app/page.tsx:27-34 | with a non-empty query every shown entry has the lower-cased query inside its lower-cased name, description, some tag or author |
| Catalogue.EmptyQueryKeepsCategory | src/app/page.tsx:27-37 | an empty query skips the search: exactly the entries passing the category test are shown |
| Catalogue.MatchesQueryIffSomeField | src/app/page.tsx:29-34 | the four-way disjunction is equivalent to "some field of the list name, description, tags, author contains the query" |
| Catalogue.ResultCountLabelPlural | src/app/page.tsx:101 | the count label starts with the count followed by " app", and ends in "s available" exactly when the count is not one |
| Catalogue.ClearFilters | src/app/page.tsx:103-108 | after clearing, the clear link is hidden and the whole catalogue is shown |
| Catalogue.EmptyStateIffNoMatch | src/app/page.tsx:117-126 | the "No apps found" view appears exactly when no catalogue entry passes both tests |
| Text.ToLower | src/app/page.tsx:28-33 | lower-casing works character by character, keeps the length, leaves no upper-case letter and fixes already lower-case strings |
| Text.Includes | src/app/page.tsx:30-33 | the left-to-right scan returns true exactly when the needle occurs in the haystack at some position |
| Text.SubstringSurvivesLowering | src/app/page.tsx:28-33 | a query typed exactly as it occurs in a field is still found after both are lower-cased |
| Text.NatToDecimal | src/app/page.tsx:101 | a count renders as a non-empty string of digits without leading zero whose decimal value is the count |
| Cortensor.SettleAsWritten | src/lib/cortensor.ts:34-52 | a read resolves to its body, resolves to the fallback on a non-2xx status or a thrown fetch, and rejects exactly on a malformed body |
| Cortensor.SettleIntended | src/lib/cortensor.ts:34-52 | the intended read always resolves: to its body when there is one, otherwise to the fallback |
| Cortensor.SummaryStatus | src/lib/cortensor.ts:156 | the summary status is never empty; it is the router's status when that is a non-empty string and "unknown" otherwise |
| Cortensor.Combine | src/lib/cortensor.ts:145-158 | online if and only if a status was read with status "ok" or health "healthy"; the counts are the list lengths and so non-negative |
| Cortensor.AllReadsFailed | src/lib/cortensor.ts:152-157 | with no status and empty lists the summary is offline, zero miners, zero sessions, status "unknown" |
| Cortensor.HealthyRouterSummary | src/lib/cortensor.ts:152-157 | status "ok", three miners and one session give an online summary with those counts and status "ok" |
| Cortensor.HealthOnlyRouterSummary | src/lib/cortensor.ts:152-157 | a router reporting only health "healthy" is online while its summary status is "unknown" |
| Cortensor.Aggregate | src/lib/cortensor.ts:145-158 | with failure-proof reads the summary always resolves; its counts are those of the delivered lists, zero for a failed read, a failed status read is offline and "unknown", and a delivered status is online exactly with status "ok" or health "healthy" and carries its summary status |
| Cortensor.AggregateAsWritten | src/lib/cortensor.ts:145-158 | as written the summary rejects exactly when some read's body is malformed, and otherwise equals the summary of the intended reads |
| Cortensor.MalformedStatusBodyDiscardsLiveMiners | src/lib/cortensor.ts:48 | a malformed status body next to three miners rejects as written but gives a three-miner summary when reads never reject |
| NetworkWidget.SelectStats | src/components/NetworkStats.tsx:14-20 | the stored summary always reports miners; it is the live summary when that reports miners and the mock summary when it reports none or the fetch rejected |
| NetworkWidget.SelectStatsStable | src/components/NetworkStats.tsx:17 | applying the fallback to its own result changes nothing |
| NetworkWidget.InitialStateShowsSkeleton | src/components/NetworkStats.tsx:8-9 | on mounting the widget holds no summary and shows the loading placeholder |
| NetworkWidget.BeginFetch | src/components/NetworkStats.tsx:13 | starting a fetch sets the loading flag and keeps the held summary |
| NetworkWidget.FinishFetch | src/components/NetworkStats.tsx:17-21 | a settled fetch clears the loading flag and stores the fallback rule's selection from the outcome, a summary with miners |
| NetworkWidget.FetchCycle | src/components/NetworkStats.tsx:12-22 | after a complete fetch the widget is not loading and holds the fallback rule's selection from that fetch's outcome, which has a positive miner count |
| NetworkWidget.RunCyclesLastWins | src/components/NetworkStats.tsx:24-26 | after fetches completing in order, the widget holds the selection made from the last outcome only |
| NetworkWidget.RunCyclesDisplayable | src/components/NetworkStats.tsx:8-21 | from mounting on, the held summary, if any, reports miners, and after at least one fetch the widget is not loading |
| NetworkWidget.NoMinersShowsDemo | src/components/NetworkStats.tsx:15-17 | when the miner read fails or returns no miners the mock summary is shown, whatever the other reads return and in both read versions |
| NetworkWidget.Render | src/components/NetworkStats.tsx:30-79 | the placeholder shows exactly while loading, nothing shows without a summary, and the status row has the green dot and says "Network Online" exactly when online, the red dot and "Network Offline" otherwise, and shows the demo badge exactly when the status is "demo" |
| NetworkWidget.DemoBadgeAfterFetch | src/components/NetworkStats.tsx:79 | after a fetch the demo badge shows exactly when the fetch rejected, reported no miners, or the router itself reported status "demo" |
| NetworkWidget.OnlineLabelAfterFetch | src/components/NetworkStats.tsx:46-48 | after a fetch the label is "Network Offline" exactly when a live summary with miners reported the router offline |
| AppCard.ShownTags | src/components/AppCard.tsx:68 | the shown tags are the first min(3, number of tags) tags, in order |
| AppCard.HiddenTagCount | src/components/AppCard.tsx:77-83 | there is an overflow count exactly when there are more than three tags, and it is the number of tags beyond the third |
| AppCard.TagsPartition | src/components/AppCard.tsx:68-83 | the shown tags followed by the rest are the tag list, and shown plus hidden count is the number of tags |
| AppCard.OverflowBadgeReadsHidden | src/components/AppCard.tsx:77-83 | the overflow badge appears exactly with more than three tags and reads "+" then the decimal number of hidden tags |
| AppCard.CardGradient | src/components/AppCard.tsx:29-32 | an absent or empty gradient gives the default gradient, any other is used unchanged, and the result is never empty |
| AppCard.CardInitial | src/components/AppCard.tsx:35 | the initial is at most one element long and is a prefix of the name, one element exactly when the name is non-empty |
| AppCard.StatusOfLabel | src/components/AppCard.tsx:19-23 | a status read back from a label has that label |
| AppCard.StatusOfColor | src/components/AppCard.tsx:13-17 | a status read back from colour classes has those classes |
| AppCard.StatusBadgeRoundTrip | src/components/AppCard.tsx:13-23 | each status is read back from its own label and from its own colour classes |
| AppCard.StatusBadgeInjective | src/components/AppCard.tsx:13-23 | distinct statuses have distinct labels and distinct colour classes |
| AppCard.ViewCard | src/components/AppCard.tsx:29-83 | a card uses the entry's gradient or the default, the name's initial, and shows the first min(3, n) of the entry's n tags, an overflow badge exactly when tags are hidden reading "+" and the number hidden, and a status badge whose label and colour identify the entry's status |

## Findings

| source | as written | input that shows it | evidently intended | confidence | as-written member | corrected member |
|---|---|---|---|---|---|---|
| src/lib/cortensor.ts:48 | `return response.json()` inside `try` is not awaited, so a body that fails to parse rejects past the `catch` (the same at lines 71 and 94), and `Promise.all` in `getNetworkStats` rejects | a 2xx status response whose body is not JSON, with three miners and one session | the read resolves to `null` (or `[]`), as the `catch` does for every other failure, and the live three-miner summary is shown | medium, not executed | Cortensor.MalformedStatusBodyDiscardsLiveMiners | Cortensor.Aggregate |

`NetworkWidget.NoMinersShowsDemo` holds for both versions.

## Left out

- The HTTP requests, the bearer token and router URL from the environment, and `console.warn`: I/O. Each read is represented by how it ended (`Cortensor.Response`).
- `getAppRecommendation`: it builds a prompt and posts it; the response is opaque.
- The `setInterval` polling and overlapping fetches: timer and concurrency behaviour. `NetworkWidget.RunCycles` models fetches completing one after another.
- The submit page, the layout, the search bar and the category chips: markup and input wiring; the chips only pass a category id to the filter.
- The app detail page and the loading of the bundled JSON catalogue.
- Text.ToLower: maps only the ASCII letters, one character to one character. `toLowerCase` applies Unicode's full default case mapping, which is neither per-character nor length-preserving: U+0130 becomes two characters, and a capital sigma becomes a final or a non-final small sigma depending on its position in the word.
- Text.SubstringSurvivesLowering: relies on lower-casing being per-character. Under the full Unicode mapping it fails: a name "ΑΣΒ" lower-cases to "ασβ" but the query "ΑΣ" to "ας", so the search does not find the exactly typed query.
- Cortensor.Combine: assumes the miner and session bodies are arrays of records and the status fields are strings. Other JSON shapes are not modelled: a `null` list body makes `length` throw so the summary rejects, a string body's length is counted as miners or sessions, a truthy non-string `status` passes through `||` unchanged, while `0`, `false` or `null` give "unknown".
- AppCard.CardInitial: names are sequences of Unicode scalar values, whereas `charAt(0)` returns the first UTF-16 code unit; for a name starting with a character outside the Basic Multilingual Plane (an emoji, say) the source shows a lone surrogate and the model the whole character.
- The `Category` record (id, name, icon): only its id reaches the filter, as the selected category string.
- React hooks, memoisation, styling and routing.

# Kalshi daily research reports — a Dafny model

The repository produces a daily research report for each open Kalshi
prediction-market event and keeps snapshot files of the events and markets.
Four programs share that work:

- kalshi_ddgs_rag (the package: `main`, `search_utils`, `summarization`)
  and daily_report.py are synchronous. For each event ticker they skip the
  ticker when a report for today already exists. Otherwise they fetch the
  event and describe its markets. They ask the chat model for search
  queries, then search DuckDuckGo, scrape the hits and summarise the
  articles. Finally they join the summaries into one report and insert it
  into the reports collection. daily_report.py first samples the events by
  category.
- daily_report_generation.py does the same work concurrently, with retry
  counters around the event fetch and the report build.
- scrape-kalshi.py pages through today's open events. It reconciles them
  against yesterday's snapshot: previous events are kept or retired,
  vanished markets are retired, and report ids are backfilled. It then
  writes the four snapshot lists.

The model keeps the bookkeeping around the services and leaves the services
themselves as inputs:

- the search engine is a function from (query, max results) to hits, or
  None when the call raises;
- a page fetch with paragraph extraction is a function from a URL to the
  text, or None;
- the chat model is a function from a prompt to one of three outcomes: the call raises, the message has no content (`None`), or a text;
- the Kalshi endpoints are functions from a ticker or a cursor, and from an
  attempt number, to a response, or None;
- `random.sample` is a sampler that draws the requested number of elements
  from distinct positions;
- completion order under asyncio is a rearrangement given as an input.

The reports collection is a `Store` class whose `records` field is a
sequence of (timestamp, ticker, report) records. `Write` appends a record,
and `Read` returns the report of the first record with the key.

Modules:

- `Common`: Option, Python slicing, subsequences, filter-map, flatten,
  bounded retry, sampler.
- `PyText`: `str.strip`, `splitlines`, `split("\n")`, `join`, `lower`,
  integer rendering.
- `Search`: de-duplication of hits; the three article collectors.
- `Prompts`: market descriptions, query post-processing, article digest,
  report join.
- `ReportStore`: the reports collection.
- `Pipeline`: the per-query and per-event report builders.
- `Kalshi`: events and markets.
- `Sampling`: stratified sampling.
- `DailyMain`: the synchronous main loops.
- `GenerationMain`: the concurrent main.
- `SnapshotData`: timestamps, pagination, report backfill, market summary.
- `Reconcile`: `scrape_kalshi_events`.

Three copies of the same routine are modelled once when they agree:

- `search_ddgs` exists in the package and in daily_report.py;
- `scrape_urls` exists in the same two places;
- the description, digest and join code exists in the package and in
  daily_report.py.

Where daily_report_generation.py differs, it gets its own member (the
`Gen*`/`Step*` members).

## Model

| member | source | states |
|---|---|---|
| Common.PySlice | kalshi_ddgs_rag/main.py:17 | `events[K:K+70]` for any integer K, as Python clamps it: a contiguous run of the list no longer than the bounds' distance |
| Common.PyPrefix | kalshi_ddgs_rag/search_utils.py:17 | `s[:k]`: the first min(k, len) elements, and no more than the list |
| Common.FirstValue | daily_report.py:225-234 | a bounded retry yields a value iff one of the first `max` attempts succeeds |
| Common.FirstSuccess | daily_report_generation.py:329-353 | the first successful attempt below the bound, with all earlier attempts failed; None iff every attempt failed |
| Common.Retry | daily_report.py:225-234 | the retry loop stops at the first success, makes at most `max` attempts, returns the value of the last attempt made, and makes all of them when each fails |
| PyText.Strip | kalshi_ddgs_rag/summarization.py:98 | `str.strip`: the result has no outer whitespace, is a contiguous run of the input, and only whitespace was cut on either side |
| PyText.StripUnique | kalshi_ddgs_rag/summarization.py:98 | any cut of a text into whitespace, a core without outer whitespace, and whitespace has that core as its stripped form |
| PyText.SplitLinesJoin | kalshi_ddgs_rag/summarization.py:53 | `splitlines` undoes joining with "\n" when no piece is empty or holds a line break |
| PyText.SplitNewlineJoin | daily_report_generation.py:188-189 | `split("\n")` undoes joining with "\n" when no piece holds a "\n" |
| PyText.CleanLines | kalshi_ddgs_rag/summarization.py:53 | the comprehension keeps no more lines than it is given, each non-empty and without outer whitespace |
| PyText.Lower | scrape-kalshi.py:175 | `str.lower` on an ASCII ticker: same length, character by character, no upper-case ASCII letter left |
| PyText.NatToStringRoundTrip | kalshi_ddgs_rag/summarization.py:97 | the number in a `# Research Report {i+1}` header reads back as that number |
| PyText.NatToStringInjective | kalshi_ddgs_rag/summarization.py:60 | different article or report numbers render differently |
| Search.FirstIndices | kalshi_ddgs_rag/search_utils.py:12-16 | the positions kept are increasing, each the first hit of its truthy href, and every such position is kept |
| Search.SeenDecidesFirst | kalshi_ddgs_rag/search_utils.py:14 | `href not in seen` holds exactly when the hit is the first with that href |
| Search.Dedup | kalshi_ddgs_rag/search_utils.py:11-16 | the `seen`/`deduped` loop returns exactly the first hit of each truthy href, in the engine's order |
| Search.DedupDistinct | kalshi_ddgs_rag/search_utils.py:13-16 | every kept hit has a truthy href and no two kept hits share one |
| Search.DedupCovers | kalshi_ddgs_rag/search_utils.py:12-16 | every truthy href among the hits is represented after de-duplication |
| Search.DedupIsSubsequence | kalshi_ddgs_rag/search_utils.py:12-16 | the kept hits are a subsequence of the engine's hits (first-seen order) |
| Search.SearchDdgs | kalshi_ddgs_rag/search_utils.py:8-17 | asks for `2*num_urls` hits; None when the engine raises, else the de-duplicated hits cut to `num_urls` |
| Search.SearchDdgsResult | daily_report.py:87-96 | the result has at most `num_urls` hits, each with a truthy href, pairwise distinct hrefs, in the engine's order |
| Search.Step2SearchDdgs | daily_report_generation.py:193-211 | the same de-duplication with no cut to `num_urls` |
| Search.Visit | kalshi_ddgs_rag/search_utils.py:24-44 | an article is produced iff the href is truthy, the fetch succeeds and the text length lies in [200, 100000]; it carries the hit's title, body, href and the text |
| Search.ScrapeUrls | kalshi_ddgs_rag/search_utils.py:19-45 | the loop over `results[:num_urls]` returns the visits that succeeded, in order; a failed URL only skips itself |
| Search.ScrapeUrlsResult | daily_report.py:98-124 | at most min(num_urls, len) articles, each inside the length guard, each with the href of the hit it came from, in hit order |
| Search.FetchParse | daily_report_generation.py:224-254 | an article iff the href is truthy and http(s), the fetch succeeds and the text is inside the length guard |
| Search.Quota | daily_report_generation.py:260-265 | the loop stops after `num_urls` articles, and after one article when `num_urls` < 1 (the test follows the append) |
| Search.Step3Collected | daily_report_generation.py:258-265 | the articles kept are the first accepted results in completion order, at most the quota, and all of them when the quota is not met |
| Search.Step3ScrapeUrls | daily_report_generation.py:214-274 | the `as_completed` loop with `break` returns exactly those articles for the given completion order |
| Search.Step3OrderIndependent | daily_report_generation.py:258-265 | for any completion order the articles are drawn from the accepted ones, and are all of them when the quota is not met |
| Search.Step3Articles | daily_report_generation.py:225-254 | every collected article comes from an http(s) URL and has text inside the length guard |
| Prompts.RunOpenAI | daily_report.py:71-81 | the reply stripped of its outer whitespace (the reply itself when it has none); "" when the call raises or the content is None |
| Prompts.GetMarketDescriptions | kalshi_ddgs_rag/summarization.py:7-37 | the `desc +=` loop builds exactly the description lines, one market or many |
| Prompts.SingleDescriptionOpensWithEvent | kalshi_ddgs_rag/summarization.py:10-22 | a single-market description opens with `Event title: <title>` |
| Prompts.MarketHeadersInOrder | kalshi_ddgs_rag/summarization.py:24-36 | with zero or several markets, the block header lines starting `# Market ` are `# Market 1` to `# Market n`, in market order, and no other line of the blocks starts so |
| Prompts.MarketHeadersInText | kalshi_ddgs_rag/summarization.py:24-36 | the same holds of the description text's own "\n"-separated lines when no rendered field holds a newline |
| Prompts.SecondaryRulesIffTruthy | kalshi_ddgs_rag/summarization.py:19-20 | a `Secondary rules:` line appears for a market exactly when its `rules_secondary` is truthy, in market order |
| Prompts.GenGetMarketDescriptions | daily_report_generation.py:118-156 | the concurrent script's f-strings build exactly its description lines; None (KeyError) exactly when the one market has no `rules_secondary` key |
| Prompts.GenSingleSecondaryLines | daily_report_generation.py:135-136 | the concurrent single-market description has a `Secondary rules:` line exactly when the field is a non-empty string |
| Prompts.GenMultiHasNoSecondary | daily_report_generation.py:148-153 | in the concurrent multi-market description no line starts with `Secondary rules:`, whatever the markets hold |
| Prompts.ArticleDigest | kalshi_ddgs_rag/summarization.py:57-65 | the `all_articles +=` loop builds exactly the numbered article blocks |
| Prompts.DigestNumberedInOrder | kalshi_ddgs_rag/summarization.py:58-65 | among the digest's block lines, those starting `# Article` are `# Article 1..n` and those starting `Source URL:` are the articles' URLs, both in list order |
| Prompts.DigestNumberedInText | kalshi_ddgs_rag/summarization.py:58-65 | the same holds of the digest text's own "\n"-separated lines when no article field holds a newline |
| Prompts.GenArticleDigest | daily_report_generation.py:286-292 | the concurrent digest has no outer whitespace |
| Prompts.GenDigestTrimsOnlyTheEnd | daily_report_generation.py:286-292 | stripping the concurrent digest only drops its trailing whitespace, and leaves it empty exactly when there are no articles |
| Prompts.GenerateSearchQueries | kalshi_ddgs_rag/summarization.py:53 | every query is non-empty without outer whitespace |
| Prompts.CleanLinesInOrder | kalshi_ddgs_rag/summarization.py:53 | the queries are the stripped lines, blank ones removed, in the reply's order |
| Prompts.QueriesRoundTrip | kalshi_ddgs_rag/summarization.py:52-53 | a reply listing clean queries one per line yields exactly those queries |
| Prompts.Step1Queries | daily_report_generation.py:188-189 | every query of the concurrent post-processing is non-empty without outer whitespace |
| Prompts.Step1RoundTrip | daily_report_generation.py:188-189 | the concurrent post-processing recovers the same query list from such a reply |
| Prompts.BlankReplyNoQueries | kalshi_ddgs_rag/summarization.py:52-53 | a blank reply, which is what a failed model call returns, yields no queries in either variant |
| Prompts.CombinedReport | kalshi_ddgs_rag/summarization.py:97-98 | the joined report has no outer whitespace |
| Prompts.CombinedReportShape | kalshi_ddgs_rag/summarization.py:97-98 | stripping only drops trailing whitespace; the report is empty iff there are no summaries, and otherwise opens with `# Research Report 1` |
| Prompts.ReportBlocksInOrder | kalshi_ddgs_rag/summarization.py:97 | one more summary adds a blank line and the next numbered block after the previous ones |
| Prompts.ReportHeadersDistinct | daily_report_generation.py:345 | blocks at distinct positions carry distinct headers |
| ReportStore.Lookup | daily_report.py:60-65 | the read is None iff no record has the key |
| ReportStore.LookupFirst | kalshi_ddgs_rag/db.py:12-16 | a found report is that of the first record with the key |
| ReportStore.LookupAppend | daily_report.py:53-65 | after inserts, the first write of a key still decides what is read |
| ReportStore.Store.Read | daily_report.py:60-65 | `read_from_db` returns the first matching record's report |
| ReportStore.Store.Write | daily_report.py:53-58 | `write_to_db` appends one record without looking for an existing one |
| ReportStore.ReadAfterWrite | kalshi_ddgs_rag/db.py:5-16 | after a write the key reads the written report unless it was already present; no other key's read changes |
| Pipeline.ProcessQuery | daily_report.py:202-207 | search, scrape, summarise for one query; None only when the search raises |
| Pipeline.GetDdgsReport | kalshi_ddgs_rag/summarization.py:88-98 | the loop over the queries, one summary and one article list per query, then the join |
| Pipeline.SyncReportAborts | daily_report.py:209-219 | a query whose search raises makes the whole report raise |
| Pipeline.SyncReportCollects | kalshi_ddgs_rag/summarization.py:92-98 | when every query succeeds, the report is the join of their summaries in query order and the contents are theirs in the same order |
| Pipeline.SyncReportFailsOnlyOnSearch | daily_report.py:202-219 | the report fails iff some query's search raises |
| Pipeline.SyncQueryFailsOnlyOnSearch | daily_report.py:202-207 | one query's `process_query` raises iff its search raises; a failed fetch or model call still gives a result |
| Pipeline.SyncReportShape | kalshi_ddgs_rag/summarization.py:92-98 | a report has as many article lists as queries, entry i belongs to query i, and it is "" exactly when there is no query |
| Pipeline.SyncFailedQueryCallGivesEmptyReport | daily_report.py:161-175 | a failed query-generation call gives the empty report with no contents |
| Pipeline.DailyQueryArticles | daily_report.py:202-207 | without a filter each query keeps at most five articles with distinct URLs inside the length guard |
| Pipeline.Step1GenerateQueries | daily_report_generation.py:173-191 | None iff the model call raises or its content is None (stripping None raises), otherwise the post-processed queries |
| Pipeline.Step4Summarization | daily_report_generation.py:277-306 | the model's unstripped reply to the stripped digest; None iff the call raises; a None content is passed on and renders as `None` |
| Pipeline.GenProcessQuery | daily_report_generation.py:310-318 | steps 2 to 4 for one query, computing `GenQuery` |
| Pipeline.GenQueryOutcome | daily_report_generation.py:310-318 | a query's chain fails iff its search or its summary call raises; a None content gives the summary `None` and the chain succeeds |
| Pipeline.GenAttemptRun | daily_report_generation.py:333-348 | one attempt: queries, per-query results, the `zip` unpack (which fails on no queries), the colon-headed join |
| Pipeline.GenAttemptFails | daily_report_generation.py:333-353 | an attempt fails iff the one market lacks `rules_secondary`, the query call raises or has no content, there are no queries, or some query's search or summary call raises |
| Pipeline.GenAttemptShape | daily_report_generation.py:341-348 | a successful attempt has one article list per query and a non-empty report opening with `# Research Report 1:` |
| Pipeline.GenGetDdgsReport | daily_report_generation.py:322-353 | at most `MAX_RETRIES` = 5 attempts; the first success is returned, and None after five failures |
| Pipeline.RetriedReportFound | daily_report_generation.py:329-348 | the retried report is that of the first successful attempt |
| Pipeline.RetriedReportNone | daily_report_generation.py:349-353 | five failed attempts give None |
| Pipeline.GenQueryArticles | daily_report_generation.py:214-274 | each query of an attempt keeps at most five articles from http(s) URLs, inside the length guard |
| Sampling.CategoriesFacts | daily_report.py:241-243 | the dict's keys: every category of the input, once each, in order of first appearance |
| Sampling.OfCategoryFacts | daily_report.py:241-243 | the list for a category holds input events of that category, and is empty iff none exists |
| Sampling.GroupByCategory | daily_report.py:241-243 | the grouping loop builds exactly the dict's values in key order |
| Sampling.GroupsPartition | daily_report.py:241-244 | the groups together hold every event exactly once |
| Sampling.SortByLen | daily_report.py:245 | the same lists, ordered by size |
| Sampling.InsertByLenPermutes | daily_report.py:245 | inserting a list into the sorted lists adds it once and keeps every other list as often |
| Sampling.SortByLenPermutes | daily_report.py:245 | the sorted lists are a permutation of the input lists |
| Sampling.SortByLenFlatten | daily_report.py:245 | sorting keeps every event, each as often |
| Sampling.Share | daily_report.py:247 | `max(1, remaining // left)`, with `//` as Dafny's `/` (floor division for a positive divisor), is at least one |
| Sampling.TakeShares | daily_report.py:246-250 | the loop concatenates the takes of the lists in size order |
| Sampling.StratifiedSample | daily_report.py:236-255 | the input itself when `len(events) <= target`, else the per-category takes |
| Sampling.StepsInvariant | daily_report.py:244-250 | after each step `len(sampled) + remaining == target` |
| Sampling.TakeFacts | daily_report.py:248-249 | a category gives min(len, share) of its own events, without repeats |
| Sampling.StratifiedWithinInput | daily_report.py:236-255 | the sample holds each event at most as often as the input |
| Sampling.StratifiedCovers | daily_report.py:246-250 | every category of the input is represented in the sample |
| Sampling.CategoryRepresented | daily_report.py:246-250 | a given category of the input has an event in the sample |
| Sampling.StratifiedAccount | daily_report.py:244-250 | for a sampled run, the contributions and what remains add up to the target |
| Sampling.StepAsWrittenAgrees | daily_report.py:248-250 | the loop body as written raises iff the list fits its share, and otherwise matches the corrected body |
| Sampling.StepsAsWrittenAgrees | daily_report.py:246-250 | where the code as written gets through, it agrees with the corrected loop |
| Sampling.StepsAsWrittenRaises | daily_report.py:248-250 | the code as written raises iff some list fits its share |
| Sampling.AsWrittenRaisesOnSmallCategory | daily_report.py:248-250 | a concrete input on which the code as written raises |
| Sampling.CorrectedKeepsSmallCategory | daily_report.py:248-250 | on that input the corrected loop takes both categories whole |
| DailyMain.Tickers | kalshi_ddgs_rag/main.py:18 | one ticker per event, in order |
| DailyMain.ProcessTickers | kalshi_ddgs_rag/main.py:17-34 | the loop leaves the store as the run over the tickers: skip a truthy stored report, skip no markets, insert the report, swallow a failure |
| DailyMain.PackageMain | kalshi_ddgs_rag/main.py:8-34 | the loop over the window `events[K:K+70]` under one timestamp |
| DailyMain.DailyReportMain | daily_report.py:261-287 | for the script's unfiltered pipeline and with the corrected sampler (see Findings): raises with no write iff all five fetches fail; otherwise runs the loop over the stratified sample |
| DailyMain.RunAppends | kalshi_ddgs_rag/main.py:17-34 | a run only appends, at most one record per ticker, each under the run's timestamp, for a visited ticker, holding that ticker's report |
| DailyMain.RunSplit | daily_report.py:269-287 | visiting a then b is one run over a + b |
| DailyMain.RunReads | kalshi_ddgs_rag/main.py:19-32 | an existing report stays readable; otherwise a visited ticker reads its outcome (even ""), and an unvisited one reads None |
| DailyMain.RunSkipsTruthy | kalshi_ddgs_rag/main.py:19-21 | a ticker with a truthy stored report is never written |
| DailyMain.FailingTickerIgnored | kalshi_ddgs_rag/main.py:33-34 | a failing ticker writes nothing and the run continues as if it were absent |
| DailyMain.EmptyReportRewritten | kalshi_ddgs_rag/main.py:19-32 | a stored empty report is falsy: the ticker is written again, while reads still return the first, empty one |
| DailyMain.RunFixed | daily_report.py:271-273 | a run over settled tickers changes nothing |
| DailyMain.RunIdempotent | daily_report.py:269-287 | a second run over the same tickers inserts nothing, unless an empty report is involved |
| DailyMain.WindowRun | kalshi_ddgs_rag/main.py:15-17 | one run inserts at most 70 records, each under the run's timestamp and for a ticker of the window |
| GenerationMain.FetchFromFirst | daily_report_generation.py:413-427 | `fetch_event` answers with the event of the first of ten requests that does not raise, and None when that answer's "event" is null or all ten raise |
| GenerationMain.FetchFromFound | daily_report_generation.py:413-427 | an event `fetch_event` returns is the answer of one of the ten requests |
| GenerationMain.FetchEventLoop | daily_report_generation.py:413-427 | the `while trials < MAX_TRIALS` loop returns what `fetch_event` is specified to |
| GenerationMain.ScheduleTasks | daily_report_generation.py:404-437 | the scheduling loop creates exactly the schedule's tasks |
| GenerationMain.ScheduleSound | daily_report_generation.py:406-436 | every task is for a kept ticker with no stored report; it carries the fetched event, which has one to six markets |
| GenerationMain.ScheduleComplete | daily_report_generation.py:406-436 | a ticker gets a task iff it is kept, has no stored report (`is not None`) and its fetched event has one to six markets |
| GenerationMain.NullEventSkipsTicker | daily_report_generation.py:417-433 | a ticker whose first request answers with a null "event" gets no task, whatever later requests would answer |
| GenerationMain.GuardedProcess | daily_report_generation.py:398-402 | a task appends its record when its report is built, and nothing when all attempts fail |
| GenerationMain.RunTasks | daily_report_generation.py:398-402 | the tasks, in completion order, append exactly their records |
| GenerationMain.GenerateReports | daily_report_generation.py:377-440 | the run appends exactly `Writes` for the sampled tickers and the completion order, with every outcome awaited |
| GenerationMain.TaskWriteShape | daily_report_generation.py:398-402 | an inserted record is non-empty, stripped, opens with `# Research Report 1` and carries the run's timestamp and the event's ticker |
| GenerationMain.WritesSound | daily_report_generation.py:377-440 | every inserted record has a non-empty report under the run's timestamp, from a ticker of the input with no stored report |
| GenerationMain.NoRewrite | daily_report_generation.py:406-410 | when the endpoint answers with the requested ticker, no record is inserted for a key already present |
| GenerationMain.WritesOrderFree | daily_report_generation.py:440 | which records are inserted does not depend on the completion order |
| GenerationMain.AsWrittenPrefix | daily_report_generation.py:440 | the run as written inserts an initial part of the corrected run's records, including all that completed before the first failure |
| GenerationMain.AsWrittenLosesWrites | daily_report_generation.py:440 | a failed task that completes before a successful one makes the run as written lose that write |
| GenerationMain.AsWrittenAgrees | daily_report_generation.py:440 | without failures the run as written and the corrected run insert the same records |
| SnapshotData.GetTimestamps | scrape-kalshi.py:61-70 | exactly three stamps, newest first: today, yesterday, the day before |
| SnapshotData.PagesChain | scrape-kalshi.py:92-109 | the pages read form a cursor chain from the first request, and stop early only on a falsy cursor or a failed request |
| SnapshotData.FetchAllEvents | scrape-kalshi.py:72-112 | the pagination loop returns the page batches concatenated in order |
| SnapshotData.Backfill | scrape-kalshi.py:170-177 | the loop over the stamps computes the backfilled reports |
| SnapshotData.BackfillFacts | scrape-kalshi.py:170-177 | existing entries are never overwritten; a day is added iff it was missing and has a stored report, with value `ddgs_<lower ticker>_<day>` |
| SnapshotData.BackfillStable | scrape-kalshi.py:231-238 | a backfill over days all present or unreported changes nothing |
| SnapshotData.BackfillIdempotent | scrape-kalshi.py:341-348 | backfilling twice is backfilling once |
| SnapshotData.Summarize | scrape-kalshi.py:206-219 | the loop over the refetched markets computes the summary |
| SnapshotData.SummaryFacts | scrape-kalshi.py:206-219 | None iff there are no markets; resolved iff no market is active or initialized; has-resolved iff some other market settled yes/no; earliest open and latest close are attained bounds |
| Reconcile.SimpleFacts | scrape-kalshi.py:132-134 | an event takes part iff it is listed and has fewer than six markets |
| Reconcile.PlaceFacts | scrape-kalshi.py:160-240 | kept iff still listed; dropped iff the refetched details lack markets; raises iff all three refetches fail or the markets are empty; kept and retired events are backfilled, and a retired one gets its markets' summary |
| Reconcile.PlaceEvent | scrape-kalshi.py:160-240 | the refetch loop and the branches place one previous event |
| Reconcile.SortFacts | scrape-kalshi.py:160-240 | the loop succeeds iff no event raises; then the kept events are the still-listed ones and the retired ones are appended to the resolved list, both in order |
| Reconcile.SortPrevious | scrape-kalshi.py:160-240 | the loop over the previous events computes that partition |
| Reconcile.FirstIndex | scrape-kalshi.py:306 | `next(...)`: the first market with the ticker, None when there is none |
| Reconcile.UpdateMarkets | scrape-kalshi.py:268-321 | the loop over one event's markets updates the books as `MarketsFrom` says |
| Reconcile.UpdateCurrent | scrape-kalshi.py:243-321 | the loop over the listed events updates the books as `EventsFrom` says |
| Reconcile.StepFacts | scrape-kalshi.py:270-321 | one market step keeps the events and the previous tickers, and adds the ticker iff the market is active |
| Reconcile.MarketsFacts | scrape-kalshi.py:268-321 | an event's markets add exactly its active tickers, in order |
| Reconcile.EventsFacts | scrape-kalshi.py:243-321 | the new listed events follow the kept ones in listing order; the active markets are exactly the listed active ones; the previous tickers are kept |
| Reconcile.EventsKeyed | scrape-kalshi.py:275-301 | every new market carries exactly one price snapshot, under the given key |
| Reconcile.RetireVanished | scrape-kalshi.py:323-329 | the loop appends the vanished markets to the resolved list |
| Reconcile.VanishedFacts | scrape-kalshi.py:323-329 | a market is retired iff it is a previous market whose ticker is not final, and only its resolution date changes, to today |
| Reconcile.BackfillRecent | scrape-kalshi.py:331-348 | the loop over the resolved events backfills the recently closed ones |
| Reconcile.RecentKeeps | scrape-kalshi.py:331-348 | only recently closed events change, only in their reports, no entry is overwritten, and only ids of stored reports are added |
| Reconcile.ScrapeKalshiEvents | scrape-kalshi.py:115-360 | list the events, reconcile, return the four lists, or None when the run raises |
| Reconcile.ReconciledEvents | scrape-kalshi.py:160-265 | active events: the still-listed previous ones, then the new listed ones; resolved events: the old ones, then the retired ones, recent ones backfilled |
| Reconcile.ReconciledMarkets | scrape-kalshi.py:268-321 | the active markets are exactly the active markets of the listed events, and each new one is priced once, under today's stamp |
| Reconcile.ReconciledRetiredMarkets | scrape-kalshi.py:323-329 | the old resolved markets stay in front; the appended ones are previous markets missing from the active ones, stamped today; and every previous market missing from the active ones is appended, stamped today |
| Reconcile.AsWrittenKeysOldestStamp | scrape-kalshi.py:300 | as written, every new market is priced under the stamp of two days before today |
| Reconcile.FirstRunAsWrittenRaises | scrape-kalshi.py:300 | a first run over one event with one active market raises as written, and writes the event and the market with today's price when corrected |

## Left out

- Network, model and database calls are inputs:
  - DuckDuckGo search, `requests`/`aiohttp` page fetches, BeautifulSoup paragraph extraction;
  - the chat model;
  - the Kalshi REST endpoints, GitHub raw downloads;
  - pymongo.

  Their behaviour is whatever those functions return.
- kalshi_ddgs_rag/events.py is not part of this model. Its `fetch_sampled_events` gives the package's `main` its event list, which is an input here; config.py and openai_utils.py are represented by the constants and by `Prompts.RunOpenAI`.
- Prompt wording is not modelled; a prompt is identified by its inputs.
- PyText.Lower: lowers ASCII letters only. Python's `str.lower` also lowers other Unicode letters and can change the length ('İ' becomes two code points); Kalshi tickers are ASCII.
- Prompts.MarketHeadersInOrder: stated over the list of block lines. A title, rule or other field holding a "\n" adds lines to the rendered text, and such a line may itself start with `# Market `; Prompts.MarketHeadersInText states the text-level property when no field holds one.
- Prompts.DigestNumberedInOrder: stated over the list of block lines. Article text is paragraphs joined with "\n" (kalshi_ddgs_rag/search_utils.py:35), so the rendered digest has more lines, which may start with `# Article ` or `Source URL: `; Prompts.DigestNumberedInText states the text-level property when no field holds a newline.
- Market fields other than `rules_secondary` are read by subscript and always present; a market dict lacking one of them (which raises KeyError in the source) is not modelled.
- Log lines, `print`, `time.sleep` and other back-off waits are left out.
- asyncio semaphores, `to_thread` and pool limits are left out. Concurrency appears only as a completion order.
- GenerationMain.ScheduleTasks: reads every stored report against the store as it was when scheduling began. In the source, tasks created earlier may already have written while later tickers are checked.
- GenerationMain.GenerateReports: the report each task inserts is related to the retried pipeline through the `Builds` assumption on the services; the pipeline is not re-run inside the task.
- Pipeline.GenProcessQuery: takes the completion order of a query's page fetches from the services, assumed by `OrderOnly` to be a rearrangement of the hits.
- daily_report_generation.py's `fetch_current_events` retries forever; the model takes the list it eventually returns.
- SnapshotData.FetchAllEvents: reads at most `fuel` pages. The source loops while the cursor is truthy, which need not end.
- scrape-kalshi.py's refetch loop has a path that loops forever. A 200 response whose `"event"` is null neither returns nor counts a trial (a missing key raises KeyError, which counts one). This path is not modelled: the refetch oracle answers None or an event for each attempt.
- Market prices are floating point; a price is whatever the `price` input gives for a market.
- Datetime parsing and formatting are replaced by integer days. A stamp is whatever the `stamp` input gives for a day. Recency compares a closing day with `today - 5`, not the exact instant.
- The descriptive event and market fields copied into the snapshot are not modelled. These are titles, `bing_reports`, and the open and close times of new markets. The quote fields of `QuoteKeys` are a map.
- Several previous markets with the same ticker: only the first one (`next(...)`) is refreshed, as in the source.
- Reconcile.MarketStep: the dict objects shared between `previous_markets` and `final_markets` are modelled as values. This differs when a known market is listed active twice: the source appends the same dict twice, so both entries show the last refresh, while the model appends two values, the first showing only the first refresh.
- Writing the four JSON files and `push_to_github_repo` (scrape-kalshi.py:363-406) are left out.
- The package is inconsistent as shipped and is modelled without repair:
  - summarization.py imports `filter_contents`, which search_utils.py does not define. It is the `filter` service of `Pipeline.SyncServices`, assumed only to exist; daily_report.py uses no filter.
  - db.py, events.py, main.py, openai_utils.py, search_utils.py and summarization.py import `log`, which utils.py does not define. With the missing `filter_contents`, the package cannot be imported at all: DailyMain.PackageMain models code that cannot run as shipped.
- Behaviours that raise are modelled as `None` results, as the source behaves, and are not reported as findings:
  - `"markets" not in None` after three failed refetches;
  - formatting the close time of an event with no markets;
  - a stored market without `market_price` that is listed again.

## Findings

| source | as written | input that shows it | evidently intended | confidence | as-written member | corrected member |
|---|---|---|---|---|---|---|
| daily_report.py:248 | `take = len(lst)` when a category fits its share, then `sampled += take` adds an int to a list and raises TypeError | more events than the target with a category no larger than its share. Example: two events of two categories with target 1, or 200 events of "a" and 1 of "b" with target 200 | take the whole list: `take = lst` | not executed | Sampling.StepsAsWrittenRaises, Sampling.AsWrittenRaisesOnSmallCategory | Sampling.StratifiedSample, Sampling.StratifiedCovers, Sampling.CorrectedKeepsSmallCategory |
| daily_report_generation.py:440 | `asyncio.gather(*tasks)` without `return_exceptions`. A task whose five attempts all fail unpacks None and raises. The gather then raises, and `asyncio.run` cancels the tasks still pending, so their reports are never inserted | one event whose report attempts all fail, completing before another event's successful task | every other event's report is still inserted | not executed | GenerationMain.AsWrittenLosesWrites, GenerationMain.AsWrittenPrefix | GenerationMain.GenerateReports, GenerationMain.WritesOrderFree |
| scrape-kalshi.py:300 | a new market's price snapshot is keyed by `timestamp`, the variable the backfill loops leave behind: two days before today. With no previous event no such loop has run, and the name is unbound | a first run: no previous events or markets, one listed event with one active market | key by `timestamp_now`, as the refresh of a known market does (scrape-kalshi.py:320) | not executed | Reconcile.AsWrittenKeysOldestStamp, Reconcile.FirstRunAsWrittenRaises | Reconcile.ScrapeKalshiEvents, Reconcile.ReconciledMarkets |

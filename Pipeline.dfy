/** One event's research report: the model proposes search queries, each query
    is searched, its pages collected and summarised, and the numbered summaries
    are joined. The synchronous scripts run the queries one after another and
    swallow scraping and model errors; the concurrent script lets any error of an
    attempt abort it and retries the whole attempt. */
module Pipeline {
  import opened Common
  import opened PyText
  import opened Kalshi
  import opened Search
  import opened Prompts

  /** `NUM_URLS`, and the `num_urls=5` the concurrent script passes. */
  const NumUrls: int := 5
  /** `MAX_RETRIES` of the concurrent `get_ddgs_report`. */
  const MaxRetries: nat := 5

  /** What one query contributes: its summary and the articles behind it. */
  datatype QueryReport = QueryReport(summary: string, contents: seq<Article>)

  /** The joined report of one event and the articles of each query, in query order. */
  datatype EventReport = EventReport(report: string, contents: seq<seq<Article>>)

  function Summaries(outs: seq<QueryReport>): (s: seq<string>)
    ensures |s| == |outs|
  {
    seq(|outs|, k requires 0 <= k < |outs| => outs[k].summary)
  }

  function Contents(outs: seq<QueryReport>): (c: seq<seq<Article>>)
    ensures |c| == |outs|
  {
    seq(|outs|, k requires 0 <= k < |outs| => outs[k].contents)
  }

  // ---------------------------------------------------------------------------
  // Synchronous scripts (kalshi_ddgs_rag package, daily_report.py)
  // ---------------------------------------------------------------------------

  /** The services the synchronous scripts call. `filter` is the package's
      relevance filter applied to the scraped articles; daily_report.py applies
      none, which is the filter that returns its input. */
  datatype SyncServices = SyncServices(llm: Llm, engine: SearchEngine, fetch: Fetcher,
                                       filter: (seq<Article>, string) -> seq<Article>)

  ghost predicate NoFilter(svc: SyncServices)
  {
    forall cs, d :: svc.filter(cs, d) == cs
  }

  /** `process_query`: None when the search raises (scraping and the model call
      never raise: their failures become "no article" and ""). */
  function SyncQuery(svc: SyncServices, eventTitle: string, desc: string, q: string): Option<QueryReport>
  {
    match svc.engine(q, NumUrls * 2)
    case None => None
    case Some(hits) =>
      var contents := SyncContents(svc, desc, hits);
      Some(QueryReport(RunOpenAI(svc.llm, SummaryPrompt(eventTitle, desc, Unlines(DigestLines(contents)))), contents))
  }

  /** The articles `process_query` keeps from a query's hits: the first
      `NUM_URLS` distinct hits, scraped, then filtered. */
  function SyncContents(svc: SyncServices, desc: string, hits: seq<SearchResult>): seq<Article>
  {
    svc.filter(FilterMap(VisitWith(svc.fetch), PyPrefix(PyPrefix(Deduplicated(hits), NumUrls), NumUrls)), desc)
  }

  method ProcessQuery(svc: SyncServices, eventTitle: string, desc: string, q: string) returns (r: Option<QueryReport>)
    ensures r == SyncQuery(svc, eventTitle, desc, q)
  {
    var results := SearchDdgs(svc.engine, q, NumUrls);
    if results.None? {
      return None;
    }
    var contents := ScrapeUrls(results.value, NumUrls, svc.fetch);
    contents := svc.filter(contents, desc);
    var digest := ArticleDigest(contents);
    var summary := RunOpenAI(svc.llm, SummaryPrompt(eventTitle, desc, digest));
    r := Some(QueryReport(summary, contents));
  }

  /** The queries `generate_search_queries` extracts from the model's reply. */
  function SyncQueries(svc: SyncServices, eventTitle: string, desc: string): seq<string>
  {
    GenerateSearchQueries(RunOpenAI(svc.llm, QueryPrompt(eventTitle, desc)))
  }

  /** Every query's `process_query` returns. */
  predicate AllQueriesReturn(svc: SyncServices, eventTitle: string, desc: string, qs: seq<string>)
  {
    forall k :: 0 <= k < |qs| ==> SyncQuery(svc, eventTitle, desc, qs[k]).Some?
  }

  /** The reports of the queries, in query order, when every query returns. */
  function SyncOuts(svc: SyncServices, eventTitle: string, desc: string, qs: seq<string>): (outs: seq<QueryReport>)
    requires AllQueriesReturn(svc, eventTitle, desc, qs)
    ensures |outs| == |qs|
    ensures forall k :: 0 <= k < |qs| ==> Some(outs[k]) == SyncQuery(svc, eventTitle, desc, qs[k])
  {
    seq(|qs|, k requires 0 <= k < |qs| => SyncQuery(svc, eventTitle, desc, qs[k]).value)
  }

  /** `get_ddgs_report`: None when some query's search raises. */
  function SyncReport(svc: SyncServices, eventTitle: string, markets: seq<Market>): Option<EventReport>
  {
    var desc := Unlines(DescriptionLines(eventTitle, markets));
    SyncReportFor(svc, eventTitle, desc, SyncQueries(svc, eventTitle, desc))
  }

  /** The queries' part of `get_ddgs_report`, for a description and its queries. */
  function SyncReportFor(svc: SyncServices, eventTitle: string, desc: string, qs: seq<string>): Option<EventReport>
  {
    if AllQueriesReturn(svc, eventTitle, desc, qs) then
      var outs := SyncOuts(svc, eventTitle, desc, qs);
      Some(EventReport(CombinedReport(Summaries(outs), false), Contents(outs)))
    else None
  }

  /** The loop over the queries of the synchronous `get_ddgs_report`: one
      summary and one article list per query, until a search raises. */
  method SyncRunQueries(svc: SyncServices, eventTitle: string, desc: string, queries: seq<string>)
    returns (ok: bool, summaries: seq<string>, allContents: seq<seq<Article>>)
    ensures ok ==> && |summaries| == |queries| && |allContents| == |queries|
                   && forall k :: 0 <= k < |queries| ==>
                        SyncQuery(svc, eventTitle, desc, queries[k]) == Some(QueryReport(summaries[k], allContents[k]))
    ensures !ok ==> exists k :: 0 <= k < |queries| && SyncQuery(svc, eventTitle, desc, queries[k]).None?
  {
    summaries := [];
    allContents := [];
    var i := 0;
    while i < |queries|
      invariant i <= |queries| && |summaries| == i && |allContents| == i
      invariant forall k :: 0 <= k < i ==>
                  SyncQuery(svc, eventTitle, desc, queries[k]) == Some(QueryReport(summaries[k], allContents[k]))
    {
      var out := ProcessQuery(svc, eventTitle, desc, queries[i]);
      if out.None? {
        return false, summaries, allContents;
      }
      summaries := summaries + [out.value.summary];
      allContents := allContents + [out.value.contents];
      i := i + 1;
    }
    ok := true;
  }

  method GetDdgsReport(svc: SyncServices, eventTitle: string, markets: seq<Market>) returns (r: Option<EventReport>)
    ensures r == SyncReport(svc, eventTitle, markets)
  {
    var desc := GetMarketDescriptions(eventTitle, markets);
    var queries := GenerateSearchQueries(RunOpenAI(svc.llm, QueryPrompt(eventTitle, desc)));
    assert queries == SyncQueries(svc, eventTitle, desc);
    var ok, summaries, allContents := SyncRunQueries(svc, eventTitle, desc, queries);
    if !ok {
      ghost var i :| 0 <= i < |queries| && SyncQuery(svc, eventTitle, desc, queries[i]).None?;
      SyncReportAborts(svc, eventTitle, markets, i);
      return None;
    }
    SyncReportCollects(svc, eventTitle, markets, summaries, allContents);
    r := Some(EventReport(CombinedReport(summaries, false), allContents));
  }

  lemma SyncReportAborts(svc: SyncServices, eventTitle: string, markets: seq<Market>, i: nat)
    requires var desc := Unlines(DescriptionLines(eventTitle, markets));
             var qs := SyncQueries(svc, eventTitle, desc);
             i < |qs| && SyncQuery(svc, eventTitle, desc, qs[i]).None?
    ensures SyncReport(svc, eventTitle, markets).None?
  {
    var desc := Unlines(DescriptionLines(eventTitle, markets));
    var qs := SyncQueries(svc, eventTitle, desc);
    assert !AllQueriesReturn(svc, eventTitle, desc, qs);
  }

  lemma SyncReportCollects(svc: SyncServices, eventTitle: string, markets: seq<Market>,
                           summaries: seq<string>, allContents: seq<seq<Article>>)
    requires var desc := Unlines(DescriptionLines(eventTitle, markets));
             var qs := SyncQueries(svc, eventTitle, desc);
             && |summaries| == |qs| && |allContents| == |qs|
             && forall k :: 0 <= k < |qs| ==>
                  SyncQuery(svc, eventTitle, desc, qs[k]) == Some(QueryReport(summaries[k], allContents[k]))
    ensures SyncReport(svc, eventTitle, markets) == Some(EventReport(CombinedReport(summaries, false), allContents))
  {
    var desc := Unlines(DescriptionLines(eventTitle, markets));
    SyncForCollects(svc, eventTitle, desc, SyncQueries(svc, eventTitle, desc), summaries, allContents);
  }

  /** SyncReportCollects for any description and queries. */
  lemma SyncForCollects(svc: SyncServices, eventTitle: string, desc: string, qs: seq<string>,
                        summaries: seq<string>, allContents: seq<seq<Article>>)
    requires |summaries| == |qs| && |allContents| == |qs|
    requires forall k :: 0 <= k < |qs| ==>
               SyncQuery(svc, eventTitle, desc, qs[k]) == Some(QueryReport(summaries[k], allContents[k]))
    ensures SyncReportFor(svc, eventTitle, desc, qs) == Some(EventReport(CombinedReport(summaries, false), allContents))
  {
    assert AllQueriesReturn(svc, eventTitle, desc, qs);
    var outs := SyncOuts(svc, eventTitle, desc, qs);
    forall k | 0 <= k < |qs| ensures outs[k] == QueryReport(summaries[k], allContents[k]) {
      assert Some(outs[k]) == SyncQuery(svc, eventTitle, desc, qs[k]);
    }
    assert Summaries(outs) == summaries;
    assert Contents(outs) == allContents;
  }

  /** Some query's search raises. */
  predicate SomeSearchRaises(svc: SyncServices, qs: seq<string>)
  {
    exists k :: 0 <= k < |qs| && svc.engine(qs[k], NumUrls * 2).None?
  }

  /** Only a failing search aborts a synchronous report: a failed page fetch or a
      failed model call still yields a report. */
  lemma SyncReportFailsOnlyOnSearch(svc: SyncServices, eventTitle: string, markets: seq<Market>)
    ensures var desc := Unlines(DescriptionLines(eventTitle, markets));
            SyncReport(svc, eventTitle, markets).None? <==> SomeSearchRaises(svc, SyncQueries(svc, eventTitle, desc))
  {
    var desc := Unlines(DescriptionLines(eventTitle, markets));
    SyncForFailsOnlyOnSearch(svc, eventTitle, desc, SyncQueries(svc, eventTitle, desc));
  }

  /** SyncReportFailsOnlyOnSearch for any description and queries. */
  lemma SyncForFailsOnlyOnSearch(svc: SyncServices, eventTitle: string, desc: string, qs: seq<string>)
    ensures SyncReportFor(svc, eventTitle, desc, qs).None? <==> SomeSearchRaises(svc, qs)
  {
    if SomeSearchRaises(svc, qs) {
      var k :| 0 <= k < |qs| && svc.engine(qs[k], NumUrls * 2).None?;
      SyncQueryFailsOnlyOnSearch(svc, eventTitle, desc, qs[k]);
      assert !AllQueriesReturn(svc, eventTitle, desc, qs);
    } else {
      forall k | 0 <= k < |qs| ensures SyncQuery(svc, eventTitle, desc, qs[k]).Some? {
        SyncQueryFailsOnlyOnSearch(svc, eventTitle, desc, qs[k]);
      }
      assert AllQueriesReturn(svc, eventTitle, desc, qs);
    }
  }

  /** One query of the synchronous scripts fails exactly when its search raises. */
  lemma SyncQueryFailsOnlyOnSearch(svc: SyncServices, eventTitle: string, desc: string, q: string)
    ensures SyncQuery(svc, eventTitle, desc, q).None? <==> svc.engine(q, NumUrls * 2).None?
  {
  }

  /** A successful report has one summary and one article list per query, in
      query order; its text is stripped and opens with the first header when
      there is a query, and is "" when there is none. */
  lemma SyncReportShape(svc: SyncServices, eventTitle: string, markets: seq<Market>)
    requires SyncReport(svc, eventTitle, markets).Some?
    ensures var desc := Unlines(DescriptionLines(eventTitle, markets));
            var qs := SyncQueries(svc, eventTitle, desc);
            var r := SyncReport(svc, eventTitle, markets).value;
            && |r.contents| == |qs|
            && (forall k :: 0 <= k < |qs| ==> r.contents[k] == SyncQuery(svc, eventTitle, desc, qs[k]).value.contents)
            && NoOuterSpace(r.report)
            && (r.report == "" <==> qs == [])
            && (qs != [] ==> StartsWith(r.report, "# Research Report 1"))
  {
    var desc := Unlines(DescriptionLines(eventTitle, markets));
    SyncForShape(svc, eventTitle, desc, SyncQueries(svc, eventTitle, desc));
  }

  /** SyncReportShape for any description and queries. */
  lemma SyncForShape(svc: SyncServices, eventTitle: string, desc: string, qs: seq<string>)
    requires SyncReportFor(svc, eventTitle, desc, qs).Some?
    ensures var r := SyncReportFor(svc, eventTitle, desc, qs).value;
            && |r.contents| == |qs|
            && (forall k :: 0 <= k < |qs| ==> r.contents[k] == SyncQuery(svc, eventTitle, desc, qs[k]).value.contents)
            && NoOuterSpace(r.report)
            && (r.report == "" <==> qs == [])
            && (qs != [] ==> StartsWith(r.report, "# Research Report 1"))
  {
    var outs := SyncOuts(svc, eventTitle, desc, qs);
    forall k | 0 <= k < |qs| ensures Contents(outs)[k] == SyncQuery(svc, eventTitle, desc, qs[k]).value.contents {
      assert Some(outs[k]) == SyncQuery(svc, eventTitle, desc, qs[k]);
    }
    CombinedReportShape(Summaries(outs), false);
  }

  /** When the model call for the queries fails, the reply is "" and the event
      gets the empty report with no articles. */
  lemma SyncFailedQueryCallGivesEmptyReport(svc: SyncServices, eventTitle: string, markets: seq<Market>)
    requires !svc.llm(QueryPrompt(eventTitle, Unlines(DescriptionLines(eventTitle, markets)))).Content?
    ensures SyncReport(svc, eventTitle, markets) == Some(EventReport("", []))
  {
    var desc := Unlines(DescriptionLines(eventTitle, markets));
    assert RunOpenAI(svc.llm, QueryPrompt(eventTitle, desc)) == "";
    BlankReplyNoQueries("");
    var qs := SyncQueries(svc, eventTitle, desc);
    assert qs == [];
    var outs: seq<QueryReport> := [];
    assert Summaries(outs) == [] && Contents(outs) == [];
    CombinedReportShape([], false);
  }

  /** With daily_report.py's pipeline (no filter) each query keeps at most
      `NUM_URLS` articles, each with a text inside the length guard and a
      distinct source URL. */
  lemma DailyQueryArticles(svc: SyncServices, eventTitle: string, desc: string, q: string)
    requires NoFilter(svc)
    requires SyncQuery(svc, eventTitle, desc, q).Some?
    ensures var cs := SyncQuery(svc, eventTitle, desc, q).value.contents;
            && |cs| <= NumUrls
            && (forall k :: 0 <= k < |cs| ==> TextInRange(cs[k].article))
            && (forall k, l :: 0 <= k < l < |cs| ==> cs[k].href != cs[l].href)
  {
    var hits := svc.engine(q, NumUrls * 2).value;
    var results := PyPrefix(Deduplicated(hits), NumUrls);
    SearchDdgsResult(hits, NumUrls);
    ScrapeUrlsResult(results, NumUrls, svc.fetch);
    assert PyPrefix(results, NumUrls) == results;
  }

  // ---------------------------------------------------------------------------
  // Concurrent script (daily_report_generation.py)
  // ---------------------------------------------------------------------------

  /** The services one attempt of the concurrent script calls. The search
      engine returns None when the call raises; `arrive` gives the order in
      which the page fetches of a query's hits complete. */
  datatype GenServices = GenServices(llm: Llm, engine: SearchEngine, fetch: Fetcher,
                                     arrive: (string, seq<SearchResult>) -> seq<SearchResult>)

  /** Completion order only rearranges the hits. */
  ghost predicate OrderOnly(svc: GenServices)
  {
    forall q, rs :: multiset(svc.arrive(q, rs)) == multiset(rs)
  }

  /** `step1_generate_queries`: None when the model call raises or its content
      is None (stripping None raises AttributeError inside the `try`). */
  method Step1GenerateQueries(llm: Llm, eventTitle: string, desc: string) returns (r: Option<seq<string>>)
    ensures r.None? <==> !llm(QueryPrompt(eventTitle, desc)).Content?
    ensures r.Some? ==> r.value == Step1Queries(llm(QueryPrompt(eventTitle, desc)).content)
  {
    var output := llm(QueryPrompt(eventTitle, desc));
    if !output.Content? {
      return None;
    }
    r := Some(Step1Queries(output.content));
  }

  /** The summary the concurrent `run_openai` hands back, as the report's
      f-string renders it: None when the call raises; a None content is
      returned as it is and renders as `None`. */
  function SummaryOf(reply: Reply): Option<string>
  {
    match reply
    case Raised => None
    case NoContent => Some("None")
    case Content(text) => Some(text)
  }

  /** `step4_summarization`: the model's reply to the stripped article digest,
      not stripped. */
  method Step4Summarization(llm: Llm, eventTitle: string, desc: string, contents: seq<Article>) returns (r: Option<string>)
    ensures r.None? <==> llm(SummaryPrompt(eventTitle, desc, GenArticleDigest(contents))).Raised?
    ensures llm(SummaryPrompt(eventTitle, desc, GenArticleDigest(contents))).NoContent? ==> r == Some("None")
    ensures llm(SummaryPrompt(eventTitle, desc, GenArticleDigest(contents))).Content?
            ==> r == Some(llm(SummaryPrompt(eventTitle, desc, GenArticleDigest(contents))).content)
  {
    var digest := ArticleDigest(contents);
    digest := Strip(digest);
    var reply := llm(SummaryPrompt(eventTitle, desc, digest));
    match reply
    case Raised => r := None;
    case NoContent => r := Some("None");
    case Content(text) => r := Some(text);
  }

  /** `process_query` of the concurrent script: None when the search or the
      summary call raises. */
  function GenQuery(svc: GenServices, eventTitle: string, desc: string, q: string): Option<QueryReport>
  {
    match svc.engine(q, NumUrls * 2)
    case None => None
    case Some(hits) =>
      var contents := Step3Collected(svc.fetch, svc.arrive(q, Deduplicated(hits)), NumUrls);
      match SummaryOf(svc.llm(SummaryPrompt(eventTitle, desc, GenArticleDigest(contents))))
      case None => None
      case Some(summary) => Some(QueryReport(summary, contents))
  }

  method GenProcessQuery(svc: GenServices, eventTitle: string, desc: string, q: string) returns (r: Option<QueryReport>)
    requires OrderOnly(svc)
    ensures r == GenQuery(svc, eventTitle, desc, q)
  {
    var results := Step2SearchDdgs(svc.engine, q, NumUrls);
    if results.None? {
      return None;
    }
    var contents := Step3ScrapeUrls(results.value, NumUrls, svc.fetch, svc.arrive(q, results.value));
    ghost var hits := svc.engine(q, NumUrls * 2).value;
    assert contents == Step3Collected(svc.fetch, svc.arrive(q, Deduplicated(hits)), NumUrls);
    var summary := Step4Summarization(svc.llm, eventTitle, desc, contents);
    assert summary == SummaryOf(svc.llm(SummaryPrompt(eventTitle, desc, GenArticleDigest(contents))));
    if summary.None? {
      return None;
    }
    r := Some(QueryReport(summary.value, contents));
  }

  /** A query's chain fails exactly when its search or its summary call
      raises. A summary call that returns no content still succeeds, and the
      query's summary is then the text `None`. */
  lemma GenQueryOutcome(svc: GenServices, eventTitle: string, desc: string, q: string)
    ensures GenQuery(svc, eventTitle, desc, q).None?
            <==> svc.engine(q, NumUrls * 2).None?
                 || (var contents := Step3Collected(svc.fetch, svc.arrive(q, Deduplicated(svc.engine(q, NumUrls * 2).value)), NumUrls);
                     svc.llm(SummaryPrompt(eventTitle, desc, GenArticleDigest(contents))).Raised?)
    ensures svc.engine(q, NumUrls * 2).Some? ==>
              var contents := Step3Collected(svc.fetch, svc.arrive(q, Deduplicated(svc.engine(q, NumUrls * 2).value)), NumUrls);
              svc.llm(SummaryPrompt(eventTitle, desc, GenArticleDigest(contents))).NoContent?
              ==> GenQuery(svc, eventTitle, desc, q) == Some(QueryReport("None", contents))
  {
    if svc.engine(q, NumUrls * 2).Some? {
      var contents := Step3Collected(svc.fetch, svc.arrive(q, Deduplicated(svc.engine(q, NumUrls * 2).value)), NumUrls);
      var reply := svc.llm(SummaryPrompt(eventTitle, desc, GenArticleDigest(contents)));
      assert GenQuery(svc, eventTitle, desc, q) == match SummaryOf(reply)
        case None => None
        case Some(summary) => Some(QueryReport(summary, contents));
    }
  }

  /** One pass of the `try` body of the concurrent `get_ddgs_report`. It fails
      when the description raises, when the query call fails, when some
      query's chain fails, and when there are no queries at all (`zip(*[])`
      has nothing to unpack). */
  function GenAttempt(svc: GenServices, eventTitle: string, markets: seq<Market>): Option<EventReport>
  {
    if !GenDescribable(markets) then None
    else
      var desc := Unlines(GenDescriptionLines(eventTitle, markets));
      match svc.llm(QueryPrompt(eventTitle, desc))
      case Content(output) =>
        var qs := Step1Queries(output);
        if qs != [] && forall k :: 0 <= k < |qs| ==> GenQuery(svc, eventTitle, desc, qs[k]).Some? then
          var outs := seq(|qs|, k requires 0 <= k < |qs| => GenQuery(svc, eventTitle, desc, qs[k]).value);
          Some(EventReport(CombinedReport(Summaries(outs), true), Contents(outs)))
        else None
      case _ => None
  }

  /** `asyncio.gather` over the queries' chains of the concurrent script: the
      results in query order, or None when some chain fails. */
  function GenGather(svc: GenServices, eventTitle: string, desc: string, qs: seq<string>): Option<seq<QueryReport>>
  {
    if qs == [] then Some([])
    else match GenGather(svc, eventTitle, desc, qs[..|qs| - 1])
      case None => None
      case Some(rs) =>
        match GenQuery(svc, eventTitle, desc, qs[|qs| - 1])
        case None => None
        case Some(r) => Some(rs + [r])
  }

  /** A successful gather holds each chain's result at its query's position. */
  lemma {:induction false} GenGatherSome(svc: GenServices, eventTitle: string, desc: string, qs: seq<string>)
    requires GenGather(svc, eventTitle, desc, qs).Some?
    ensures var g := GenGather(svc, eventTitle, desc, qs).value;
            |g| == |qs| && forall k :: 0 <= k < |qs| ==> GenQuery(svc, eventTitle, desc, qs[k]) == Some(g[k])
  {
    if qs != [] {
      var init := qs[..|qs| - 1];
      GenGatherSome(svc, eventTitle, desc, init);
      var rs := GenGather(svc, eventTitle, desc, init).value;
      var r := GenQuery(svc, eventTitle, desc, qs[|qs| - 1]).value;
      assert GenGather(svc, eventTitle, desc, qs).value == rs + [r];
      SnocPointwise(q => GenQuery(svc, eventTitle, desc, q), qs, rs, r);
    }
  }

  /** Extending a pointwise match of queries and results by one more pair. */
  lemma SnocPointwise(f: string -> Option<QueryReport>, qs: seq<string>, rs: seq<QueryReport>, r: QueryReport)
    requires |qs| == |rs| + 1 && f(qs[|qs| - 1]) == Some(r)
    requires forall k :: 0 <= k < |rs| ==> f(qs[..|qs| - 1][k]) == Some(rs[k])
    ensures forall k :: 0 <= k < |qs| ==> f(qs[k]) == Some((rs + [r])[k])
  {
    forall k | 0 <= k < |qs| ensures f(qs[k]) == Some((rs + [r])[k]) {
      if k < |rs| {
        assert qs[k] == qs[..|qs| - 1][k];
      }
    }
  }

  /** A failed gather has a query whose chain failed. */
  lemma {:induction false} GenGatherNone(svc: GenServices, eventTitle: string, desc: string, qs: seq<string>)
    requires GenGather(svc, eventTitle, desc, qs).None?
    ensures exists k :: 0 <= k < |qs| && GenQuery(svc, eventTitle, desc, qs[k]).None?
  {
    var init := qs[..|qs| - 1];
    if GenGather(svc, eventTitle, desc, init).None? {
      GenGatherNone(svc, eventTitle, desc, init);
      var k :| 0 <= k < |init| && GenQuery(svc, eventTitle, desc, init[k]).None?;
      assert qs[k] == init[k];
    } else {
      assert GenQuery(svc, eventTitle, desc, qs[|qs| - 1]).None?;
    }
  }

  method GenRunQueries(svc: GenServices, eventTitle: string, desc: string, qs: seq<string>)
    returns (ok: bool, results: seq<QueryReport>)
    requires OrderOnly(svc)
    ensures ok <==> GenGather(svc, eventTitle, desc, qs).Some?
    ensures ok ==> results == GenGather(svc, eventTitle, desc, qs).value
  {
    results := [];
    var i := 0;
    while i < |qs|
      invariant i <= |qs|
      invariant GenGather(svc, eventTitle, desc, qs[..i]) == Some(results)
    {
      var out := GenProcessQuery(svc, eventTitle, desc, qs[i]);
      assert qs[..i + 1][..i] == qs[..i];
      if out.None? {
        GenGatherFails(svc, eventTitle, desc, qs, i + 1);
        return false, results;
      }
      results := results + [out.value];
      i := i + 1;
    }
    assert qs[..i] == qs;
    ok := true;
  }

  /** A failed prefix fails the whole gather. */
  lemma {:induction false} GenGatherFails(svc: GenServices, eventTitle: string, desc: string, qs: seq<string>, n: nat)
    requires n <= |qs| && GenGather(svc, eventTitle, desc, qs[..n]).None?
    ensures GenGather(svc, eventTitle, desc, qs).None?
    decreases |qs| - n
  {
    if n < |qs| {
      assert qs[..n + 1][..n] == qs[..n];
      GenGatherFails(svc, eventTitle, desc, qs, n + 1);
    } else {
      assert qs[..n] == qs;
    }
  }

  method GenAttemptRun(svc: GenServices, eventTitle: string, markets: seq<Market>) returns (r: Option<EventReport>)
    requires OrderOnly(svc)
    ensures r == GenAttempt(svc, eventTitle, markets)
  {
    var described := GenGetMarketDescriptions(eventTitle, markets);
    if described.None? {
      return None;
    }
    var desc := described.value;
    var queries := Step1GenerateQueries(svc.llm, eventTitle, desc);
    if queries.None? {
      return None;
    }
    var qs := queries.value;
    var ok, results := GenRunQueries(svc, eventTitle, desc, qs);
    if !ok {
      GenGatherNone(svc, eventTitle, desc, qs);
      ghost var i :| 0 <= i < |qs| && GenQuery(svc, eventTitle, desc, qs[i]).None?;
      GenAttemptAborts(svc, eventTitle, markets, i);
      return None;
    }
    if qs == [] {
      return None;
    }
    GenGatherSome(svc, eventTitle, desc, qs);
    GenAttemptCollects(svc, eventTitle, markets, results);
    r := Some(EventReport(CombinedReport(Summaries(results), true), Contents(results)));
  }

  lemma GenAttemptAborts(svc: GenServices, eventTitle: string, markets: seq<Market>, i: nat)
    requires GenDescribable(markets)
    requires var desc := Unlines(GenDescriptionLines(eventTitle, markets));
             && svc.llm(QueryPrompt(eventTitle, desc)).Content?
             && var qs := Step1Queries(svc.llm(QueryPrompt(eventTitle, desc)).content);
                i < |qs| && GenQuery(svc, eventTitle, desc, qs[i]).None?
    ensures GenAttempt(svc, eventTitle, markets).None?
  {
  }

  lemma GenAttemptCollects(svc: GenServices, eventTitle: string, markets: seq<Market>, results: seq<QueryReport>)
    requires GenDescribable(markets)
    requires var desc := Unlines(GenDescriptionLines(eventTitle, markets));
             && svc.llm(QueryPrompt(eventTitle, desc)).Content?
             && var qs := Step1Queries(svc.llm(QueryPrompt(eventTitle, desc)).content);
                && qs != [] && |results| == |qs|
                && forall k :: 0 <= k < |qs| ==> GenQuery(svc, eventTitle, desc, qs[k]) == Some(results[k])
    ensures GenAttempt(svc, eventTitle, markets) == Some(EventReport(CombinedReport(Summaries(results), true), Contents(results)))
  {
    var desc := Unlines(GenDescriptionLines(eventTitle, markets));
    var qs := Step1Queries(svc.llm(QueryPrompt(eventTitle, desc)).content);
    var outs := seq(|qs|, k requires 0 <= k < |qs| => GenQuery(svc, eventTitle, desc, qs[k]).value);
    assert outs == results;
  }

  /** The concurrent `get_ddgs_report`: at most `MAX_RETRIES` attempts, each with
      the services of that attempt; None once every attempt has failed. */
  method GenGetDdgsReport(svcs: nat -> GenServices, eventTitle: string, markets: seq<Market>)
    returns (r: Option<EventReport>, trials: nat)
    requires forall k :: OrderOnly(svcs(k))
    ensures r == RetriedReport(svcs, eventTitle, markets)
    ensures r.Some? ==> trials < MaxRetries && r == GenAttempt(svcs(trials), eventTitle, markets)
    ensures r.None? ==> trials == MaxRetries
  {
    trials := 0;
    ghost var failed: set<nat> := {};
    while trials < MaxRetries
      invariant trials <= MaxRetries
      invariant forall k :: 0 <= k < trials ==> k in failed
      invariant forall k :: k in failed ==> GenAttempt(svcs(k), eventTitle, markets).None?
    {
      var attempt := GenAttemptRun(svcs(trials), eventTitle, markets);
      if attempt.Some? {
        RetriedReportFound(svcs, eventTitle, markets, trials);
        return attempt, trials;
      }
      failed := failed + {trials};
      trials := trials + 1;
    }
    RetriedReportNone(svcs, eventTitle, markets);
    r := None;
  }

  lemma RetriedReportFound(svcs: nat -> GenServices, eventTitle: string, markets: seq<Market>, j: nat)
    requires j < MaxRetries && GenAttempt(svcs(j), eventTitle, markets).Some?
    requires forall k :: 0 <= k < j ==> GenAttempt(svcs(k), eventTitle, markets).None?
    ensures RetriedReport(svcs, eventTitle, markets) == GenAttempt(svcs(j), eventTitle, markets)
  {
    FirstSuccessFound(k => GenAttempt(svcs(k), eventTitle, markets), j, MaxRetries);
  }

  lemma RetriedReportNone(svcs: nat -> GenServices, eventTitle: string, markets: seq<Market>)
    requires forall k :: 0 <= k < MaxRetries ==> GenAttempt(svcs(k), eventTitle, markets).None?
    ensures RetriedReport(svcs, eventTitle, markets).None?
  {
    FirstSuccessNone(k => GenAttempt(svcs(k), eventTitle, markets), MaxRetries);
  }

  /** The report of the first successful attempt among the first `MAX_RETRIES`. */
  function RetriedReport(svcs: nat -> GenServices, eventTitle: string, markets: seq<Market>): Option<EventReport>
  {
    match FirstSuccess(k => GenAttempt(svcs(k), eventTitle, markets), 0, MaxRetries)
    case None => None
    case Some(hit) => Some(hit.1)
  }

  /** A successful attempt has one article list per query, and its report is
      never empty: it opens with `# Research Report 1:`. */
  lemma GenAttemptShape(svc: GenServices, eventTitle: string, markets: seq<Market>)
    requires GenAttempt(svc, eventTitle, markets).Some?
    ensures var desc := Unlines(GenDescriptionLines(eventTitle, markets));
            var qs := Step1Queries(svc.llm(QueryPrompt(eventTitle, desc)).content);
            var r := GenAttempt(svc, eventTitle, markets).value;
            && GenDescribable(markets) && qs != [] && |r.contents| == |qs|
            && (forall k :: 0 <= k < |qs| ==> r.contents[k] == GenQuery(svc, eventTitle, desc, qs[k]).value.contents)
            && NoOuterSpace(r.report) && StartsWith(r.report, "# Research Report 1")
  {
    var desc := Unlines(GenDescriptionLines(eventTitle, markets));
    var qs := Step1Queries(svc.llm(QueryPrompt(eventTitle, desc)).content);
    var outs := seq(|qs|, k requires 0 <= k < |qs| => GenQuery(svc, eventTitle, desc, qs[k]).value);
    GenAttemptValue(svc, eventTitle, markets);
    var r := GenAttempt(svc, eventTitle, markets).value;
    forall k | 0 <= k < |qs| ensures r.contents[k] == GenQuery(svc, eventTitle, desc, qs[k]).value.contents {
      assert r.contents[k] == Contents(outs)[k] == outs[k].contents;
    }
    CombinedReportShape(Summaries(outs), true);
  }

  /** A successful attempt holds the join of its queries' summaries and their articles. */
  lemma GenAttemptValue(svc: GenServices, eventTitle: string, markets: seq<Market>)
    requires GenAttempt(svc, eventTitle, markets).Some?
    ensures var desc := Unlines(GenDescriptionLines(eventTitle, markets));
            var qs := Step1Queries(svc.llm(QueryPrompt(eventTitle, desc)).content);
            var outs := seq(|qs|, k requires 0 <= k < |qs| => GenQuery(svc, eventTitle, desc, qs[k]).value);
            && GenDescribable(markets) && qs != []
            && GenAttempt(svc, eventTitle, markets).value == EventReport(CombinedReport(Summaries(outs), true), Contents(outs))
  {
  }

  /** An attempt fails exactly when the single market lacks `rules_secondary`,
      the query call fails, the reply holds no query, or some query's search
      or summary call raises. */
  lemma GenAttemptFails(svc: GenServices, eventTitle: string, markets: seq<Market>)
    ensures var desc := Unlines(GenDescriptionLines(eventTitle, markets));
            GenAttempt(svc, eventTitle, markets).None?
            <==> !GenDescribable(markets) || !svc.llm(QueryPrompt(eventTitle, desc)).Content?
                 || (var qs := Step1Queries(svc.llm(QueryPrompt(eventTitle, desc)).content);
                     qs == [] || exists k :: 0 <= k < |qs| && GenQuery(svc, eventTitle, desc, qs[k]).None?)
  {
  }

  /** Each query of a successful attempt keeps at most `num_urls` articles from
      http(s) hits, each inside the length guard. */
  lemma GenQueryArticles(svc: GenServices, eventTitle: string, desc: string, q: string)
    requires GenQuery(svc, eventTitle, desc, q).Some?
    ensures var cs := GenQuery(svc, eventTitle, desc, q).value.contents;
            && |cs| <= NumUrls
            && forall k :: 0 <= k < |cs| ==> TextInRange(cs[k].article) && IsWebUrl(cs[k].href)
  {
    var hits := svc.engine(q, NumUrls * 2).value;
    Step3Articles(svc.fetch, svc.arrive(q, Deduplicated(hits)), NumUrls);
  }
}

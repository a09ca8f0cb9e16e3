/** The `main` loops of the two synchronous scripts, the package's
    kalshi_ddgs_rag/main.py and daily_report.py. Each walks a list of event
    tickers once, under one timestamp computed at the start. It skips a ticker
    whose stored report for the day is truthy. Otherwise it fetches the event,
    skips it when it has no markets, builds the report and inserts it. An
    exception while processing one ticker is logged, and the loop goes on. */
module DailyMain {
  import opened Common
  import opened Kalshi
  import opened Pipeline
  import opened ReportStore
  import opened Sampling

  /** The package's `main` covers `events[K : K+70]`. */
  const WindowSize: int := 70
  /** daily_report.py's `fetch_current_events` tries five times, then raises. */
  const FetchAttempts: nat := 5

  /** What processing one ticker calls: the events endpoint (None when the
      request or its decoding raises) and the report services. */
  datatype Deps = Deps(svc: SyncServices, fetchEvent: string -> Option<Event>)

  /** The report the `try` block of one ticker inserts, or None when it inserts
      nothing: the request raised, the event has no markets, or building the
      report raised. */
  function Outcome(deps: Deps, ticker: string): Option<string>
  {
    match deps.fetchEvent(ticker)
    case None => None
    case Some(e) =>
      if !HasMarkets(e) then None
      else match SyncReport(deps.svc, e.title, e.markets.value)
        case None => None
        case Some(r) => Some(r.report)
  }

  /** One iteration of the loop, on the records of the reports collection. */
  function Visit(deps: Deps, timestamp: string, records: seq<Record>, ticker: string): seq<Record>
  {
    if IsTruthyText(Lookup(records, timestamp, ticker)) then records
    else match Outcome(deps, ticker)
      case None => records
      case Some(report) => records + [Record(timestamp, ticker, report)]
  }

  /** The records after the loop has visited `tickers` in order. */
  function Run(deps: Deps, timestamp: string, records: seq<Record>, tickers: seq<string>): seq<Record>
    decreases |tickers|
  {
    if tickers == [] then records
    else Visit(deps, timestamp, Run(deps, timestamp, records, tickers[..|tickers| - 1]), tickers[|tickers| - 1])
  }

  /** The tickers of a list of published events, in order. */
  function Tickers(events: seq<EventMeta>): (ts: seq<string>)
    ensures |ts| == |events|
  {
    seq(|events|, k requires 0 <= k < |events| => events[k].eventTicker)
  }

  /** A run over one more ticker is one more visit. */
  lemma RunSnoc(deps: Deps, timestamp: string, records: seq<Record>, tickers: seq<string>, i: nat)
    requires i < |tickers|
    ensures Run(deps, timestamp, records, tickers[..i + 1])
            == Visit(deps, timestamp, Run(deps, timestamp, records, tickers[..i]), tickers[i])
  {
    assert tickers[..i + 1][..i] == tickers[..i];
  }

  /** The body of the loop for one ticker: the `try` block and its skips. */
  method VisitTicker(store: Store, deps: Deps, timestamp: string, ticker: string)
    modifies store
    ensures store.records == Visit(deps, timestamp, old(store.records), ticker)
  {
    var existing := store.Read(timestamp, ticker);
    if IsTruthyText(existing) {
      return;
    }
    var event := deps.fetchEvent(ticker);
    if event.None? || !HasMarkets(event.value) {
      return;
    }
    var report := GetDdgsReport(deps.svc, event.value.title, event.value.markets.value);
    if report.Some? {
      store.Write(report.value.report, timestamp, ticker);
    }
  }

  /** The loop shared by both scripts. */
  method ProcessTickers(store: Store, deps: Deps, timestamp: string, tickers: seq<string>)
    modifies store
    ensures store.records == Run(deps, timestamp, old(store.records), tickers)
  {
    ghost var initial := store.records;
    var i := 0;
    while i < |tickers|
      invariant i <= |tickers|
      invariant store.records == Run(deps, timestamp, initial, tickers[..i])
    {
      RunSnoc(deps, timestamp, initial, tickers, i);
      VisitTicker(store, deps, timestamp, tickers[i]);
      i := i + 1;
    }
    assert tickers[..|tickers|] == tickers;
  }

  /** kalshi_ddgs_rag/main.py `main`: the window `events[K : K+70]` of the
      published events, with Python's slice semantics for any `K`. */
  method PackageMain(store: Store, deps: Deps, timestamp: string, events: seq<EventMeta>, k: int)
    modifies store
    ensures store.records == Run(deps, timestamp, old(store.records), Tickers(PySlice(events, k, k + WindowSize)))
  {
    ProcessTickers(store, deps, timestamp, Tickers(PySlice(events, k, k + WindowSize)));
  }

  /** daily_report.py `main`, whose pipeline applies no content filter: fetch the published events (at most five tries,
      `raised` when all fail and nothing is written), sample them by category,
      then run the loop over the sample. */
  method DailyReportMain(store: Store, deps: Deps, timestamp: string,
                         fetchEvents: nat -> Option<seq<EventMeta>>, sample: Sampler<EventMeta>)
    returns (raised: bool)
    requires NoFilter(deps.svc)
    modifies store
    ensures raised <==> forall k :: 0 <= k < FetchAttempts ==> fetchEvents(k).None?
    ensures raised ==> store.records == old(store.records)
    ensures !raised ==> store.records == Run(deps, timestamp, old(store.records),
                          Tickers(Stratified(FirstValue(fetchEvents, FetchAttempts).value, TargetEvents, sample)))
  {
    var events, attempts := Retry(fetchEvents, FetchAttempts);
    if events.None? {
      return true;
    }
    var sampled := StratifiedSample(events.value, TargetEvents, sample);
    ProcessTickers(store, deps, timestamp, Tickers(sampled));
    raised := false;
  }

  // ---------------------------------------------------------------------------
  // Properties of a run
  // ---------------------------------------------------------------------------

  /** A run only inserts: the old records stay in place, at most one record is
      added per visited ticker, and each added record carries the run's
      timestamp, a visited ticker and the report built for that ticker. */
  lemma {:induction false} RunAppends(deps: Deps, timestamp: string, records: seq<Record>, tickers: seq<string>)
    ensures var out := Run(deps, timestamp, records, tickers);
            && |records| <= |out| <= |records| + |tickers| && out[..|records|] == records
            && forall k :: |records| <= k < |out| ==>
                 out[k].timestamp == timestamp && out[k].ticker in tickers
                 && Outcome(deps, out[k].ticker) == Some(out[k].report)
    decreases |tickers|
  {
    if tickers != [] {
      var pre, last := tickers[..|tickers| - 1], tickers[|tickers| - 1];
      assert tickers == pre + [last];
      RunAppends(deps, timestamp, records, pre);
    }
  }

  /** Visiting `a` then `b` is one run over `a + b`. */
  lemma {:induction false} RunSplit(deps: Deps, timestamp: string, records: seq<Record>, a: seq<string>, b: seq<string>)
    ensures Run(deps, timestamp, records, a + b) == Run(deps, timestamp, Run(deps, timestamp, records, a), b)
    decreases |b|
  {
    if b == [] {
      assert a + b == a;
    } else {
      var pre := b[..|b| - 1];
      assert (a + b)[..|a + b| - 1] == a + pre;
      RunSplit(deps, timestamp, records, a, pre);
    }
  }

  /** What a run leaves readable under (timestamp, t). A report already stored
      keeps being read. Otherwise the read is the outcome of t when t was
      visited, even when that outcome is the empty report, and None when t was
      not visited. */
  lemma {:induction false} RunReads(deps: Deps, timestamp: string, records: seq<Record>, tickers: seq<string>, t: string)
    ensures var r := Lookup(Run(deps, timestamp, records, tickers), timestamp, t);
            && (Lookup(records, timestamp, t).Some? ==> r == Lookup(records, timestamp, t))
            && (Lookup(records, timestamp, t).None? ==> r == if t in tickers then Outcome(deps, t) else None)
    decreases |tickers|
  {
    if tickers != [] {
      var pre, last := tickers[..|tickers| - 1], tickers[|tickers| - 1];
      assert tickers == pre + [last];
      RunReads(deps, timestamp, records, pre, t);
      var mid := Run(deps, timestamp, records, pre);
      if !IsTruthyText(Lookup(mid, timestamp, last)) && Outcome(deps, last).Some? {
        ReadAfterWrite(mid, Outcome(deps, last).value, timestamp, last, timestamp, t);
      }
    }
  }

  /** A ticker whose stored report is truthy is never written by a run. */
  lemma {:induction false} RunSkipsTruthy(deps: Deps, timestamp: string, records: seq<Record>, tickers: seq<string>, t: string)
    requires IsTruthyText(Lookup(records, timestamp, t))
    ensures var out := Run(deps, timestamp, records, tickers);
            forall k :: |records| <= k < |out| ==> out[k].ticker != t
    decreases |tickers|
  {
    if tickers != [] {
      var pre, last := tickers[..|tickers| - 1], tickers[|tickers| - 1];
      RunSkipsTruthy(deps, timestamp, records, pre, t);
      RunReads(deps, timestamp, records, pre, t);
      var mid := Run(deps, timestamp, records, pre);
      RunAppends(deps, timestamp, records, pre);
      assert |mid| >= |records|;
    }
  }

  /** A ticker whose processing fails writes nothing and does not stop the
      loop: the run is the run without it. */
  lemma FailingTickerIgnored(deps: Deps, timestamp: string, records: seq<Record>,
                             a: seq<string>, t: string, b: seq<string>)
    requires Outcome(deps, t).None?
    ensures Run(deps, timestamp, records, a + [t] + b) == Run(deps, timestamp, records, a + b)
  {
    RunSplit(deps, timestamp, records, a + [t], b);
    RunSplit(deps, timestamp, records, a, b);
    assert (a + [t])[..|a + [t]| - 1] == a;
  }

  /** A stored empty report is falsy: the ticker is processed again and a
      second record is inserted, while reads still return the first, empty one. */
  lemma EmptyReportRewritten(deps: Deps, timestamp: string, records: seq<Record>, t: string)
    requires Lookup(records, timestamp, t) == Some("") && Outcome(deps, t).Some?
    ensures var out := Run(deps, timestamp, records, [t]);
            && out == records + [Record(timestamp, t, Outcome(deps, t).value)]
            && Lookup(out, timestamp, t) == Some("")
  {
    assert [t][..0] == [];
    ReadAfterWrite(records, Outcome(deps, t).value, timestamp, t, timestamp, t);
  }

  /** A run over tickers that are all settled (truthy report stored, or
      failing) changes nothing. */
  lemma {:induction false} RunFixed(deps: Deps, timestamp: string, records: seq<Record>, tickers: seq<string>)
    requires forall k :: 0 <= k < |tickers| ==>
               IsTruthyText(Lookup(records, timestamp, tickers[k])) || Outcome(deps, tickers[k]).None?
    ensures Run(deps, timestamp, records, tickers) == records
    decreases |tickers|
  {
    if tickers != [] {
      var pre := tickers[..|tickers| - 1];
      assert forall k :: 0 <= k < |pre| ==> pre[k] == tickers[k];
      RunFixed(deps, timestamp, records, pre);
    }
  }

  /** Running the same list twice inserts nothing the second time, provided no
      empty report is stored or built for its tickers. */
  lemma RunIdempotent(deps: Deps, timestamp: string, records: seq<Record>, tickers: seq<string>)
    requires forall k :: 0 <= k < |tickers| ==>
               Lookup(records, timestamp, tickers[k]) != Some("") && Outcome(deps, tickers[k]) != Some("")
    ensures var out := Run(deps, timestamp, records, tickers);
            Run(deps, timestamp, out, tickers) == out
  {
    var out := Run(deps, timestamp, records, tickers);
    forall k | 0 <= k < |tickers|
      ensures IsTruthyText(Lookup(out, timestamp, tickers[k])) || Outcome(deps, tickers[k]).None?
    {
      RunReads(deps, timestamp, records, tickers, tickers[k]);
    }
    RunFixed(deps, timestamp, out, tickers);
  }

  /** One run of the package's `main` inserts at most 70 records, each under
      the run's timestamp and for a ticker of the window `events[K : K+70]`. */
  lemma WindowRun(deps: Deps, timestamp: string, records: seq<Record>, events: seq<EventMeta>, k: int)
    ensures var window := PySlice(events, k, k + WindowSize);
            var out := Run(deps, timestamp, records, Tickers(window));
            && |records| <= |out| <= |records| + WindowSize && out[..|records|] == records
            && forall j :: |records| <= j < |out| ==>
                 out[j].timestamp == timestamp && exists e :: e in window && e.eventTicker == out[j].ticker
  {
    var window := PySlice(events, k, k + WindowSize);
    var ts := Tickers(window);
    RunAppends(deps, timestamp, records, ts);
    var out := Run(deps, timestamp, records, ts);
    forall j | |records| <= j < |out|
      ensures exists e :: e in window && e.eventTicker == out[j].ticker
    {
      var i :| 0 <= i < |ts| && ts[i] == out[j].ticker;
      assert window[i] in window;
    }
  }
}

/** The `main` of daily_report_generation.py. It keeps at most 2000 of the
    active tickers, chosen at random. A ticker already reported today is
    skipped before any work. For each other ticker the event is fetched (the
    first of at most ten requests that does not raise), and a null event, an
    event without markets or one with more than six is skipped. Every remaining event becomes a task that builds its report (at
    most five attempts) and inserts it. The tasks run concurrently; the order
    in which they complete is an input here. */
module GenerationMain {
  import opened Common
  import opened PyText
  import opened Kalshi
  import opened Pipeline
  import opened ReportStore

  /** More active tickers than this are sampled down to this many. */
  const MaxTickers: nat := 2000
  /** `MAX_TRIALS` of `fetch_event`. */
  const MaxTrials: nat := 10
  /** Events with more markets than this are skipped. */
  const MaxMarkets: nat := 6

  /** One request of `fetch_event`: it raises (the request fails, the status is
      an error, or the body has no "event" key), or the 200 response's "event"
      is JSON null, or it is an event. */
  datatype EventReply = Raised | NullEvent | Found(event: Event)

  /** The services of a run. `fetchTries(t)(k)` is the answer to the k-th
      request for the event of ticker t. `svcs(t)` are
      the report services of the task for ticker t, attempt by attempt, and
      `reportOf(t, title, markets)` names what that task's `get_ddgs_report`
      returns (see `Builds`). */
  datatype Deps = Deps(fetchTries: string -> nat -> EventReply, svcs: string -> nat -> GenServices,
                       reportOf: (string, string, seq<Market>) -> Option<EventReport>)

  /** `reportOf` is the retried report pipeline run with the task's services.
      Naming it keeps the pipeline's definition out of the proofs about the
      task loops. */
  ghost predicate Builds(deps: Deps)
  {
    forall t, title, markets {:trigger RetriedReport(deps.svcs(t), title, markets)} ::
      deps.reportOf(t, title, markets) == RetriedReport(deps.svcs(t), title, markets)
  }

  /** A scheduled `guarded_process`: the requested ticker and the fetched event. */
  datatype Task = Task(ticker: string, eventTicker: string, title: string, markets: seq<Market>)

  /** The tickers kept for the run: all of them, or a random 2000. */
  function Selected(tickers: seq<string>, sample: Sampler<string>): seq<string>
  {
    if |tickers| > MaxTickers then sample(tickers, MaxTickers) else tickers
  }

  /** `fetch_event` from request k on: a request that raises is counted and
      retried, the first one that does not returns its "event", null or not,
      and None after ten raising requests. */
  function FetchFrom(tries: nat -> EventReply, k: nat): Option<Event>
    decreases MaxTrials - k
  {
    if k >= MaxTrials then None
    else match tries(k)
      case Raised => FetchFrom(tries, k + 1)
      case NullEvent => None
      case Found(e) => Some(e)
  }

  function FetchEvent(deps: Deps, ticker: string): Option<Event>
  {
    FetchFrom(deps.fetchTries(ticker), 0)
  }

  /** When request i is the first of the ten that does not raise (i is ten
      when they all raise), `fetch_event` yields its event, and None when
      that request's "event" is null or there is none. */
  lemma {:induction false} FetchFromFirst(tries: nat -> EventReply, k: nat, i: nat)
    requires k <= i <= MaxTrials
    requires forall j :: k <= j < i ==> tries(j).Raised?
    requires i == MaxTrials || !tries(i).Raised?
    ensures FetchFrom(tries, k) == if i < MaxTrials && tries(i).Found? then Some(tries(i).event) else None
    decreases i - k
  {
    if k < i {
      FetchFromFirst(tries, k + 1, i);
    }
  }

  /** An event `fetch_event` yields is the answer of one of the ten requests. */
  lemma {:induction false} FetchFromFound(tries: nat -> EventReply, k: nat)
    requires FetchFrom(tries, k).Some?
    ensures exists i :: k <= i < MaxTrials && tries(i) == Found(FetchFrom(tries, k).value)
    decreases MaxTrials - k
  {
    if tries(k).Raised? {
      FetchFromFound(tries, k + 1);
    }
  }

  /** The loop of `fetch_event`: at most ten requests, stopping at the first
      that does not raise. */
  method FetchEventLoop(tries: nat -> EventReply) returns (event: Option<Event>)
    ensures event == FetchFrom(tries, 0)
  {
    var trials := 0;
    while trials < MaxTrials
      invariant trials <= MaxTrials
      invariant FetchFrom(tries, trials) == FetchFrom(tries, 0)
    {
      match tries(trials)
      case Found(e) => return Some(e);
      case NullEvent => return None;
      case Raised => trials := trials + 1;
    }
    return None;
  }

  /** The fetched event takes part: it exists and has between one and six markets. */
  predicate Schedulable(e: Option<Event>)
  {
    e.Some? && HasMarkets(e.value) && |e.value.markets.value| <= MaxMarkets
  }

  /** The task one iteration of the scheduling loop creates, if any. */
  function Scheduled(deps: Deps, timestamp: string, records: seq<Record>, ticker: string): Option<Task>
  {
    if Lookup(records, timestamp, ticker).Some? then None
    else
      var e := FetchEvent(deps, ticker);
      if Schedulable(e) then Some(Task(ticker, e.value.eventTicker, e.value.title, e.value.markets.value))
      else None
  }

  function Scheduler(deps: Deps, timestamp: string, records: seq<Record>): string -> Option<Task>
  {
    t => Scheduled(deps, timestamp, records, t)
  }

  /** The tasks of a run, in scheduling order. */
  function Schedule(deps: Deps, timestamp: string, records: seq<Record>, tickers: seq<string>): seq<Task>
  {
    FilterMap(Scheduler(deps, timestamp, records), tickers)
  }

  /** What a task inserts: the report of its first successful attempt, under
      the fetched event's ticker. None when every attempt fails: then
      `get_ddgs_report` returns None and unpacking it raises. */
  function TaskWrite(deps: Deps, timestamp: string, task: Task): Option<Record>
  {
    match deps.reportOf(task.ticker, task.title, task.markets)
    case None => None
    case Some(r) => Some(Record(timestamp, task.eventTicker, r.report))
  }

  function TaskWriter(deps: Deps, timestamp: string): Task -> Option<Record>
  {
    task => TaskWrite(deps, timestamp, task)
  }

  /** The completion order of the tasks only rearranges them. */
  ghost predicate Reorders(complete: seq<Task> -> seq<Task>)
  {
    forall tasks :: multiset(complete(tasks)) == multiset(tasks)
  }

  /** The records a run inserts, in completion order, when every task's
      outcome is awaited: each successful task inserts its report and a
      failed task inserts nothing. */
  function Writes(deps: Deps, timestamp: string, records: seq<Record>, tickers: seq<string>,
                  sample: Sampler<string>, complete: seq<Task> -> seq<Task>): seq<Record>
  {
    FilterMap(TaskWriter(deps, timestamp), complete(Schedule(deps, timestamp, records, Selected(tickers, sample))))
  }

  /** The scheduling loop: reads the store, fetches each event and keeps the
      tasks. */
  method ScheduleTasks(store: Store, deps: Deps, timestamp: string, tickers: seq<string>) returns (tasks: seq<Task>)
    ensures tasks == Schedule(deps, timestamp, store.records, tickers)
  {
    ghost var f := Scheduler(deps, timestamp, store.records);
    tasks := [];
    var i := 0;
    while i < |tickers|
      invariant i <= |tickers|
      invariant tasks == FilterMap(f, tickers[..i])
    {
      var ticker := tickers[i];
      FilterMapSnoc(f, tickers, i);
      i := i + 1;
      var existing := store.Read(timestamp, ticker);
      if existing.Some? {
        continue;
      }
      var event := FetchEventLoop(deps.fetchTries(ticker));
      if event.None? || event.value.markets.None? || |event.value.markets.value| == 0 {
        continue;
      }
      if |event.value.markets.value| > MaxMarkets {
        continue;
      }
      tasks := tasks + [Task(ticker, event.value.eventTicker, event.value.title, event.value.markets.value)];
    }
    assert tickers[..i] == tickers;
  }

  /** `guarded_process`: build the report of one task and insert it; insert
      nothing when every attempt failed. */
  method GuardedProcess(store: Store, deps: Deps, timestamp: string, task: Task)
    requires Builds(deps) && forall t, k :: OrderOnly(deps.svcs(t)(k))
    modifies store
    ensures store.records == old(store.records) + FilterMap(TaskWriter(deps, timestamp), [task])
  {
    var report, trials := GenGetDdgsReport(deps.svcs(task.ticker), task.title, task.markets);
    assert report == deps.reportOf(task.ticker, task.title, task.markets);
    assert [task][1..] == [];
    assert FilterMap(TaskWriter(deps, timestamp), [task])
           == if report.Some? then [Record(timestamp, task.eventTicker, report.value.report)] else [];
    if report.Some? {
      store.Write(report.value.report, timestamp, task.eventTicker);
    }
  }

  /** The tasks, run one after another in completion order. */
  method RunTasks(store: Store, deps: Deps, timestamp: string, arrivals: seq<Task>)
    requires Builds(deps) && forall t, k :: OrderOnly(deps.svcs(t)(k))
    modifies store
    ensures store.records == old(store.records) + FilterMap(TaskWriter(deps, timestamp), arrivals)
  {
    ghost var f := TaskWriter(deps, timestamp);
    var i := 0;
    while i < |arrivals|
      invariant i <= |arrivals|
      invariant store.records == old(store.records) + FilterMap(f, arrivals[..i])
    {
      ghost var done := FilterMap(f, arrivals[..i]);
      ghost var step := FilterMap(f, [arrivals[i]]);
      FilterMapExtend(f, arrivals, i);
      GuardedProcess(store, deps, timestamp, arrivals[i]);
      assert store.records == (old(store.records) + done) + step;
      i := i + 1;
    }
    assert arrivals[..i] == arrivals;
  }

  /** `main` of the concurrent script, with the tasks' outcomes all awaited (the corrected gather). */
  method GenerateReports(store: Store, deps: Deps, timestamp: string, tickers: seq<string>,
              sample: Sampler<string>, complete: seq<Task> -> seq<Task>)
    requires Builds(deps) && forall t, k :: OrderOnly(deps.svcs(t)(k))
    modifies store
    ensures store.records == old(store.records) + Writes(deps, timestamp, old(store.records), tickers, sample, complete)
  {
    var selected := tickers;
    if |tickers| > MaxTickers {
      selected := sample(tickers, MaxTickers);
    }
    var tasks := ScheduleTasks(store, deps, timestamp, selected);
    RunTasks(store, deps, timestamp, complete(tasks));
  }

  // ---------------------------------------------------------------------------
  // Properties of a run
  // ---------------------------------------------------------------------------

  /** Every task is for a kept ticker with no report stored today, and carries
      the event `fetch_event` returned, which has one to six markets. */
  lemma ScheduleSound(deps: Deps, timestamp: string, records: seq<Record>, tickers: seq<string>, task: Task)
    requires task in Schedule(deps, timestamp, records, tickers)
    ensures var e := FetchEvent(deps, task.ticker);
            && task.ticker in tickers && Lookup(records, timestamp, task.ticker).None?
            && e.Some? && task.eventTicker == e.value.eventTicker && task.title == e.value.title
            && e.value.markets == Some(task.markets) && 1 <= |task.markets| <= MaxMarkets
  {
    FilterMapMember(Scheduler(deps, timestamp, records), tickers, task);
    var i :| 0 <= i < |tickers| && Scheduled(deps, timestamp, records, tickers[i]) == Some(task);
  }

  /** A ticker gets a task exactly when it is kept, has no report stored
      today, and its fetched event has one to six markets. */
  lemma ScheduleComplete(deps: Deps, timestamp: string, records: seq<Record>, tickers: seq<string>, t: string)
    ensures var tasks := Schedule(deps, timestamp, records, tickers);
            (exists k :: 0 <= k < |tasks| && tasks[k].ticker == t)
            <==> t in tickers && Lookup(records, timestamp, t).None? && Schedulable(FetchEvent(deps, t))
  {
    var f := Scheduler(deps, timestamp, records);
    var tasks := Schedule(deps, timestamp, records, tickers);
    if exists k :: 0 <= k < |tasks| && tasks[k].ticker == t {
      var k :| 0 <= k < |tasks| && tasks[k].ticker == t;
      FilterMapMember(f, tickers, tasks[k]);
      var i :| 0 <= i < |tickers| && Scheduled(deps, timestamp, records, tickers[i]) == Some(tasks[k]);
    }
    if t in tickers && Lookup(records, timestamp, t).None? && Schedulable(FetchEvent(deps, t)) {
      var i :| 0 <= i < |tickers| && tickers[i] == t;
      FilterMapHas(f, tickers, i);
      var k :| 0 <= k < |tasks| && tasks[k] == f(tickers[i]).value;
    }
  }

  /** A ticker whose first request answers with a null "event" gets no task,
      whatever later requests would have answered. */
  lemma NullEventSkipsTicker(deps: Deps, timestamp: string, records: seq<Record>, tickers: seq<string>, t: string)
    requires deps.fetchTries(t)(0).NullEvent?
    ensures var tasks := Schedule(deps, timestamp, records, tickers);
            forall k :: 0 <= k < |tasks| ==> tasks[k].ticker != t
  {
    FetchFromFirst(deps.fetchTries(t), 0, 0);
    ScheduleComplete(deps, timestamp, records, tickers, t);
  }

  /** A task that inserts something inserts a non-empty report, headed
      `# Research Report 1`, under the run's timestamp. */
  lemma TaskWriteShape(deps: Deps, timestamp: string, task: Task)
    requires Builds(deps)
    requires TaskWrite(deps, timestamp, task).Some?
    ensures var w := TaskWrite(deps, timestamp, task).value;
            && w.timestamp == timestamp && w.ticker == task.eventTicker
            && w.report != "" && NoOuterSpace(w.report) && StartsWith(w.report, "# Research Report 1")
  {
    assert deps.reportOf(task.ticker, task.title, task.markets) == RetriedReport(deps.svcs(task.ticker), task.title, task.markets);
    var tries := k => GenAttempt(deps.svcs(task.ticker)(k), task.title, task.markets);
    var hit := FirstSuccess(tries, 0, MaxRetries).value;
    GenAttemptShape(deps.svcs(task.ticker)(hit.0), task.title, task.markets);
  }

  /** Every inserted record holds a non-empty report under the run's
      timestamp, and comes from the task of a ticker of the input list that had
      no report stored today. */
  lemma WritesSound(deps: Deps, timestamp: string, records: seq<Record>, tickers: seq<string>,
                    sample: Sampler<string>, complete: seq<Task> -> seq<Task>, w: Record)
    requires Builds(deps) && DrawsFrom(sample) && Reorders(complete)
    requires w in Writes(deps, timestamp, records, tickers, sample, complete)
    ensures w.timestamp == timestamp && w.report != "" && StartsWith(w.report, "# Research Report 1")
    ensures exists task :: && task in Schedule(deps, timestamp, records, Selected(tickers, sample))
                           && task.eventTicker == w.ticker && task.ticker in tickers
                           && Lookup(records, timestamp, task.ticker).None?
  {
    var selected := Selected(tickers, sample);
    var tasks := Schedule(deps, timestamp, records, selected);
    var arrivals := complete(tasks);
    FilterMapMember(TaskWriter(deps, timestamp), arrivals, w);
    var i :| 0 <= i < |arrivals| && TaskWrite(deps, timestamp, arrivals[i]) == Some(w);
    var task := arrivals[i];
    TaskWriteShape(deps, timestamp, task);
    assert task in multiset(arrivals);
    ScheduleSound(deps, timestamp, records, selected, task);
    assert multiset(selected) <= multiset(tickers);
    assert task.ticker in multiset(selected);
  }

  /** When the fetched event carries the requested ticker, no record is inserted
      under a key that already had a report: a second run of the same day only
      adds reports for tickers the first one missed. */
  lemma NoRewrite(deps: Deps, timestamp: string, records: seq<Record>, tickers: seq<string>,
                  sample: Sampler<string>, complete: seq<Task> -> seq<Task>, w: Record)
    requires Builds(deps) && DrawsFrom(sample) && Reorders(complete)
    requires forall t, k :: deps.fetchTries(t)(k).Found? ==> deps.fetchTries(t)(k).event.eventTicker == t
    requires w in Writes(deps, timestamp, records, tickers, sample, complete)
    ensures Lookup(records, timestamp, w.ticker).None?
  {
    var selected := Selected(tickers, sample);
    WritesSound(deps, timestamp, records, tickers, sample, complete, w);
    var task :| && task in Schedule(deps, timestamp, records, selected)
                && task.eventTicker == w.ticker && task.ticker in tickers
                && Lookup(records, timestamp, task.ticker).None?;
    ScheduleSound(deps, timestamp, records, selected, task);
    FetchFromFound(deps.fetchTries(task.ticker), 0);
  }

  /** Which records a run inserts does not depend on the completion order. */
  lemma WritesOrderFree(deps: Deps, timestamp: string, records: seq<Record>, tickers: seq<string>,
                        sample: Sampler<string>, complete: seq<Task> -> seq<Task>)
    requires Reorders(complete)
    ensures multiset(Writes(deps, timestamp, records, tickers, sample, complete))
            == multiset(FilterMap(TaskWriter(deps, timestamp), Schedule(deps, timestamp, records, Selected(tickers, sample))))
  {
    var tasks := Schedule(deps, timestamp, records, Selected(tickers, sample));
    FilterMapMultiset(TaskWriter(deps, timestamp), complete(tasks), tasks);
  }

  // ---------------------------------------------------------------------------
  // The run as written: `asyncio.gather(*tasks)` without `return_exceptions`
  // ---------------------------------------------------------------------------

  /** A point at which the run can be torn down, for tasks completing in the
      order `arrivals` with outcomes `outcome` (`TaskWriter` of the run): after
      all completions, or after some completion that follows a failed task. The
      first failure makes the gather raise, and `asyncio.run` then cancels the
      tasks still pending. */
  predicate Teardown(outcome: Task -> Option<Record>, arrivals: seq<Task>, cut: nat)
  {
    cut <= |arrivals|
    && (cut == |arrivals| || exists j :: 0 <= j < cut && outcome(arrivals[j]).None?)
  }

  /** The records inserted as written: those of the successful tasks that
      completed before the teardown. */
  function LandedAsWritten(outcome: Task -> Option<Record>, arrivals: seq<Task>, cut: nat): seq<Record>
    requires cut <= |arrivals|
  {
    FilterMap(outcome, arrivals[..cut])
  }

  /** As written, the run inserts an initial part of what the corrected run
      inserts, and that part holds every report completed before the first
      failure. */
  lemma AsWrittenPrefix(outcome: Task -> Option<Record>, arrivals: seq<Task>, cut: nat, j: nat)
    requires Teardown(outcome, arrivals, cut)
    requires j <= |arrivals| && forall k :: 0 <= k < j ==> outcome(arrivals[k]).Some?
    ensures var all := FilterMap(outcome, arrivals);
            var landed := LandedAsWritten(outcome, arrivals, cut);
            && |landed| <= |all| && landed == all[..|landed|]
            && |FilterMap(outcome, arrivals[..j])| <= |landed|
  {
    FilterMapPrefix(outcome, arrivals, cut);
    assert j <= cut;
    assert arrivals[..j] == arrivals[..cut][..j];
    FilterMapPrefix(outcome, arrivals[..cut], j);
  }

  /** The finding: a task that fails after its five attempts and completes
      before a successful one lets the run stop before the successful task
      inserts, while the corrected run inserts it. */
  lemma AsWrittenLosesWrites(outcome: Task -> Option<Record>, arrivals: seq<Task>, j: nat, k: nat)
    requires j < k < |arrivals|
    requires outcome(arrivals[j]).None? && outcome(arrivals[k]).Some?
    ensures Teardown(outcome, arrivals, j + 1)
    ensures |LandedAsWritten(outcome, arrivals, j + 1)| < |FilterMap(outcome, arrivals)|
  {
    assert arrivals == arrivals[..j + 1] + arrivals[j + 1..];
    FilterMapAppend(outcome, arrivals[..j + 1], arrivals[j + 1..]);
    var ix := KeptIndices(outcome, arrivals, j + 1);
    KeptIndicesFacts(outcome, arrivals, j + 1);
    assert k in ix;
  }

  /** Without a failed task, the run as written and the corrected run insert
      the same records. */
  lemma AsWrittenAgrees(outcome: Task -> Option<Record>, arrivals: seq<Task>, cut: nat)
    requires Teardown(outcome, arrivals, cut)
    requires forall k :: 0 <= k < |arrivals| ==> outcome(arrivals[k]).Some?
    ensures LandedAsWritten(outcome, arrivals, cut) == FilterMap(outcome, arrivals)
  {
    assert cut == |arrivals|;
    assert arrivals[..cut] == arrivals;
  }
}

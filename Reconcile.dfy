/** `scrape_kalshi_events` in scrape-kalshi.py: reconcile the open events and
    markets listed today with the previous snapshot files. The four JSON files
    are the four sequences of a `Snapshot`; a run that raises writes none of
    them, so it is modelled as None. The phases, in the script's order:
      1. each previous event is kept (still listed) or refetched and retired,
         with its `ddgs_reports` backfilled over the three day stamps;
      2. each listed event that is new is added, and each of its active markets
         is added (new) or refreshed in place (known);
      3. each previous market missing from the refreshed list is retired with
         today's stamp as its resolution date;
      4. the retired events that closed recently are backfilled again. */
module Reconcile {
  import opened Common
  import opened SnapshotData

  /** Only listed events with fewer than six markets take part. */
  const MaxMarkets: nat := 6
  /** A vanished event's details are requested at most three times. */
  const RefetchTrials: nat := 3
  /** A retired event is backfilled again while it closed within five days. */
  const RecentDays: int := 5

  /** The quote fields refreshed on a known market and copied onto a new one. */
  const QuoteKeys: set<string> := {"yes_bid", "yes_ask", "no_bid", "no_ask", "last_price", "volume", "liquidity"}

  /** A market of a listed event: ticker, status and its quote fields. */
  datatype CurrentMarket = CurrentMarket(ticker: string, status: string, quotes: map<string, string>)
  /** An event of today's listing. */
  datatype CurrentEvent = CurrentEvent(ticker: string, category: string, markets: seq<CurrentMarket>)
  /** The refetched details of a vanished event; None for a key the response lacks. */
  datatype FetchedEvent = FetchedEvent(category: Option<string>, markets: Option<seq<FetchedMarket>>)
  /** An event of the snapshot files; None for a key the dict lacks. */
  datatype StoredEvent = StoredEvent(ticker: string, category: string, reports: Option<map<string, string>>,
                                     resolution: Option<Resolution>)
  /** A market of the snapshot files: its fields, its `market_price` snapshots
      by day stamp, and its `resolution_date`. */
  datatype StoredMarket = StoredMarket(ticker: string, fields: map<string, string>, prices: Option<map<string, real>>,
                                       resolutionDate: Option<string>)
  /** The four files. */
  datatype Snapshot = Snapshot(activeEvents: seq<StoredEvent>, resolvedEvents: seq<StoredEvent>,
                               activeMarkets: seq<StoredMarket>, resolvedMarkets: seq<StoredMarket>)

  /** What the run consults: the clock (as a day number and its stamp), the
      report store, the event-details endpoint (attempt k; None when it
      raises) and the price formula. */
  datatype Env = Env(today: int, stamp: int -> string, read: (string, string) -> Option<string>,
                     refetch: string -> nat -> Option<FetchedEvent>, price: CurrentMarket -> real)

  function Get(m: map<string, string>, k: string): string
  {
    if k in m then m[k] else ""
  }

  /** The `ddgs_reports` of an event, empty when the key is missing. */
  function Reports(e: StoredEvent): map<string, string>
  {
    if e.reports.Some? then e.reports.value else map[]
  }

  function CurrentTickers(events: seq<CurrentEvent>): (ts: seq<string>)
    ensures |ts| == |events|
  {
    seq(|events|, k requires 0 <= k < |events| => events[k].ticker)
  }

  function EventTickers(events: seq<StoredEvent>): (ts: seq<string>)
    ensures |ts| == |events|
  {
    seq(|events|, k requires 0 <= k < |events| => events[k].ticker)
  }

  function MarketTickers(markets: seq<StoredMarket>): (ts: seq<string>)
    ensures |ts| == |markets|
  {
    seq(|markets|, k requires 0 <= k < |markets| => markets[k].ticker)
  }

  /** The listed events that take part: those with fewer than six markets. */
  function Simple(listed: seq<CurrentEvent>): seq<CurrentEvent>
    decreases |listed|
  {
    if listed == [] then []
    else (if |listed[0].markets| < MaxMarkets then [listed[0]] else []) + Simple(listed[1..])
  }

  lemma {:induction false} SimpleFacts(listed: seq<CurrentEvent>, e: CurrentEvent)
    ensures e in Simple(listed) <==> e in listed && |e.markets| < MaxMarkets
    decreases |listed|
  {
    if listed != [] {
      SimpleFacts(listed[1..], e);
      assert listed == [listed[0]] + listed[1..];
    }
  }

  // ---------------------------------------------------------------------------
  // Phase 1: the previous events
  // ---------------------------------------------------------------------------

  /** Where a previous event goes. */
  datatype Placement = Kept(event: StoredEvent) | Retired(event: StoredEvent) | Dropped | Raised

  /** The refetch loop: the first of three attempts that succeeds. */
  function Refetched(env: Env, ticker: string): Option<FetchedEvent>
  {
    FirstValue(env.refetch(ticker), RefetchTrials)
  }

  /** One previous event. A still-listed event is kept. Otherwise its details
      are refetched: exhausting the attempts raises (`"markets" not in None`),
      details without markets drop the event, an empty market list raises (the
      missing close time is formatted), and any other list retires it with the
      summary of its markets and the category of the details. */
  function Place(env: Env, stamps: seq<string>, current: seq<string>, e: StoredEvent): Placement
  {
    if e.ticker in current then Kept(e.(reports := Some(Backfilled(Reports(e), e.ticker, stamps, env.read))))
    else match Refetched(env, e.ticker)
      case None => Raised
      case Some(fe) =>
        match fe.markets
        case None => Dropped
        case Some(ms) =>
          match Summary(ms)
          case None => Raised
          case Some(res) =>
            Retired(e.(category := if fe.category.Some? then fe.category.value else "Uncategorized",
                       reports := Some(Backfilled(Reports(e), e.ticker, stamps, env.read)),
                       resolution := Some(res)))
  }

  /** Where a previous event goes is decided by its ticker and its refetched
      details, and the event keeps its ticker either way. */
  lemma PlaceFacts(env: Env, stamps: seq<string>, current: seq<string>, e: StoredEvent)
    ensures var p := Place(env, stamps, current, e);
            var fe := Refetched(env, e.ticker);
            && (p.Kept? <==> e.ticker in current)
            && (p.Dropped? <==> e.ticker !in current && fe.Some? && fe.value.markets.None?)
            && (p.Raised? <==> e.ticker !in current && (fe.None? || fe.value.markets == Some([])))
            && (p.Raised? <==> e.ticker !in current
                               && ((forall k :: 0 <= k < RefetchTrials ==> env.refetch(e.ticker)(k).None?)
                                   || (fe.Some? && fe.value.markets == Some([]))))
            && ((p.Kept? || p.Retired?) ==>
                  p.event.ticker == e.ticker && p.event.reports == Some(Backfilled(Reports(e), e.ticker, stamps, env.read)))
            && (p.Kept? ==> p.event.category == e.category && p.event.resolution == e.resolution)
            && (p.Retired? ==> p.event.resolution == Summary(fe.value.markets.value) && p.event.resolution.Some?)
  {
    var fe := Refetched(env, e.ticker);
    if fe.Some? && fe.value.markets.Some? {
      SummaryFacts(fe.value.markets.value);
    }
  }

  /** The previous events sorted so far: the kept ones, the resolved list, and
      whether a backfill loop over the stamps has run. */
  datatype Sorted = Sorted(kept: seq<StoredEvent>, retired: seq<StoredEvent>, touched: bool)

  /** `Place` as a function value, the form the loop below is stated over. */
  function PlaceBy(env: Env, stamps: seq<string>, current: seq<string>): StoredEvent -> Placement
  {
    e => Place(env, stamps, current, e)
  }

  /** The loop over the previous events from `acc` on; None when one raises. */
  function SortFrom(place: StoredEvent -> Placement, acc: Sorted, previous: seq<StoredEvent>): Option<Sorted>
    decreases |previous|
  {
    if previous == [] then Some(acc)
    else match place(previous[0])
      case Kept(e) => SortFrom(place, Sorted(acc.kept + [e], acc.retired, true), previous[1..])
      case Retired(e) => SortFrom(place, Sorted(acc.kept, acc.retired + [e], true), previous[1..])
      case Dropped => SortFrom(place, acc, previous[1..])
      case Raised => None
  }

  function KeptOf(place: StoredEvent -> Placement): StoredEvent -> Option<StoredEvent>
  {
    e => match place(e) case Kept(k) => Some(k) case _ => None
  }

  function RetiredOf(place: StoredEvent -> Placement): StoredEvent -> Option<StoredEvent>
  {
    e => match place(e) case Retired(r) => Some(r) case _ => None
  }

  /** The loop over the previous events is a partition: it succeeds iff no event
      raises, and then the kept events are the still-listed ones and the
      retired ones are appended to the resolved list, both in order. */
  lemma SortFacts(place: StoredEvent -> Placement, acc: Sorted, previous: seq<StoredEvent>)
    ensures var r := SortFrom(place, acc, previous);
            && (r.Some? <==> forall k :: 0 <= k < |previous| ==> !place(previous[k]).Raised?)
            && (r.Some? ==>
                  && r.value.kept == acc.kept + FilterMap(KeptOf(place), previous)
                  && r.value.retired == acc.retired + FilterMap(RetiredOf(place), previous)
                  && (r.value.touched <==>
                        acc.touched || exists k :: 0 <= k < |previous| && !place(previous[k]).Dropped?))
  {
    SortSucceeds(place, acc, previous);
    if SortFrom(place, acc, previous).Some? {
      SortContents(place, acc, previous);
      SortTouched(place, acc, previous);
    }
  }

  /** The sorted lists after one event that does not raise. */
  function Advance(acc: Sorted, p: Placement): Sorted
  {
    match p
    case Kept(e) => Sorted(acc.kept + [e], acc.retired, true)
    case Retired(e) => Sorted(acc.kept, acc.retired + [e], true)
    case _ => acc
  }

  lemma SortStep(place: StoredEvent -> Placement, acc: Sorted, previous: seq<StoredEvent>)
    requires previous != [] && !place(previous[0]).Raised?
    ensures SortFrom(place, acc, previous) == SortFrom(place, Advance(acc, place(previous[0])), previous[1..])
  {
  }

  lemma {:induction false} SortSucceeds(place: StoredEvent -> Placement, acc: Sorted, previous: seq<StoredEvent>)
    ensures SortFrom(place, acc, previous).Some? <==> forall k :: 0 <= k < |previous| ==> !place(previous[k]).Raised?
    decreases |previous|
  {
    if previous != [] {
      var p := place(previous[0]);
      var rest := previous[1..];
      forall k | 0 <= k < |rest| ensures rest[k] == previous[k + 1] { }
      if !p.Raised? {
        SortStep(place, acc, previous);
        SortSucceeds(place, Advance(acc, p), rest);
        if forall k :: 0 <= k < |rest| ==> !place(rest[k]).Raised? {
          forall k | 0 <= k < |previous| ensures !place(previous[k]).Raised? {
            if k > 0 { assert previous[k] == rest[k - 1]; }
          }
        }
      }
    }
  }

  lemma {:induction false} SortContents(place: StoredEvent -> Placement, acc: Sorted, previous: seq<StoredEvent>)
    requires SortFrom(place, acc, previous).Some?
    ensures var r := SortFrom(place, acc, previous).value;
            && r.kept == acc.kept + FilterMap(KeptOf(place), previous)
            && r.retired == acc.retired + FilterMap(RetiredOf(place), previous)
    decreases |previous|
  {
    if previous != [] {
      var p := place(previous[0]);
      var rest := previous[1..];
      SortStep(place, acc, previous);
      SortContents(place, Advance(acc, p), rest);
      assert FilterMap(KeptOf(place), previous)
             == (match KeptOf(place)(previous[0]) case Some(u) => [u] case None => []) + FilterMap(KeptOf(place), rest);
      assert FilterMap(RetiredOf(place), previous)
             == (match RetiredOf(place)(previous[0]) case Some(u) => [u] case None => []) + FilterMap(RetiredOf(place), rest);
    }
  }

  lemma {:induction false} SortTouched(place: StoredEvent -> Placement, acc: Sorted, previous: seq<StoredEvent>)
    requires SortFrom(place, acc, previous).Some?
    ensures SortFrom(place, acc, previous).value.touched
            <==> acc.touched || exists k :: 0 <= k < |previous| && !place(previous[k]).Dropped?
    decreases |previous|
  {
    if previous != [] {
      var p := place(previous[0]);
      var rest := previous[1..];
      SortStep(place, acc, previous);
      SortTouched(place, Advance(acc, p), rest);
      if exists k :: 0 <= k < |rest| && !place(rest[k]).Dropped? {
        var k :| 0 <= k < |rest| && !place(rest[k]).Dropped?;
        assert previous[k + 1] == rest[k];
      }
      if exists k :: 0 <= k < |previous| && !place(previous[k]).Dropped? {
        var k :| 0 <= k < |previous| && !place(previous[k]).Dropped?;
        if k > 0 { assert rest[k - 1] == previous[k]; }
      }
    }
  }

  /** One previous event, with the three-attempt refetch loop. */
  method PlaceEvent(env: Env, stamps: seq<string>, current: seq<string>, e: StoredEvent) returns (p: Placement)
    ensures p == Place(env, stamps, current, e)
  {
    if e.ticker in current {
      var reports := Backfill(Reports(e), e.ticker, stamps, env.read);
      return Kept(e.(reports := Some(reports)));
    }
    var fetched, attempts := Retry(env.refetch(e.ticker), RefetchTrials);
    if fetched.None? {
      return Raised;
    }
    if fetched.value.markets.None? {
      return Dropped;
    }
    var summary := Summarize(fetched.value.markets.value);
    if summary.None? {
      return Raised;
    }
    var category := if fetched.value.category.Some? then fetched.value.category.value else "Uncategorized";
    var reports := Backfill(Reports(e), e.ticker, stamps, env.read);
    p := Retired(e.(category := category, reports := Some(reports), resolution := summary));
  }

  /** The loop over the previous events; None when one raises. */
  method SortPrevious(env: Env, stamps: seq<string>, current: seq<string>, previous: seq<StoredEvent>,
                      resolved: seq<StoredEvent>) returns (r: Option<Sorted>)
    ensures r == SortFrom(PlaceBy(env, stamps, current), Sorted([], resolved, false), previous)
  {
    var acc := Sorted([], resolved, false);
    for i := 0 to |previous|
      invariant SortFrom(PlaceBy(env, stamps, current), Sorted([], resolved, false), previous)
                == SortFrom(PlaceBy(env, stamps, current), acc, previous[i..])
    {
      assert previous[i..][1..] == previous[i + 1..];
      var p := PlaceEvent(env, stamps, current, previous[i]);
      match p {
        case Kept(e) => acc := Sorted(acc.kept + [e], acc.retired, true);
        case Retired(e) => acc := Sorted(acc.kept, acc.retired + [e], true);
        case Dropped =>
        case Raised => return None;
      }
    }
    r := Some(acc);
  }

  // ---------------------------------------------------------------------------
  // Phase 2: the listed events and their markets
  // ---------------------------------------------------------------------------

  /** The lists phase 2 grows: the active events, the active markets, and the
      previous markets, which a refresh updates in place. */
  datatype Books = Books(events: seq<StoredEvent>, markets: seq<StoredMarket>, previous: seq<StoredMarket>)

  /** A new event: its report id for today when the store has today's report. */
  function NewEvent(env: Env, now: string, e: CurrentEvent): StoredEvent
  {
    StoredEvent(e.ticker, e.category,
                Some(if env.read(now, e.ticker).Some? then map[now := ReportId(e.ticker, now)] else map[]), None)
  }

  /** A new market: its quotes, and one price snapshot under `key`. */
  function NewMarket(env: Env, key: string, m: CurrentMarket): StoredMarket
  {
    StoredMarket(m.ticker, map k | k in QuoteKeys :: Get(m.quotes, k), Some(map[key := env.price(m)]), None)
  }

  /** `prev_market.update`: each quote field takes the listed value, else the
      stored one, else ""; other fields stay. */
  function Updated(fields: map<string, string>, quotes: map<string, string>): map<string, string>
  {
    fields + map k | k in QuoteKeys :: if k in quotes then quotes[k] else Get(fields, k)
  }

  /** The index of the first market with this ticker (`next(...)`). */
  function FirstIndex(markets: seq<StoredMarket>, ticker: string): (r: Option<nat>)
    ensures r.Some? ==> r.value < |markets| && markets[r.value].ticker == ticker
                        && forall j :: 0 <= j < r.value ==> markets[j].ticker != ticker
    ensures r.None? ==> forall j :: 0 <= j < |markets| ==> markets[j].ticker != ticker
    decreases |markets|
  {
    if markets == [] then None
    else if markets[0].ticker == ticker then Some(0)
    else match FirstIndex(markets[1..], ticker)
      case None => None
      case Some(i) => Some(i + 1)
  }

  /** One market of a listed event. Only active markets count. A new ticker
      is added with a snapshot under `key` (None: the name is unbound and the
      run raises). A known one is refreshed in place, gets today's snapshot
      (a stored market without `market_price` raises) and is added. */
  function MarketStep(env: Env, now: string, key: Option<string>, prevTickers: seq<string>, b: Books,
                      m: CurrentMarket): Option<Books>
  {
    if m.status != "active" then Some(b)
    else if m.ticker !in prevTickers then
      match key
      case None => None
      case Some(k) => Some(b.(markets := b.markets + [NewMarket(env, k, m)]))
    else match FirstIndex(b.previous, m.ticker)
      case None => Some(b)
      case Some(i) =>
        var prev := b.previous[i];
        match prev.prices
        case None => None
        case Some(p) =>
          var u := prev.(fields := Updated(prev.fields, m.quotes), prices := Some(p[now := env.price(m)]));
          Some(b.(markets := b.markets + [u], previous := b.previous[i := u]))
  }

  function MarketsFrom(env: Env, now: string, key: Option<string>, prevTickers: seq<string>, b: Books,
                       ms: seq<CurrentMarket>): Option<Books>
    decreases |ms|
  {
    if ms == [] then Some(b)
    else match MarketStep(env, now, key, prevTickers, b, ms[0])
      case None => None
      case Some(next) => MarketsFrom(env, now, key, prevTickers, next, ms[1..])
  }

  /** A listed event not among the previous tickers is added as new. */
  function Admit(env: Env, now: string, prevEvents: seq<string>, b: Books, e: CurrentEvent): Books
  {
    if e.ticker in prevEvents then b else b.(events := b.events + [NewEvent(env, now, e)])
  }

  function EventsFrom(env: Env, now: string, key: Option<string>, prevEvents: seq<string>, prevTickers: seq<string>,
                      b: Books, events: seq<CurrentEvent>): Option<Books>
    decreases |events|
  {
    if events == [] then Some(b)
    else match MarketsFrom(env, now, key, prevTickers, Admit(env, now, prevEvents, b, events[0]), events[0].markets)
      case None => None
      case Some(next) => EventsFrom(env, now, key, prevEvents, prevTickers, next, events[1..])
  }

  method UpdateMarkets(env: Env, now: string, key: Option<string>, prevTickers: seq<string>, b: Books,
                       ms: seq<CurrentMarket>) returns (r: Option<Books>)
    ensures r == MarketsFrom(env, now, key, prevTickers, b, ms)
  {
    var books := b;
    for j := 0 to |ms|
      invariant MarketsFrom(env, now, key, prevTickers, b, ms) == MarketsFrom(env, now, key, prevTickers, books, ms[j..])
    {
      assert ms[j..][1..] == ms[j + 1..];
      var m := ms[j];
      if m.status == "active" {
        if m.ticker !in prevTickers {
          if key.None? {
            return None;
          }
          books := books.(markets := books.markets + [NewMarket(env, key.value, m)]);
        } else {
          var i := FirstIndex(books.previous, m.ticker);
          if i.Some? {
            var prev := books.previous[i.value];
            if prev.prices.None? {
              return None;
            }
            var u := prev.(fields := Updated(prev.fields, m.quotes), prices := Some(prev.prices.value[now := env.price(m)]));
            books := books.(markets := books.markets + [u], previous := books.previous[i.value := u]);
          }
        }
      }
    }
    r := Some(books);
  }

  method UpdateCurrent(env: Env, now: string, key: Option<string>, prevEvents: seq<string>, prevTickers: seq<string>,
                       b: Books, events: seq<CurrentEvent>) returns (r: Option<Books>)
    ensures r == EventsFrom(env, now, key, prevEvents, prevTickers, b, events)
  {
    var books := b;
    for i := 0 to |events|
      invariant EventsFrom(env, now, key, prevEvents, prevTickers, b, events)
                == EventsFrom(env, now, key, prevEvents, prevTickers, books, events[i..])
    {
      assert events[i..][1..] == events[i + 1..];
      var e := events[i];
      if e.ticker !in prevEvents {
        var report := env.read(now, e.ticker);
        var reports := if report.Some? then map[now := ReportId(e.ticker, now)] else map[];
        books := books.(events := books.events + [StoredEvent(e.ticker, e.category, Some(reports), None)]);
      }
      var next := UpdateMarkets(env, now, key, prevTickers, books, e.markets);
      if next.None? {
        return None;
      }
      books := next.value;
    }
    r := Some(books);
  }

  /** The tickers of the active markets among `ms`, in order. */
  function ActiveIn(ms: seq<CurrentMarket>): seq<string>
    decreases |ms|
  {
    if ms == [] then [] else (if ms[0].status == "active" then [ms[0].ticker] else []) + ActiveIn(ms[1..])
  }

  /** The tickers of the active markets of the listed events, in order. */
  function ActiveTickers(events: seq<CurrentEvent>): seq<string>
    decreases |events|
  {
    if events == [] then [] else ActiveIn(events[0].markets) + ActiveTickers(events[1..])
  }

  /** The listed events not among the previous tickers, as new events. */
  function NewEvents(env: Env, now: string, prevEvents: seq<string>, events: seq<CurrentEvent>): seq<StoredEvent>
    decreases |events|
  {
    if events == [] then []
    else (if events[0].ticker in prevEvents then [] else [NewEvent(env, now, events[0])])
         + NewEvents(env, now, prevEvents, events[1..])
  }

  /** Every new market carries exactly one price snapshot, under `key`. */
  predicate NewKeyed(key: Option<string>, prevTickers: seq<string>, markets: seq<StoredMarket>)
  {
    forall k :: 0 <= k < |markets| && markets[k].ticker !in prevTickers ==>
      key.Some? && markets[k].prices.Some? && markets[k].prices.value.Keys == {key.value}
  }

  /** One market step keeps the events and the previous tickers, and adds the
      market's ticker when it is active. */
  lemma StepFacts(env: Env, now: string, key: Option<string>, prevTickers: seq<string>, b: Books, m: CurrentMarket)
    requires MarketTickers(b.previous) == prevTickers
    requires MarketStep(env, now, key, prevTickers, b, m).Some?
    ensures var r := MarketStep(env, now, key, prevTickers, b, m).value;
            && r.events == b.events
            && MarketTickers(r.previous) == prevTickers
            && MarketTickers(r.markets) == MarketTickers(b.markets) + ActiveIn([m])
  {
    var r := MarketStep(env, now, key, prevTickers, b, m).value;
    assert ActiveIn([m]) == (if m.status == "active" then [m.ticker] else []) by {
      assert [m][1..] == [];
    }
    if m.status == "active" {
      if m.ticker in prevTickers {
        var j :| 0 <= j < |prevTickers| && prevTickers[j] == m.ticker;
        assert b.previous[j].ticker == m.ticker;
        var i := FirstIndex(b.previous, m.ticker).value;
        assert r.previous == b.previous[i := r.previous[i]];
        assert MarketTickers(r.previous) == MarketTickers(b.previous);
      }
      assert MarketTickers(r.markets) == MarketTickers(b.markets) + [m.ticker];
    }
  }

  /** One market step keys a new market under `key`. */
  lemma StepKeyed(env: Env, now: string, key: Option<string>, prevTickers: seq<string>, b: Books, m: CurrentMarket)
    requires NewKeyed(key, prevTickers, b.markets)
    requires MarketStep(env, now, key, prevTickers, b, m).Some?
    ensures NewKeyed(key, prevTickers, MarketStep(env, now, key, prevTickers, b, m).value.markets)
  {
    var r := MarketStep(env, now, key, prevTickers, b, m).value;
    if m.status == "active" && m.ticker !in prevTickers {
      assert r.markets == b.markets + [NewMarket(env, key.value, m)];
      assert map[key.value := env.price(m)].Keys == {key.value};
    }
  }

  lemma {:induction false} MarketsFacts(env: Env, now: string, key: Option<string>, prevTickers: seq<string>, b: Books,
                                        ms: seq<CurrentMarket>)
    requires MarketTickers(b.previous) == prevTickers
    requires MarketsFrom(env, now, key, prevTickers, b, ms).Some?
    ensures var r := MarketsFrom(env, now, key, prevTickers, b, ms).value;
            && r.events == b.events
            && MarketTickers(r.previous) == prevTickers
            && MarketTickers(r.markets) == MarketTickers(b.markets) + ActiveIn(ms)
    decreases |ms|
  {
    if ms != [] {
      var m, rest := ms[0], ms[1..];
      StepFacts(env, now, key, prevTickers, b, m);
      var next := MarketStep(env, now, key, prevTickers, b, m).value;
      assert MarketsFrom(env, now, key, prevTickers, b, ms) == MarketsFrom(env, now, key, prevTickers, next, rest);
      MarketsFacts(env, now, key, prevTickers, next, rest);
      assert ActiveIn(ms) == ActiveIn([m]) + ActiveIn(rest) by {
        assert [m][1..] == [];
      }
    }
  }

  lemma {:induction false} MarketsKeyed(env: Env, now: string, key: Option<string>, prevTickers: seq<string>, b: Books,
                                        ms: seq<CurrentMarket>)
    requires NewKeyed(key, prevTickers, b.markets)
    requires MarketsFrom(env, now, key, prevTickers, b, ms).Some?
    ensures NewKeyed(key, prevTickers, MarketsFrom(env, now, key, prevTickers, b, ms).value.markets)
    decreases |ms|
  {
    if ms != [] {
      StepKeyed(env, now, key, prevTickers, b, ms[0]);
      MarketsKeyed(env, now, key, prevTickers, MarketStep(env, now, key, prevTickers, b, ms[0]).value, ms[1..]);
    }
  }

  /** Phase 2 appends the new listed events to the kept ones in listing order,
      adds exactly the active markets of the listed events in order, and keeps
      the tickers of the previous markets. */
  lemma {:induction false} EventsFacts(env: Env, now: string, key: Option<string>, prevEvents: seq<string>,
                                       prevTickers: seq<string>, b: Books, events: seq<CurrentEvent>)
    requires MarketTickers(b.previous) == prevTickers
    requires EventsFrom(env, now, key, prevEvents, prevTickers, b, events).Some?
    ensures var r := EventsFrom(env, now, key, prevEvents, prevTickers, b, events).value;
            && r.events == b.events + NewEvents(env, now, prevEvents, events)
            && MarketTickers(r.previous) == prevTickers
            && MarketTickers(r.markets) == MarketTickers(b.markets) + ActiveTickers(events)
    decreases |events|
  {
    if events != [] {
      var e, rest := events[0], events[1..];
      var admitted := Admit(env, now, prevEvents, b, e);
      assert admitted.events == b.events + NewEvents(env, now, prevEvents, [e]) && admitted.previous == b.previous
             && admitted.markets == b.markets by {
        assert [e][1..] == [];
      }
      MarketsFacts(env, now, key, prevTickers, admitted, e.markets);
      var next := MarketsFrom(env, now, key, prevTickers, admitted, e.markets).value;
      assert EventsFrom(env, now, key, prevEvents, prevTickers, b, events)
             == EventsFrom(env, now, key, prevEvents, prevTickers, next, rest);
      EventsFacts(env, now, key, prevEvents, prevTickers, next, rest);
    }
  }

  /** Phase 2 keys every new market's one price snapshot under `key`. */
  lemma {:induction false} EventsKeyed(env: Env, now: string, key: Option<string>, prevEvents: seq<string>,
                                       prevTickers: seq<string>, b: Books, events: seq<CurrentEvent>)
    requires NewKeyed(key, prevTickers, b.markets)
    requires EventsFrom(env, now, key, prevEvents, prevTickers, b, events).Some?
    ensures NewKeyed(key, prevTickers, EventsFrom(env, now, key, prevEvents, prevTickers, b, events).value.markets)
    decreases |events|
  {
    if events != [] {
      var admitted := Admit(env, now, prevEvents, b, events[0]);
      MarketsKeyed(env, now, key, prevTickers, admitted, events[0].markets);
      var next := MarketsFrom(env, now, key, prevTickers, admitted, events[0].markets).value;
      EventsKeyed(env, now, key, prevEvents, prevTickers, next, events[1..]);
    }
  }

  /** Every previous market a refresh has changed is among the active markets. */
  predicate RefreshedAreActive(orig: seq<StoredMarket>, b: Books)
  {
    && |b.previous| == |orig|
    && forall i :: 0 <= i < |orig| && b.previous[i] != orig[i] ==> b.previous[i].ticker in MarketTickers(b.markets)
  }

  lemma TickersSnoc(ms: seq<StoredMarket>, x: StoredMarket)
    ensures MarketTickers(ms + [x]) == MarketTickers(ms) + [x.ticker]
  {
  }

  /** One market step only changes a previous market it also adds. */
  lemma StepRefreshed(env: Env, now: string, key: Option<string>, prevTickers: seq<string>, b: Books, m: CurrentMarket,
                      orig: seq<StoredMarket>)
    requires RefreshedAreActive(orig, b)
    requires MarketStep(env, now, key, prevTickers, b, m).Some?
    ensures RefreshedAreActive(orig, MarketStep(env, now, key, prevTickers, b, m).value)
  {
    var r := MarketStep(env, now, key, prevTickers, b, m).value;
    if m.status == "active" {
      if m.ticker !in prevTickers {
        TickersSnoc(b.markets, NewMarket(env, key.value, m));
      } else if FirstIndex(b.previous, m.ticker).Some? {
        var u := r.previous[FirstIndex(b.previous, m.ticker).value];
        assert r.markets == b.markets + [u];
        TickersSnoc(b.markets, u);
      }
    }
  }

  lemma {:induction false} MarketsRefreshed(env: Env, now: string, key: Option<string>, prevTickers: seq<string>, b: Books,
                                            ms: seq<CurrentMarket>, orig: seq<StoredMarket>)
    requires RefreshedAreActive(orig, b)
    requires MarketsFrom(env, now, key, prevTickers, b, ms).Some?
    ensures RefreshedAreActive(orig, MarketsFrom(env, now, key, prevTickers, b, ms).value)
    decreases |ms|
  {
    if ms != [] {
      StepRefreshed(env, now, key, prevTickers, b, ms[0], orig);
      MarketsRefreshed(env, now, key, prevTickers, MarketStep(env, now, key, prevTickers, b, ms[0]).value, ms[1..], orig);
    }
  }

  /** Phase 2 changes only previous markets that it lists as active. */
  lemma {:induction false} EventsRefreshed(env: Env, now: string, key: Option<string>, prevEvents: seq<string>,
                                           prevTickers: seq<string>, b: Books, events: seq<CurrentEvent>,
                                           orig: seq<StoredMarket>)
    requires RefreshedAreActive(orig, b)
    requires EventsFrom(env, now, key, prevEvents, prevTickers, b, events).Some?
    ensures RefreshedAreActive(orig, EventsFrom(env, now, key, prevEvents, prevTickers, b, events).value)
    decreases |events|
  {
    if events != [] {
      var admitted := Admit(env, now, prevEvents, b, events[0]);
      MarketsRefreshed(env, now, key, prevTickers, admitted, events[0].markets, orig);
      var next := MarketsFrom(env, now, key, prevTickers, admitted, events[0].markets).value;
      EventsRefreshed(env, now, key, prevEvents, prevTickers, next, events[1..], orig);
    }
  }

  // ---------------------------------------------------------------------------
  // Phase 3: vanished markets
  // ---------------------------------------------------------------------------

  /** A previous market missing from the final tickers, stamped resolved today. */
  function Vanisher(now: string, finalTickers: seq<string>): StoredMarket -> Option<StoredMarket>
  {
    (m: StoredMarket) => if m.ticker in finalTickers then None else Some(m.(resolutionDate := Some(now)))
  }

  method RetireVanished(now: string, finalTickers: seq<string>, previous: seq<StoredMarket>,
                        resolved: seq<StoredMarket>) returns (r: seq<StoredMarket>)
    ensures r == resolved + FilterMap(Vanisher(now, finalTickers), previous)
  {
    r := resolved;
    for i := 0 to |previous|
      invariant r == resolved + FilterMap(Vanisher(now, finalTickers), previous[..i])
    {
      FilterMapSnoc(Vanisher(now, finalTickers), previous, i);
      var m := previous[i];
      if m.ticker !in finalTickers {
        r := r + [m.(resolutionDate := Some(now))];
      }
    }
    assert previous[..|previous|] == previous;
  }

  /** A market is retired iff it is a previous market whose ticker is not
      final, and then only its resolution date changes, to today's stamp. */
  lemma VanishedFacts(now: string, finalTickers: seq<string>, previous: seq<StoredMarket>, u: StoredMarket)
    ensures u in FilterMap(Vanisher(now, finalTickers), previous) <==>
              exists i :: 0 <= i < |previous| && previous[i].ticker !in finalTickers
                          && u == previous[i].(resolutionDate := Some(now))
  {
    var f := Vanisher(now, finalTickers);
    if u in FilterMap(f, previous) {
      FilterMapMember(f, previous, u);
    }
    if exists i :: 0 <= i < |previous| && previous[i].ticker !in finalTickers && u == previous[i].(resolutionDate := Some(now)) {
      var i :| 0 <= i < |previous| && previous[i].ticker !in finalTickers && u == previous[i].(resolutionDate := Some(now));
      FilterMapHas(f, previous, i);
    }
  }

  // ---------------------------------------------------------------------------
  // Phase 4: recently closed events
  // ---------------------------------------------------------------------------

  /** The event closed within the last five days. */
  predicate Recent(today: int, e: StoredEvent)
  {
    e.resolution.Some? && e.resolution.value.latestClose > today - RecentDays
  }

  function RecentBackfilled(env: Env, stamps: seq<string>, events: seq<StoredEvent>): (r: seq<StoredEvent>)
    ensures |r| == |events|
  {
    seq(|events|, k requires 0 <= k < |events| =>
      if Recent(env.today, events[k])
      then events[k].(reports := Some(Backfilled(Reports(events[k]), events[k].ticker, stamps, env.read)))
      else events[k])
  }

  method BackfillRecent(env: Env, stamps: seq<string>, resolved: seq<StoredEvent>) returns (r: seq<StoredEvent>)
    ensures r == RecentBackfilled(env, stamps, resolved)
  {
    r := resolved;
    for i := 0 to |resolved|
      invariant |r| == |resolved|
      invariant forall k :: i <= k < |r| ==> r[k] == resolved[k]
      invariant forall k :: 0 <= k < i ==> r[k] == RecentBackfilled(env, stamps, resolved)[k]
    {
      var e := r[i];
      if e.resolution.Some? && e.resolution.value.latestClose > env.today - RecentDays {
        var reports := Backfill(Reports(e), e.ticker, stamps, env.read);
        r := r[i := e.(reports := Some(reports))];
      }
    }
  }

  /** Phase 4 changes only the reports of recently closed events, never
      overwrites a report entry, and adds only ids of stored reports. */
  lemma RecentKeeps(env: Env, stamps: seq<string>, events: seq<StoredEvent>, k: nat)
    requires k < |events|
    ensures var e, r := events[k], RecentBackfilled(env, stamps, events)[k];
            && r.ticker == e.ticker && r.category == e.category && r.resolution == e.resolution
            && (!Recent(env.today, e) ==> r == e)
            && (Recent(env.today, e) ==>
                  && (forall t :: t in Reports(e) ==> t in Reports(r) && Reports(r)[t] == Reports(e)[t])
                  && (forall t :: t in Reports(r) && t !in Reports(e) ==>
                        t in stamps && env.read(t, e.ticker).Some? && Reports(r)[t] == ReportId(e.ticker, t)))
  {
    BackfillFacts(Reports(events[k]), events[k].ticker, stamps, env.read);
  }

  // ---------------------------------------------------------------------------
  // The whole run
  // ---------------------------------------------------------------------------

  /** Phases 2 to 4 after the previous events are sorted, with new market
      snapshots keyed by `key`. */
  function Finish(env: Env, stamps: seq<string>, current: seq<CurrentEvent>, previousEvents: seq<StoredEvent>,
                  previousMarkets: seq<StoredMarket>, resolvedMarkets: seq<StoredMarket>, s: Sorted,
                  key: Option<string>): Option<Snapshot>
    requires |stamps| == Days
  {
    var now := stamps[0];
    match EventsFrom(env, now, key, EventTickers(previousEvents), MarketTickers(previousMarkets),
                     Books(s.kept, [], previousMarkets), current)
    case None => None
    case Some(b) =>
      Some(Snapshot(b.events, RecentBackfilled(env, stamps, s.retired), b.markets,
                    resolvedMarkets + FilterMap(Vanisher(now, MarketTickers(b.markets)), b.previous)))
  }

  /** The run, with new market snapshots keyed by today's stamp. */
  function Reconciled(env: Env, listed: seq<CurrentEvent>, previousEvents: seq<StoredEvent>, resolvedEvents: seq<StoredEvent>,
                      previousMarkets: seq<StoredMarket>, resolvedMarkets: seq<StoredMarket>): Option<Snapshot>
  {
    var stamps := Stamps(env.today, env.stamp);
    var current := Simple(listed);
    match SortFrom(PlaceBy(env, stamps, CurrentTickers(current)), Sorted([], resolvedEvents, false), previousEvents)
    case None => None
    case Some(s) => Finish(env, stamps, current, previousEvents, previousMarkets, resolvedMarkets, s, Some(stamps[0]))
  }

  /** The run as written: a new market's snapshot is keyed by the name the
      backfill loops over the stamps leave behind, the oldest stamp, and that
      name is unbound when no such loop has run. */
  function ReconciledAsWritten(env: Env, listed: seq<CurrentEvent>, previousEvents: seq<StoredEvent>,
                               resolvedEvents: seq<StoredEvent>, previousMarkets: seq<StoredMarket>,
                               resolvedMarkets: seq<StoredMarket>): Option<Snapshot>
  {
    var stamps := Stamps(env.today, env.stamp);
    var current := Simple(listed);
    match SortFrom(PlaceBy(env, stamps, CurrentTickers(current)), Sorted([], resolvedEvents, false), previousEvents)
    case None => None
    case Some(s) =>
      Finish(env, stamps, current, previousEvents, previousMarkets, resolvedMarkets, s,
             if s.touched then Some(stamps[Days - 1]) else None)
  }

  /** `scrape_kalshi_events` up to writing the files: list the open events
      (within `fuel` pages), reconcile, and return the four lists, or None
      when the run raises. */
  method ScrapeKalshiEvents(env: Env, list: Option<string> -> Option<Page<CurrentEvent>>, fuel: nat,
                            previousEvents: seq<StoredEvent>, resolvedEvents: seq<StoredEvent>,
                            previousMarkets: seq<StoredMarket>, resolvedMarkets: seq<StoredMarket>)
    returns (out: Option<Snapshot>)
    ensures out == Reconciled(env, Flatten(Batches(Pages(list, None, fuel))), previousEvents, resolvedEvents,
                              previousMarkets, resolvedMarkets)
  {
    var stamps := GetTimestamps(env.today, env.stamp);
    var now := stamps[0];
    var listed := FetchAllEvents(list, fuel);
    var current := Simple(listed);
    var sorted := SortPrevious(env, stamps, CurrentTickers(current), previousEvents, resolvedEvents);
    if sorted.None? {
      return None;
    }
    var books := UpdateCurrent(env, now, Some(now), EventTickers(previousEvents), MarketTickers(previousMarkets),
                               Books(sorted.value.kept, [], previousMarkets), current);
    if books.None? {
      return None;
    }
    var retiredMarkets := RetireVanished(now, MarketTickers(books.value.markets), books.value.previous, resolvedMarkets);
    var retiredEvents := BackfillRecent(env, stamps, sorted.value.retired);
    out := Some(Snapshot(books.value.events, retiredEvents, books.value.markets, retiredMarkets));
  }

  /** The events a successful run writes: the active events are the
      still-listed previous events, then the new listed events; the resolved
      events are the old ones, then the retired previous events, with the
      recently closed ones backfilled. */
  lemma ReconciledEvents(env: Env, listed: seq<CurrentEvent>, previousEvents: seq<StoredEvent>,
                         resolvedEvents: seq<StoredEvent>, previousMarkets: seq<StoredMarket>,
                         resolvedMarkets: seq<StoredMarket>)
    requires Reconciled(env, listed, previousEvents, resolvedEvents, previousMarkets, resolvedMarkets).Some?
    ensures var snap := Reconciled(env, listed, previousEvents, resolvedEvents, previousMarkets, resolvedMarkets).value;
            var stamps := Stamps(env.today, env.stamp);
            var current := Simple(listed);
            var place := PlaceBy(env, stamps, CurrentTickers(current));
            && snap.activeEvents == FilterMap(KeptOf(place), previousEvents)
                                    + NewEvents(env, stamps[0], EventTickers(previousEvents), current)
            && snap.resolvedEvents == RecentBackfilled(env, stamps, resolvedEvents + FilterMap(RetiredOf(place), previousEvents))
  {
    var stamps := Stamps(env.today, env.stamp);
    var current := Simple(listed);
    var place := PlaceBy(env, stamps, CurrentTickers(current));
    SortFacts(place, Sorted([], resolvedEvents, false), previousEvents);
    var s := SortFrom(place, Sorted([], resolvedEvents, false), previousEvents).value;
    EventsFacts(env, stamps[0], Some(stamps[0]), EventTickers(previousEvents), MarketTickers(previousMarkets),
                Books(s.kept, [], previousMarkets), current);
  }

  /** The active markets of a successful run are exactly the active markets of
      the listed events, in order, and each new one has a single price
      snapshot, under today's stamp. */
  lemma ReconciledMarkets(env: Env, listed: seq<CurrentEvent>, previousEvents: seq<StoredEvent>,
                          resolvedEvents: seq<StoredEvent>, previousMarkets: seq<StoredMarket>,
                          resolvedMarkets: seq<StoredMarket>)
    requires Reconciled(env, listed, previousEvents, resolvedEvents, previousMarkets, resolvedMarkets).Some?
    ensures var snap := Reconciled(env, listed, previousEvents, resolvedEvents, previousMarkets, resolvedMarkets).value;
            && MarketTickers(snap.activeMarkets) == ActiveTickers(Simple(listed))
            && NewKeyed(Some(env.stamp(env.today)), MarketTickers(previousMarkets), snap.activeMarkets)
  {
    var stamps := Stamps(env.today, env.stamp);
    var current := Simple(listed);
    var place := PlaceBy(env, stamps, CurrentTickers(current));
    var s := SortFrom(place, Sorted([], resolvedEvents, false), previousEvents).value;
    var start := Books(s.kept, [], previousMarkets);
    EventsFacts(env, stamps[0], Some(stamps[0]), EventTickers(previousEvents), MarketTickers(previousMarkets), start, current);
    EventsKeyed(env, stamps[0], Some(stamps[0]), EventTickers(previousEvents), MarketTickers(previousMarkets), start, current);
  }

  /** The markets a successful run appends to the resolved list are previous
      markets, missing from the active markets, stamped resolved today; every
      previous market missing from the active markets is appended, stamped
      today; the old resolved markets stay in front. */
  lemma ReconciledRetiredMarkets(env: Env, listed: seq<CurrentEvent>, previousEvents: seq<StoredEvent>,
                                 resolvedEvents: seq<StoredEvent>, previousMarkets: seq<StoredMarket>,
                                 resolvedMarkets: seq<StoredMarket>)
    requires Reconciled(env, listed, previousEvents, resolvedEvents, previousMarkets, resolvedMarkets).Some?
    ensures var snap := Reconciled(env, listed, previousEvents, resolvedEvents, previousMarkets, resolvedMarkets).value;
            && |resolvedMarkets| <= |snap.resolvedMarkets| && snap.resolvedMarkets[..|resolvedMarkets|] == resolvedMarkets
            && (forall k :: |resolvedMarkets| <= k < |snap.resolvedMarkets| ==>
                  snap.resolvedMarkets[k].resolutionDate == Some(env.stamp(env.today))
                  && snap.resolvedMarkets[k].ticker in MarketTickers(previousMarkets)
                  && snap.resolvedMarkets[k].ticker !in MarketTickers(snap.activeMarkets))
            && (forall i :: 0 <= i < |previousMarkets| && previousMarkets[i].ticker !in MarketTickers(snap.activeMarkets) ==>
                  previousMarkets[i].(resolutionDate := Some(env.stamp(env.today))) in snap.resolvedMarkets[|resolvedMarkets|..])
  {
    var stamps := Stamps(env.today, env.stamp);
    var now := stamps[0];
    var current := Simple(listed);
    var place := PlaceBy(env, stamps, CurrentTickers(current));
    var s := SortFrom(place, Sorted([], resolvedEvents, false), previousEvents).value;
    var prevTickers := MarketTickers(previousMarkets);
    var start := Books(s.kept, [], previousMarkets);
    EventsFacts(env, now, Some(now), EventTickers(previousEvents), prevTickers, start, current);
    var b := EventsFrom(env, now, Some(now), EventTickers(previousEvents), prevTickers, start, current).value;
    var vanished := FilterMap(Vanisher(now, MarketTickers(b.markets)), b.previous);
    var snap := Reconciled(env, listed, previousEvents, resolvedEvents, previousMarkets, resolvedMarkets).value;
    assert snap.resolvedMarkets == resolvedMarkets + vanished && snap.activeMarkets == b.markets;
    assert snap.resolvedMarkets[|resolvedMarkets|..] == vanished;
    forall k | |resolvedMarkets| <= k < |snap.resolvedMarkets|
      ensures snap.resolvedMarkets[k].resolutionDate == Some(now)
              && snap.resolvedMarkets[k].ticker in prevTickers
              && snap.resolvedMarkets[k].ticker !in MarketTickers(snap.activeMarkets)
    {
      var u := vanished[k - |resolvedMarkets|];
      assert snap.resolvedMarkets[k] == u;
      VanishedFacts(now, MarketTickers(b.markets), b.previous, u);
      var i :| 0 <= i < |b.previous| && b.previous[i].ticker !in MarketTickers(b.markets)
               && u == b.previous[i].(resolutionDate := Some(now));
      assert MarketTickers(b.previous)[i] == prevTickers[i];
    }
    EventsRefreshed(env, now, Some(now), EventTickers(previousEvents), prevTickers, start, current, previousMarkets);
    forall i | 0 <= i < |previousMarkets| && previousMarkets[i].ticker !in MarketTickers(snap.activeMarkets)
      ensures previousMarkets[i].(resolutionDate := Some(now)) in vanished
    {
      assert MarketTickers(b.previous)[i] == prevTickers[i];
      assert b.previous[i] == previousMarkets[i];
      VanishedFacts(now, MarketTickers(b.markets), b.previous, previousMarkets[i].(resolutionDate := Some(now)));
    }
  }

  // ---------------------------------------------------------------------------
  // The price-snapshot key as written
  // ---------------------------------------------------------------------------

  /** As written, every new market of a successful run is priced under the
      oldest stamp of the run, two days before today. */
  lemma AsWrittenKeysOldestStamp(env: Env, listed: seq<CurrentEvent>, previousEvents: seq<StoredEvent>,
                                 resolvedEvents: seq<StoredEvent>, previousMarkets: seq<StoredMarket>,
                                 resolvedMarkets: seq<StoredMarket>)
    requires ReconciledAsWritten(env, listed, previousEvents, resolvedEvents, previousMarkets, resolvedMarkets).Some?
    ensures var snap := ReconciledAsWritten(env, listed, previousEvents, resolvedEvents, previousMarkets, resolvedMarkets).value;
            NewKeyed(Some(env.stamp(env.today - 2)), MarketTickers(previousMarkets), snap.activeMarkets)
  {
    var stamps := Stamps(env.today, env.stamp);
    var current := Simple(listed);
    var tickers := CurrentTickers(current);
    var s := SortFrom(PlaceBy(env, stamps, tickers), Sorted([], resolvedEvents, false), previousEvents).value;
    var key := if s.touched then Some(stamps[Days - 1]) else None;
    var prevTickers := MarketTickers(previousMarkets);
    var start := Books(s.kept, [], previousMarkets);
    EventsKeyed(env, stamps[0], key, EventTickers(previousEvents), prevTickers, start, current);
    var b := EventsFrom(env, stamps[0], key, EventTickers(previousEvents), prevTickers, start, current).value;
    if !s.touched {
      forall k | 0 <= k < |b.markets| && b.markets[k].ticker !in prevTickers
        ensures false
      {
      }
    }
  }

  /** The first run (no previous events or markets) over a listing with one
      small event holding one active market: as written it raises on the
      unbound name, while keyed by today's stamp it writes the event and the
      market with today's price. */
  lemma FirstRunAsWrittenRaises(env: Env, ticker: string, category: string, m: CurrentMarket)
    requires m.status == "active"
    ensures ReconciledAsWritten(env, [CurrentEvent(ticker, category, [m])], [], [], [], []).None?
    ensures var now := env.stamp(env.today);
            Reconciled(env, [CurrentEvent(ticker, category, [m])], [], [], [], [])
              == Some(Snapshot([NewEvent(env, now, CurrentEvent(ticker, category, [m]))], [],
                               [NewMarket(env, now, m)], []))
  {
    var e := CurrentEvent(ticker, category, [m]);
    var now := env.stamp(env.today);
    assert Simple([e]) == [e] by {
      assert [e][1..] == [];
    }
    var stamps := Stamps(env.today, env.stamp);
    assert stamps[0] == now;
    var tickers := CurrentTickers([e]);
    assert SortFrom(PlaceBy(env, stamps, tickers), Sorted([], [], false), []) == Some(Sorted([], [], false));
    assert EventTickers([]) == [] && MarketTickers([]) == [];
    assert RecentBackfilled(env, stamps, []) == [];
    var start := Books([], [], []);
    var admitted := Admit(env, now, [], start, e);
    assert admitted == Books([NewEvent(env, now, e)], [], []);
    assert [m][1..] == [];
    assert e.markets[1..] == [];
    assert [e][1..] == [];
    assert MarketsFrom(env, now, None, [], admitted, e.markets) == None;
    var b := Books([NewEvent(env, now, e)], [NewMarket(env, now, m)], []);
    assert MarketStep(env, now, Some(now), [], admitted, m) == Some(b) by {
      assert admitted.markets + [NewMarket(env, now, m)] == [NewMarket(env, now, m)];
    }
    assert MarketsFrom(env, now, Some(now), [], b, []) == Some(b);
    assert MarketsFrom(env, now, Some(now), [], admitted, e.markets) == Some(b);
    assert EventsFrom(env, now, Some(now), EventTickers([]), MarketTickers([]), start, [e]) == Some(b);
    assert FilterMap(Vanisher(now, MarketTickers(b.markets)), b.previous) == [];
    var snap := Snapshot([NewEvent(env, now, e)], [], [NewMarket(env, now, m)], []);
    assert Finish(env, stamps, [e], [], [], [], Sorted([], [], false), Some(now))
           == Some(Snapshot(b.events, RecentBackfilled(env, stamps, []), b.markets,
                            [] + FilterMap(Vanisher(now, MarketTickers(b.markets)), b.previous)));
    assert [] + FilterMap(Vanisher(now, MarketTickers(b.markets)), b.previous) == [];
    assert Snapshot(b.events, RecentBackfilled(env, stamps, []), b.markets, []) == snap;
    assert Finish(env, stamps, [e], [], [], [], Sorted([], [], false), Some(now)) == Some(snap);
    assert Reconciled(env, [e], [], [], [], []) == Finish(env, stamps, [e], [], [], [], Sorted([], [], false), Some(now));
  }
}

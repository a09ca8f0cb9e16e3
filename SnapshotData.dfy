/** The pieces of scrape-kalshi.py the snapshot reconciliation builds on: the
    day stamps of a run, the paginated events listing, the backfill of an
    event's report ids, and the summary of a vanished event's markets. Dates
    are day numbers; `stamp` renders one as the script's `YYYYMMDD` text. */
module SnapshotData {
  import opened Common
  import opened PyText

  /** `get_timestamps` covers today and the two days before. */
  const Days: nat := 3

  // ---------------------------------------------------------------------------
  // get_timestamps
  // ---------------------------------------------------------------------------

  /** The day stamps of a run, newest first. */
  function Stamps(today: int, stamp: int -> string): seq<string>
  {
    seq(Days, d requires 0 <= d < Days => stamp(today - d))
  }

  /** `get_timestamps`: entry d is the stamp of the day d days before today. */
  method GetTimestamps(today: int, stamp: int -> string) returns (ts: seq<string>)
    ensures ts == Stamps(today, stamp)
    ensures |ts| == Days && forall d :: 0 <= d < Days ==> ts[d] == stamp(today - d)
  {
    ts := [];
    for delta := 0 to Days
      invariant |ts| == delta && forall d :: 0 <= d < delta ==> ts[d] == stamp(today - d)
    {
      ts := ts + [stamp(today - delta)];
    }
  }

  // ---------------------------------------------------------------------------
  // fetch_all_events
  // ---------------------------------------------------------------------------

  /** One successful response of the events listing: its batch and its cursor. */
  datatype Page<T> = Page(events: seq<T>, cursor: Option<string>)

  /** A cursor the loop follows: present and not empty. */
  predicate Truthy(cursor: Option<string>)
  {
    cursor.Some? && cursor.value != ""
  }

  /** The pages `fetch_all_events` reads within `fuel` requests, starting with
      the request that carries `cursor`. `list` answers a request, None when
      the status is not 200. */
  function Pages<T>(list: Option<string> -> Option<Page<T>>, cursor: Option<string>, fuel: nat): seq<Page<T>>
    decreases fuel
  {
    if fuel == 0 then []
    else match list(cursor)
      case None => []
      case Some(p) => [p] + (if Truthy(p.cursor) then Pages(list, p.cursor, fuel - 1) else [])
  }

  function Batches<T>(pages: seq<Page<T>>): seq<seq<T>>
    decreases |pages|
  {
    if pages == [] then [] else [pages[0].events] + Batches(pages[1..])
  }

  /** The pages form a chain: the first answers the request without a cursor,
      each next one answers the truthy cursor of the one before, and the chain
      ends early only on a falsy cursor or a failed request. */
  lemma {:induction false} PagesChain<T>(list: Option<string> -> Option<Page<T>>, cursor: Option<string>, fuel: nat)
    ensures var ps := Pages(list, cursor, fuel);
            && |ps| <= fuel
            && (ps != [] ==> list(cursor) == Some(ps[0]))
            && (ps == [] && fuel > 0 ==> list(cursor).None?)
            && (forall k :: 0 <= k < |ps| - 1 ==> Truthy(ps[k].cursor) && list(ps[k].cursor) == Some(ps[k + 1]))
            && (0 < |ps| < fuel ==> !Truthy(ps[|ps| - 1].cursor) || list(ps[|ps| - 1].cursor).None?)
    decreases fuel
  {
    if fuel > 0 && list(cursor).Some? {
      var p := list(cursor).value;
      if Truthy(p.cursor) {
        PagesChain(list, p.cursor, fuel - 1);
        var rest := Pages(list, p.cursor, fuel - 1);
        var ps := Pages(list, cursor, fuel);
        assert ps == [p] + rest;
        forall k | 0 <= k < |ps| - 1
          ensures Truthy(ps[k].cursor) && list(ps[k].cursor) == Some(ps[k + 1])
        {
          if k > 0 {
            assert ps[k] == rest[k - 1] && ps[k + 1] == rest[k];
          }
        }
      }
    }
  }

  /** `fetch_all_events`, reading at most `fuel` pages: the batches of the pages
      read, concatenated in order. */
  method FetchAllEvents<T>(list: Option<string> -> Option<Page<T>>, fuel: nat) returns (events: seq<T>)
    ensures events == Flatten(Batches(Pages(list, None, fuel)))
  {
    events := [];
    var cursor: Option<string> := None;
    var n := 0;
    while n < fuel
      invariant n <= fuel
      invariant Flatten(Batches(Pages(list, None, fuel))) == events + Flatten(Batches(Pages(list, cursor, fuel - n)))
    {
      var resp := list(cursor);
      if resp.None? {
        return;
      }
      var p := resp.value;
      var rest := if Truthy(p.cursor) then Pages(list, p.cursor, fuel - n - 1) else [];
      assert Pages(list, cursor, fuel - n) == [p] + rest;
      assert ([p] + rest)[1..] == rest;
      events := events + p.events;
      if !Truthy(p.cursor) {
        assert Batches(rest) == [];
        return;
      }
      cursor := p.cursor;
      n := n + 1;
    }
  }

  // ---------------------------------------------------------------------------
  // The ddgs_reports backfill
  // ---------------------------------------------------------------------------

  /** The id recorded for the report of `ticker` on day `t`. */
  function ReportId(ticker: string, t: string): string
  {
    "ddgs_" + Lower(ticker) + "_" + t
  }

  /** An event's `ddgs_reports` after the backfill loop over `stamps`: a missing
      day is added when the store has a report for it. `read` is `read_from_db`. */
  function Backfilled(reports: map<string, string>, ticker: string, stamps: seq<string>,
                      read: (string, string) -> Option<string>): map<string, string>
    decreases |stamps|
  {
    if stamps == [] then reports
    else
      var r := Backfilled(reports, ticker, stamps[..|stamps| - 1], read);
      var t := stamps[|stamps| - 1];
      if t !in r && read(t, ticker).Some? then r[t := ReportId(ticker, t)] else r
  }

  method Backfill(reports: map<string, string>, ticker: string, stamps: seq<string>,
                  read: (string, string) -> Option<string>) returns (r: map<string, string>)
    ensures r == Backfilled(reports, ticker, stamps, read)
  {
    r := reports;
    for i := 0 to |stamps|
      invariant r == Backfilled(reports, ticker, stamps[..i], read)
    {
      assert stamps[..i + 1][..i] == stamps[..i];
      var t := stamps[i];
      if t !in r {
        var report := read(t, ticker);
        if report.Some? {
          r := r[t := ReportId(ticker, t)];
        }
      }
    }
    assert stamps[..|stamps|] == stamps;
  }

  /** The backfill never overwrites an entry; it adds exactly the days of
      `stamps` that were missing and have a stored report, each with its id. */
  lemma {:induction false} BackfillFacts(reports: map<string, string>, ticker: string, stamps: seq<string>,
                                         read: (string, string) -> Option<string>)
    ensures var r := Backfilled(reports, ticker, stamps, read);
            && (forall t :: t in reports ==> t in r && r[t] == reports[t])
            && (forall t :: t in r <==> t in reports || (t in stamps && read(t, ticker).Some?))
            && (forall t :: t in r && t !in reports ==> r[t] == ReportId(ticker, t))
    decreases |stamps|
  {
    if stamps != [] {
      var pre := stamps[..|stamps| - 1];
      BackfillFacts(reports, ticker, pre, read);
      assert stamps == pre + [stamps[|stamps| - 1]];
    }
  }

  /** A backfill over days that are all present or unreported changes nothing. */
  lemma {:induction false} BackfillStable(reports: map<string, string>, ticker: string, stamps: seq<string>,
                                          read: (string, string) -> Option<string>)
    requires forall k :: 0 <= k < |stamps| ==> stamps[k] in reports || read(stamps[k], ticker).None?
    ensures Backfilled(reports, ticker, stamps, read) == reports
    decreases |stamps|
  {
    if stamps != [] {
      var pre := stamps[..|stamps| - 1];
      assert forall k :: 0 <= k < |pre| ==> pre[k] == stamps[k];
      BackfillStable(reports, ticker, pre, read);
    }
  }

  /** Backfilling twice is backfilling once: the script's second backfill of a
      recently resolved event adds nothing. */
  lemma BackfillIdempotent(reports: map<string, string>, ticker: string, stamps: seq<string>,
                           read: (string, string) -> Option<string>)
    ensures var r := Backfilled(reports, ticker, stamps, read);
            Backfilled(r, ticker, stamps, read) == r
  {
    var r := Backfilled(reports, ticker, stamps, read);
    BackfillFacts(reports, ticker, stamps, read);
    forall k | 0 <= k < |stamps|
      ensures stamps[k] in r || read(stamps[k], ticker).None?
    {
      assert stamps[k] in stamps;
    }
    BackfillStable(r, ticker, stamps, read);
  }

  // ---------------------------------------------------------------------------
  // The market summary of a vanished event
  // ---------------------------------------------------------------------------

  /** A market of a refetched event: status, result, and the days of its open
      and close times. */
  datatype FetchedMarket = FetchedMarket(status: string, result: string, openDay: int, closeDay: int)

  /** What the script records on a vanished event from its markets. */
  datatype Resolution = Resolution(isResolved: bool, hasResolved: bool, earliestOpen: int, latestClose: int)

  /** The market still trades. */
  predicate Trading(m: FetchedMarket)
  {
    m.status == "active" || m.status == "initialized"
  }

  /** The market stopped trading with a yes/no result. */
  predicate Settled(m: FetchedMarket)
  {
    !Trading(m) && (m.result == "yes" || m.result == "no")
  }

  /** The summary the loop over the markets builds, market by market; None
      when there is no market, where formatting the missing close time raises. */
  function Summary(markets: seq<FetchedMarket>): Option<Resolution>
    decreases |markets|
  {
    if markets == [] then None
    else
      var m := markets[|markets| - 1];
      match Summary(markets[..|markets| - 1])
      case None => Some(Resolution(!Trading(m), Settled(m), m.openDay, m.closeDay))
      case Some(r) =>
        Some(Resolution(r.isResolved && !Trading(m), r.hasResolved || Settled(m),
                        if m.openDay < r.earliestOpen then m.openDay else r.earliestOpen,
                        if m.closeDay > r.latestClose then m.closeDay else r.latestClose))
  }

  /** The loop of the vanished-event branch over the refetched markets. */
  method Summarize(markets: seq<FetchedMarket>) returns (r: Option<Resolution>)
    ensures r == Summary(markets)
  {
    var earliest: Option<int> := None;
    var latest: Option<int> := None;
    var isResolved := true;
    var hasResolved := false;
    for i := 0 to |markets|
      invariant earliest.None? <==> i == 0
      invariant latest.None? <==> i == 0
      invariant i == 0 ==> isResolved && !hasResolved
      invariant i > 0 ==> Summary(markets[..i]) == Some(Resolution(isResolved, hasResolved, earliest.value, latest.value))
    {
      var m := markets[i];
      assert markets[..i + 1][..i] == markets[..i] && markets[..i + 1][i] == m;
      if earliest.None? || m.openDay < earliest.value {
        earliest := Some(m.openDay);
      }
      if latest.None? || m.closeDay > latest.value {
        latest := Some(m.closeDay);
      }
      if m.status == "active" || m.status == "initialized" {
        isResolved := false;
      }
      if m.status != "active" && m.status != "initialized" && (m.result == "yes" || m.result == "no") {
        hasResolved := true;
      }
    }
    assert markets[..|markets|] == markets;
    if latest.None? {
      return None;
    }
    r := Some(Resolution(isResolved, hasResolved, earliest.value, latest.value));
  }

  /** The summary exists exactly when there are markets. Then the event is
      resolved iff no market still trades, has resolved iff some market settled
      yes or no, and the recorded days are the earliest open and latest close. */
  lemma {:induction false} SummaryFacts(markets: seq<FetchedMarket>)
    ensures Summary(markets).None? <==> markets == []
    ensures Summary(markets).Some? ==>
              var r := Summary(markets).value;
              && (r.isResolved <==> forall k :: 0 <= k < |markets| ==> !Trading(markets[k]))
              && (r.hasResolved <==> exists k :: 0 <= k < |markets| && Settled(markets[k]))
              && (forall k :: 0 <= k < |markets| ==> r.earliestOpen <= markets[k].openDay && markets[k].closeDay <= r.latestClose)
              && (exists k :: 0 <= k < |markets| && r.earliestOpen == markets[k].openDay)
              && (exists k :: 0 <= k < |markets| && r.latestClose == markets[k].closeDay)
    decreases |markets|
  {
    if markets != [] {
      var pre, m := markets[..|markets| - 1], markets[|markets| - 1];
      assert markets == pre + [m];
      SummaryFacts(pre);
      if pre != [] {
        var r := Summary(pre).value;
        var k1 :| 0 <= k1 < |pre| && r.earliestOpen == pre[k1].openDay;
        var k2 :| 0 <= k2 < |pre| && r.latestClose == pre[k2].closeDay;
        assert markets[k1] == pre[k1] && markets[k2] == pre[k2];
        if exists k :: 0 <= k < |pre| && Settled(pre[k]) {
          var k :| 0 <= k < |pre| && Settled(pre[k]);
          assert markets[k] == pre[k];
        }
      }
      assert markets[|markets| - 1] == m;
    }
  }
}

/** The reports collection: documents `(timestamp, event_ticker, ddgs_report)`
    in insertion order. `write_to_db` inserts one document; `read_from_db`
    returns the report of the first document with the given key, or None. */
module ReportStore {
  import opened Common

  datatype Record = Record(timestamp: string, ticker: string, report: string)

  predicate HasKey(r: Record, timestamp: string, ticker: string)
  {
    r.timestamp == timestamp && r.ticker == ticker
  }

  /** The report of the first record stored under (timestamp, ticker). */
  function Lookup(records: seq<Record>, timestamp: string, ticker: string): (r: Option<string>)
    ensures r.None? <==> forall k :: 0 <= k < |records| ==> !HasKey(records[k], timestamp, ticker)
  {
    if records == [] then None
    else if HasKey(records[0], timestamp, ticker) then Some(records[0].report)
    else Lookup(records[1..], timestamp, ticker)
  }

  /** A found report is the one of the first record with the key. */
  lemma {:induction false} LookupFirst(records: seq<Record>, timestamp: string, ticker: string)
    requires Lookup(records, timestamp, ticker).Some?
    ensures exists k :: 0 <= k < |records| && records[k] == Record(timestamp, ticker, Lookup(records, timestamp, ticker).value)
                        && forall j :: 0 <= j < k ==> !HasKey(records[j], timestamp, ticker)
    decreases |records|
  {
    var v := Lookup(records, timestamp, ticker).value;
    if HasKey(records[0], timestamp, ticker) {
      assert records[0] == Record(timestamp, ticker, v);
    } else {
      var rest := records[1..];
      LookupFirst(rest, timestamp, ticker);
      var k :| 0 <= k < |rest| && rest[k] == Record(timestamp, ticker, v)
               && forall j :: 0 <= j < k ==> !HasKey(rest[j], timestamp, ticker);
      assert records[k + 1] == Record(timestamp, ticker, v);
      forall j | 0 <= j < k + 1 ensures !HasKey(records[j], timestamp, ticker) {
        if j > 0 {
          assert records[j] == rest[j - 1];
        }
      }
    }
  }

  /** A read of the longer store sees the older store's answer when it has one,
      and otherwise the newer records' answer: the first write of a key wins. */
  lemma {:induction false} LookupAppend(a: seq<Record>, b: seq<Record>, timestamp: string, ticker: string)
    ensures Lookup(a + b, timestamp, ticker)
            == if Lookup(a, timestamp, ticker).Some? then Lookup(a, timestamp, ticker) else Lookup(b, timestamp, ticker)
    decreases |a|
  {
    if a == [] {
      assert a + b == b;
    } else {
      assert (a + b)[0] == a[0];
      assert (a + b)[1..] == a[1..] + b;
      LookupAppend(a[1..], b, timestamp, ticker);
    }
  }

  /** The store the daily scripts write to. */
  class Store {
    var records: seq<Record>

    constructor (initial: seq<Record>)
      ensures records == initial
    {
      records := initial;
    }

    /** `read_from_db`. */
    method Read(timestamp: string, ticker: string) returns (r: Option<string>)
      ensures r == Lookup(records, timestamp, ticker)
    {
      r := Lookup(records, timestamp, ticker);
    }

    /** `write_to_db`: inserts without checking for an existing document. */
    method Write(report: string, timestamp: string, ticker: string)
      modifies this
      ensures records == old(records) + [Record(timestamp, ticker, report)]
    {
      records := records + [Record(timestamp, ticker, report)];
    }
  }

  /** After a write, the key reads back the written report unless the key was
      already present, in which case it still reads the first report; no other
      key changes. */
  lemma ReadAfterWrite(records: seq<Record>, report: string, timestamp: string, ticker: string,
                       ts: string, t: string)
    ensures var after := records + [Record(timestamp, ticker, report)];
            && (Lookup(records, timestamp, ticker).None? ==> Lookup(after, timestamp, ticker) == Some(report))
            && (Lookup(records, timestamp, ticker).Some? ==> Lookup(after, timestamp, ticker) == Lookup(records, timestamp, ticker))
            && (!(ts == timestamp && t == ticker) ==> Lookup(after, ts, t) == Lookup(records, ts, t))
  {
    var w := [Record(timestamp, ticker, report)];
    LookupAppend(records, w, timestamp, ticker);
    LookupAppend(records, w, ts, t);
    assert w[1..] == [];
  }
}

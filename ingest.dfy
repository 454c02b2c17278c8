/** Loading market records: the loader interface, whose base `fetch` is left to subclasses, and the
    in-memory loader that yields the records falling inside an optional time window. */
module Ingest {
  import opened Wrappers
  import opened Json
  import Seqs

  /** What running a generator to its end gives: the items it yielded and, when it stopped by
      raising, the error. */
  datatype Stream<T> = Stream(items: seq<T>, error: Option<string>)

  /** A field of a loaded record: a datetime (an instant on an integer time line) or any other value. */
  datatype Value = Time(t: int) | Other(v: Json)

  type Record = map<string, Value>

  const NotImplemented: string := "NotImplementedError"
  const Incomparable: string := "TypeError: '<' not supported between the timestamp and a datetime"

  /** DataLoader.schema: the fields a loader's records carry and their types. */
  function Schema(): (m: map<string, string>)
    ensures m.Keys == {"timestamp", "symbol", "price"}
    ensures m["timestamp"] == "datetime" && m["symbol"] == "str" && m["price"] == "float"
  {
    map["timestamp" := "datetime", "symbol" := "str", "price" := "float"]
  }

  /** The two loaders: the base class and the in-memory one over a list of records. */
  datatype Loader = Base | InMemory(records: seq<Record>)

  /** `r.get("timestamp")`: a missing timestamp reads as None. */
  function Stamp(r: Record): Value {
    if "timestamp" in r then r["timestamp"] else Other(JNull)
  }

  /** Inside the closed window [start, end]; a missing bound does not restrict. */
  predicate InWindow(t: int, start: Option<int>, end: Option<int>) {
    (start.None? || start.value <= t) && (end.None? || t <= end.value)
  }

  /** The records the window lets through: all of them without bounds, otherwise those whose
      timestamp is a datetime inside it. */
  predicate Within(r: Record, start: Option<int>, end: Option<int>) {
    (start.None? && end.None?) || (Stamp(r).Time? && InWindow(Stamp(r).t, start, end))
  }

  /** The tests of one record: `ts < start` and then `ts > end`, each only when its bound is given
      (a datetime is always true); comparing anything but a datetime with one raises TypeError. A
      record before `start` is skipped without looking at `end`. */
  function Admit(r: Record, start: Option<int>, end: Option<int>): (ok: Result<bool, string>)
    ensures ok.Failure? <==> (start.Some? || end.Some?) && !Stamp(r).Time?
    ensures ok.Success? ==> (ok.value <==> Within(r, start, end))
  {
    var ts := Stamp(r);
    if start.Some? && !ts.Time? then Failure(Incomparable)
    else if start.Some? && ts.t < start.value then Success(false)
    else if end.Some? && !ts.Time? then Failure(Incomparable)
    else if end.Some? && ts.t > end.value then Success(false)
    else Success(true)
  }

  /** InMemoryLoader.fetch run to its end: it yields each admitted record in turn and stops at the
      first record whose timestamp cannot be compared, keeping what it yielded before. */
  function Filter(records: seq<Record>, start: Option<int>, end: Option<int>): (r: Stream<Record>)
    ensures r.error.Some? ==> start.Some? || end.Some?
    decreases |records|
  {
    if records == [] then Stream([], None)
    else
      var rest := Filter(records[..|records| - 1], start, end);
      var last := records[|records| - 1];
      if rest.error.Some? then rest
      else match Admit(last, start, end)
        case Failure(e) => Stream(rest.items, Some(e))
        case Success(keep) => if keep then Stream(rest.items + [last], None) else rest
  }

  /** DataLoader.fetch and InMemoryLoader.fetch: the base raises as soon as it is called, before
      anything is iterated. */
  function Fetch(loader: Loader, start: Option<int>, end: Option<int>): (r: Result<Stream<Record>, string>)
    ensures r.Failure? <==> loader.Base?
    ensures r.Failure? ==> r.error == NotImplemented
  {
    match loader
    case Base => Failure(NotImplemented)
    case InMemory(records) => Success(Filter(records, start, end))
  }

  /** Everything fetched lies inside the window, and the fetched records are the loader's own, in
      the loader's order, whether or not the fetch ran to its end. */
  lemma FilterSound(records: seq<Record>, start: Option<int>, end: Option<int>)
    ensures var s := Filter(records, start, end);
      && (forall i :: 0 <= i < |s.items| ==> Within(s.items[i], start, end))
      && Seqs.Subseq(s.items, records)
  {
    FilterWithin(records, start, end);
    FilterOrdered(records, start, end);
  }

  lemma {:induction false} FilterWithin(records: seq<Record>, start: Option<int>, end: Option<int>)
    ensures forall r :: r in Filter(records, start, end).items ==> Within(r, start, end)
    decreases |records|
  {
    if records != [] {
      var init, last := records[..|records| - 1], records[|records| - 1];
      FilterWithin(init, start, end);
    }
  }

  lemma {:induction false} FilterOrdered(records: seq<Record>, start: Option<int>, end: Option<int>)
    ensures Seqs.Subseq(Filter(records, start, end).items, records)
    decreases |records|
  {
    if records != [] {
      var init, last := records[..|records| - 1], records[|records| - 1];
      FilterOrdered(init, start, end);
      assert records == init + [last];
      Seqs.SubseqExtend(Filter(init, start, end).items, init, last);
    }
  }

  /** A fetch that runs to its end has yielded exactly the records inside the window, in the loader's
      order: the filter of the records by the window. */
  lemma {:induction false} FilterComplete(records: seq<Record>, start: Option<int>, end: Option<int>)
    requires Filter(records, start, end).error.None?
    ensures Filter(records, start, end).items == Seqs.Filter(records, r => Within(r, start, end))
    ensures forall i :: 0 <= i < |records| ==>
      (records[i] in Filter(records, start, end).items <==> Within(records[i], start, end))
    decreases |records|
  {
    var w := r => Within(r, start, end);
    if records != [] {
      var init, last := records[..|records| - 1], records[|records| - 1];
      FilterComplete(init, start, end);
      assert records == init + [last];
    }
    assert forall i :: 0 <= i < |records| ==> (w(records[i]) <==> Within(records[i], start, end));
  }

  /** A fetch raises exactly when a bound is given and some record's timestamp is not a datetime;
      it never raises without bounds. */
  lemma {:induction false} FilterRaises(records: seq<Record>, start: Option<int>, end: Option<int>)
    ensures Filter(records, start, end).error.Some? <==>
      (start.Some? || end.Some?) && exists i :: 0 <= i < |records| && !Stamp(records[i]).Time?
    ensures Filter(records, start, end).error.Some? ==> Filter(records, start, end).error == Some(Incomparable)
    decreases |records|
  {
    if records != [] {
      var n := |records| - 1;
      var init := records[..n];
      FilterRaises(init, start, end);
      if exists i :: 0 <= i < n && !Stamp(init[i]).Time? {
        var i :| 0 <= i < n && !Stamp(init[i]).Time?;
        assert records[i] == init[i];
      }
      if exists i :: 0 <= i < n && !Stamp(records[i]).Time? {
        var i :| 0 <= i < n && !Stamp(records[i]).Time?;
        assert init[i] == records[i];
      }
    }
  }

  /** Without bounds the loader yields every record, in order. */
  lemma {:induction false} UnboundedFetchAll(records: seq<Record>)
    ensures Fetch(InMemory(records), None, None) == Success(Stream(records, None))
  {
    UnboundedAll(records);
  }

  lemma {:induction false} UnboundedAll(records: seq<Record>)
    ensures Filter(records, None, None) == Stream(records, None)
    decreases |records|
  {
    if records != [] {
      UnboundedAll(records[..|records| - 1]);
      assert records[..|records| - 1] + [records[|records| - 1]] == records;
    }
  }
}

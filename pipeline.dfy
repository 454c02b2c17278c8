/** Feature engineering: a pipeline that feeds a stream of records through its steps in turn, and
    the price-difference feature that tags each record with its symbol's move since the previous
    record of that symbol. */
module Pipeline {
  import opened Wrappers
  import opened Json
  import Ingest

  type Record = map<string, Json>
  type Stream = Ingest.Stream<Record>

  /** The two transformers: the base Feature, whose transform is left to subclasses, and
      PriceDiffFeature. */
  datatype Feature = Abstract | PriceDiff

  const NotImplemented: string := "NotImplementedError"
  const Unhashable: string := "TypeError: unhashable type"
  const Unsupported: string := "TypeError: unsupported operand type(s) for -"

  /** `r.get("symbol")` and `r.get("price")`. */
  function Sym(r: Record): Json { Get(r, "symbol") }
  function Price(r: Record): Json { Get(r, "price") }

  /** The dict key a value stands for: True and 1, or 2.0 and 2, hash and compare equal and so are
      one key. */
  function KeyOf(v: Json): (k: Json)
    ensures Hashable(v) ==> Hashable(k)
    ensures k == JNull <==> v == JNull
  {
    match v
    case JBool(b) => JInt(if b then 1 else 0)
    case JNum(x) => if x == x.Floor as real then JInt(x.Floor) else v
    case _ => v
  }

  /** bool, int and float: the values `-` accepts. */
  predicate IsNumber(v: Json) {
    v.JBool? || v.JInt? || v.JNum?
  }

  function NumValue(v: Json): real
    requires IsNumber(v)
  {
    match v
    case JBool(b) => if b then 1.0 else 0.0
    case JInt(i) => i as real
    case JNum(x) => x
  }

  /** The integer a bool or an int stands for. */
  function IntValue(v: Json): (n: int)
    requires v.JBool? || v.JInt?
    ensures NumValue(v) == n as real
  {
    match v
    case JBool(b) => if b then 1 else 0
    case JInt(i) => i
  }

  /** Python's `a - b` on JSON values: a float when either side is one, an int otherwise (a bool
      counts as 0 or 1), and TypeError for anything but numbers. */
  function Minus(a: Json, b: Json): (r: Result<Json, string>)
    ensures r.Success? <==> IsNumber(a) && IsNumber(b)
    ensures r.Success? ==> IsNumber(r.value) && NumValue(r.value) == NumValue(a) - NumValue(b)
    ensures r.Success? ==> (r.value.JNum? <==> a.JNum? || b.JNum?)
  {
    if !(IsNumber(a) && IsNumber(b)) then Failure(Unsupported)
    else if a.JNum? || b.JNum? then Success(JNum(NumValue(a) - NumValue(b)))
    else Success(JInt(IntValue(a) - IntValue(b)))
  }

  /** `last.get(k)`. */
  function Lookup(last: map<Json, Json>, k: Json): Json {
    if k in last then last[k] else JNull
  }

  /** One iteration of the transform: look up the symbol's last price, tag a copy of the record
      with the difference (None when there is none), and remember this record's price. */
  function Step(last: map<Json, Json>, r: Record): Result<(Record, map<Json, Json>), string> {
    var sym := Sym(r);
    if !Hashable(sym) then Failure(Unhashable)
    else
      var prev := Lookup(last, KeyOf(sym));
      var d := if prev == JNull then Success(JNull) else Minus(Price(r), prev);
      match d
      case Failure(e) => Failure(e)
      case Success(v) => Success((r["price_diff" := v], last[KeyOf(sym) := Price(r)]))
  }

  /** Where the transform stands after some input records: what it has yielded, the last-price map,
      and the error it raised, after which it yields nothing more. */
  datatype Scanned = Scanned(items: seq<Record>, last: map<Json, Json>, error: Option<string>)

  function Scan(rs: seq<Record>): (s: Scanned)
    ensures |s.items| <= |rs|
    ensures s.error.None? ==> |s.items| == |rs|
    decreases |rs|
  {
    if rs == [] then Scanned([], map[], None)
    else
      var s := Scan(rs[..|rs| - 1]);
      if s.error.Some? then s
      else match Step(s.last, rs[|rs| - 1])
        case Failure(e) => s.(error := Some(e))
        case Success(p) => Scanned(s.items + [p.0], p.1, None)
  }

  /** PriceDiffFeature.transform consumed to its end: its own error, or else the input's, which the
      generator lets through once the input is exhausted. */
  function PriceDiffs(input: Stream): (out: Stream)
    ensures |out.items| <= |input.items|
    ensures out.error.None? ==> |out.items| == |input.items|
  {
    var s := Scan(input.items);
    Ingest.Stream(s.items, if s.error.Some? then s.error else input.error)
  }

  /** PriceDiffFeature.transform: the loop over the records with its map of last prices. */
  method TransformPriceDiff(input: Stream) returns (out: Stream)
    ensures out == PriceDiffs(input)
  {
    var last: map<Json, Json> := map[];
    var items: seq<Record> := [];
    for i := 0 to |input.items|
      invariant Scan(input.items[..i]) == Scanned(items, last, None)
    {
      var r := input.items[i];
      assert input.items[..i + 1][..i] == input.items[..i];
      var sym := Sym(r);
      if !Hashable(sym) {
        ScanStops(input.items, i + 1);
        return Ingest.Stream(items, Some(Unhashable));
      }
      var prev := Lookup(last, KeyOf(sym));
      var diff := JNull;
      if prev != JNull {
        var d := Minus(Price(r), prev);
        if d.Failure? {
          ScanStops(input.items, i + 1);
          return Ingest.Stream(items, Some(d.error));
        }
        diff := d.value;
      }
      items := items + [r["price_diff" := diff]];
      last := last[KeyOf(sym) := Price(r)];
    }
    assert input.items[..|input.items|] == input.items;
    out := Ingest.Stream(items, input.error);
  }

  /** Once the transform has raised it reads no further. */
  lemma {:induction false} ScanStops(rs: seq<Record>, n: nat)
    requires n <= |rs| && Scan(rs[..n]).error.Some?
    ensures Scan(rs) == Scan(rs[..n])
    decreases |rs| - n
  {
    if n == |rs| {
      assert rs[..n] == rs;
    } else {
      var m := n + 1;
      assert rs[..m][..n] == rs[..n];
      assert Scan(rs[..m]) == Scan(rs[..n]);
      ScanStops(rs, m);
    }
  }

  /** The price most recently recorded for a key by the records of `rs`: None when no record of that
      symbol came before. */
  function LastPrice(rs: seq<Record>, key: Json): Json
    decreases |rs|
  {
    if rs == [] then JNull
    else if Hashable(Sym(rs[|rs| - 1])) && KeyOf(Sym(rs[|rs| - 1])) == key then Price(rs[|rs| - 1])
    else LastPrice(rs[..|rs| - 1], key)
  }

  /** The difference PriceDiffFeature gives record i of `rs`, read off the records before it. */
  function DiffAt(rs: seq<Record>, i: nat): Result<Json, string>
    requires i < |rs|
  {
    if !Hashable(Sym(rs[i])) then Failure(Unhashable)
    else
      var prev := LastPrice(rs[..i], KeyOf(Sym(rs[i])));
      if prev == JNull then Success(JNull) else Minus(Price(rs[i]), prev)
  }

  /** The map the loop keeps holds, for every key, the last price of that symbol. */
  lemma {:induction false} ScanLast(rs: seq<Record>)
    requires Scan(rs).error.None?
    ensures forall k :: Lookup(Scan(rs).last, k) == LastPrice(rs, k)
    decreases |rs|
  {
    if rs != [] {
      var init := rs[..|rs| - 1];
      assert Scan(init).error.None?;
      ScanLast(init);
    }
  }

  /** The transform yields, in order, one record per input record until the first record whose
      symbol is unhashable or whose price cannot be subtracted: each is the input record with
      `price_diff` set to its price minus the previous price of the same symbol, or None for the
      first record of a symbol. It raises exactly when such a record exists. */
  lemma ScanMeaning(rs: seq<Record>)
    ensures var s := Scan(rs);
      && |s.items| <= |rs|
      && (forall i :: 0 <= i < |s.items| ==> DiffAt(rs, i).Success? && s.items[i] == rs[i]["price_diff" := DiffAt(rs, i).value])
      && (s.error.None? <==> forall i :: 0 <= i < |rs| ==> DiffAt(rs, i).Success?)
      && (s.error.None? ==> |s.items| == |rs|)
      && (s.error.Some? ==> DiffAt(rs, |s.items|).Failure? && s.error == Some(DiffAt(rs, |s.items|).error))
  {
    ScanLength(rs);
    ScanItems(rs);
    ScanError(rs);
  }

  /** One record out per record in until the transform raises, and the record it raises on is one
      of the input's. */
  lemma {:induction false} ScanLength(rs: seq<Record>)
    ensures Scan(rs).error.None? ==> |Scan(rs).items| == |rs|
    ensures Scan(rs).error.Some? ==> |Scan(rs).items| < |rs|
    decreases |rs|
  {
    if rs != [] {
      ScanLength(rs[..|rs| - 1]);
    }
  }

  /** Every record yielded is its input record tagged with its difference. */
  lemma {:induction false} ScanItems(rs: seq<Record>)
    ensures forall i :: 0 <= i < |Scan(rs).items| && i < |rs| ==>
      DiffAt(rs, i).Success? && Scan(rs).items[i] == rs[i]["price_diff" := DiffAt(rs, i).value]
    decreases |rs|
  {
    if rs != [] {
      var n := |rs| - 1;
      var init := rs[..n];
      ScanItems(init);
      ScanLength(init);
      var s := Scan(init);
      var r := Scan(rs);
      assert r.items[..|s.items|] == s.items;
      forall i | 0 <= i < |r.items| && i < |rs|
        ensures DiffAt(rs, i).Success? && r.items[i] == rs[i]["price_diff" := DiffAt(rs, i).value]
      {
        if i < |s.items| {
          assert r.items[i] == s.items[i];
          SamePrefix(rs, n, i);
        } else {
          ScanLast(init);
          StepDiff(s.last, rs, n);
          assert s.error.None? && i == n && Step(s.last, rs[n]).Success?;
          assert r.items[i] == Step(s.last, rs[n]).value.0;
        }
      }
    }
  }

  /** The error the transform raises is the one DiffAt gives the first record it does not yield. */
  lemma {:induction false} ScanError(rs: seq<Record>)
    ensures Scan(rs).error.Some? ==>
      |Scan(rs).items| < |rs| && DiffAt(rs, |Scan(rs).items|).Failure?
      && Scan(rs).error == Some(DiffAt(rs, |Scan(rs).items|).error)
    decreases |rs|
  {
    if rs != [] {
      var n := |rs| - 1;
      var init := rs[..n];
      ScanError(init);
      ScanLength(init);
      var s := Scan(init);
      if s.error.Some? {
        SamePrefix(rs, n, |s.items|);
      } else {
        ScanLast(init);
        StepDiff(s.last, rs, n);
      }
    }
  }

  /** A step from a map that holds the last prices of the records before record n computes the
      difference DiffAt describes. */
  lemma StepDiff(last: map<Json, Json>, rs: seq<Record>, n: nat)
    requires n < |rs|
    requires forall k :: Lookup(last, k) == LastPrice(rs[..n], k)
    ensures Step(last, rs[n]).Failure? <==> DiffAt(rs, n).Failure?
    ensures Step(last, rs[n]).Failure? ==> Step(last, rs[n]).error == DiffAt(rs, n).error
    ensures Step(last, rs[n]).Success? ==> Step(last, rs[n]).value.0 == rs[n]["price_diff" := DiffAt(rs, n).value]
  {
  }

  /** Dropping the last record changes no earlier record's difference. */
  lemma SamePrefix(rs: seq<Record>, n: nat, i: nat)
    requires i < n <= |rs|
    ensures rs[..n][i] == rs[i] && DiffAt(rs[..n], i) == DiffAt(rs, i)
  {
    assert rs[..n][..i] == rs[..i];
  }

  /** A symbol with no earlier record has no previous price. */
  lemma {:induction false} NoEarlierRecord(rs: seq<Record>, key: Json)
    requires forall j :: 0 <= j < |rs| ==> !(Hashable(Sym(rs[j])) && KeyOf(Sym(rs[j])) == key)
    ensures LastPrice(rs, key) == JNull
    decreases |rs|
  {
    if rs != [] {
      NoEarlierRecord(rs[..|rs| - 1], key);
    }
  }

  /** The previous price of a symbol is the price of its latest record, whatever records of other
      symbols came after it: symbols are tracked independently. */
  lemma {:induction false} LatestRecordCounts(rs: seq<Record>, j: nat, key: Json)
    requires j < |rs| && Hashable(Sym(rs[j])) && KeyOf(Sym(rs[j])) == key
    requires forall l :: j < l < |rs| ==> !(Hashable(Sym(rs[l])) && KeyOf(Sym(rs[l])) == key)
    ensures LastPrice(rs, key) == Price(rs[j])
    decreases |rs|
  {
    if j < |rs| - 1 {
      LatestRecordCounts(rs[..|rs| - 1], j, key);
    }
  }

  /** The first record of each symbol gets price_diff None. */
  lemma FirstOfSymbol(input: Stream, i: nat)
    requires i < |input.items| && i < |PriceDiffs(input).items|
    requires forall j :: 0 <= j < i ==>
      !(Hashable(Sym(input.items[j])) && KeyOf(Sym(input.items[j])) == KeyOf(Sym(input.items[i])))
    ensures PriceDiffs(input).items[i] == input.items[i]["price_diff" := JNull]
  {
    ScanMeaning(input.items);
    NoEarlierRecord(input.items[..i], KeyOf(Sym(input.items[i])));
  }

  /** A later record gets its price minus the price of the latest earlier record of its symbol. */
  lemma LaterOfSymbol(input: Stream, i: nat, j: nat)
    requires j < i < |input.items| && i < |PriceDiffs(input).items|
    requires Hashable(Sym(input.items[j])) && KeyOf(Sym(input.items[j])) == KeyOf(Sym(input.items[i]))
    requires forall l :: j < l < i ==>
      !(Hashable(Sym(input.items[l])) && KeyOf(Sym(input.items[l])) == KeyOf(Sym(input.items[i])))
    requires Price(input.items[j]) != JNull
    ensures Minus(Price(input.items[i]), Price(input.items[j])).Success?
    ensures PriceDiffs(input).items[i] ==
      input.items[i]["price_diff" := Minus(Price(input.items[i]), Price(input.items[j])).value]
  {
    ScanMeaning(input.items);
    LatestRecordCounts(input.items[..i], j, KeyOf(Sym(input.items[i])));
  }

  /** Every record the feature yields keeps all fields of its input record besides price_diff, one
      for one and in order; a run without errors yields as many records as it read and passes the
      input's own error on. */
  lemma PriceDiffsKeep(input: Stream)
    ensures var out := PriceDiffs(input);
      && |out.items| <= |input.items|
      && (forall i :: 0 <= i < |out.items| ==>
            out.items[i].Keys == input.items[i].Keys + {"price_diff"}
            && forall k :: k in input.items[i] && k != "price_diff" ==> out.items[i][k] == input.items[i][k])
      && (Scan(input.items).error.None? ==> |out.items| == |input.items| && out.error == input.error)
  {
    ScanMeaning(input.items);
  }

  /** One step of the pipeline: the base Feature raises when its transform is called. */
  function Apply(f: Feature, s: Stream): Result<Stream, string> {
    match f
    case Abstract => Failure(NotImplemented)
    case PriceDiff => Success(PriceDiffs(s))
  }

  /** The steps applied left to right, each to the previous one's output. */
  function RunAll(steps: seq<Feature>, s: Stream): (r: Result<Stream, string>)
    ensures steps == [] ==> r == Success(s)
    ensures r.Failure? ==> r.error == NotImplemented
    decreases |steps|
  {
    if steps == [] then Success(s)
    else match Apply(steps[0], s)
      case Failure(e) => Failure(e)
      case Success(t) => RunAll(steps[1..], t)
  }

  /** FeaturePipeline: its list of steps is fixed when it is built. */
  class FeaturePipeline {
    const steps: seq<Feature>

    constructor (steps: seq<Feature>)
      ensures this.steps == steps
    {
      this.steps := steps;
    }

    /** FeaturePipeline.run: `current` is fed through every step in turn; with no steps it is the
        input itself. */
    method Run(records: Stream) returns (r: Result<Stream, string>)
      ensures r == RunAll(steps, records)
      ensures steps == [] ==> r == Success(records)
    {
      var current := records;
      for i := 0 to |steps|
        invariant RunAll(steps, records) == RunAll(steps[i..], current)
      {
        assert steps[i..][1..] == steps[i + 1..];
        if steps[i].Abstract? {
          return Failure(NotImplemented);
        }
        current := PriceDiffs(current);
      }
      r := Success(current);
    }
  }

  /** Running `a + b` is running `a` and then `b` on its output. */
  lemma {:induction false} RunComposes(a: seq<Feature>, b: seq<Feature>, s: Stream)
    ensures RunAll(a + b, s) ==
      match RunAll(a, s)
      case Failure(e) => Failure(e)
      case Success(t) => RunAll(b, t)
    decreases |a|
  {
    if a == [] {
      assert a + b == b;
    } else {
      assert (a + b)[0] == a[0] && (a + b)[1..] == a[1..] + b;
      match Apply(a[0], s)
      case Failure(e) =>
      case Success(t) => RunComposes(a[1..], b, t);
    }
  }

  /** A pipeline raises exactly when one of its steps is the base Feature. */
  lemma {:induction false} RunRaises(steps: seq<Feature>, s: Stream)
    ensures RunAll(steps, s).Failure? <==> Abstract in steps
    ensures RunAll(steps, s).Failure? ==> RunAll(steps, s).error == NotImplemented
    decreases |steps|
  {
    if steps != [] && steps[0] == PriceDiff {
      RunRaises(steps[1..], PriceDiffs(s));
      assert steps == [steps[0]] + steps[1..];
    }
  }
}

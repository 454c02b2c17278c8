/** The adaptive reinforcement optimizer: an experience memory whose capacity follows the volatility of
    the rewards it holds, and a wrapper around the linear optimizer that tunes its learning rate from
    that memory before every training step. */
module RLAdaptive {
  import opened Wrappers
  import opened Json
  import Numeric
  import Seqs
  import AuditLog
  import Files
  import Optimizer

  const BadInputSize := "input_size must be positive"
  /** The state is written on every tenth update. */
  const SaveEvery: nat := 10

  /** MemorySample: the features of one step and its reward. */
  datatype Sample = Sample(state: seq<Json>, reward: real)

  /** MemorySample.to_dict. */
  function SampleJson(s: Sample): (r: Json)
    ensures r.JObj? && "state" in r.o && "reward" in r.o
    ensures r.o["state"] == JArr(s.state) && r.o["reward"] == JNum(s.reward)
  {
    JObj(map["state" := JArr(s.state), "reward" := JNum(s.reward)])
  }

  /** AdaptiveMemory.snapshot. */
  function Snapshot(buffer: seq<Sample>): (r: seq<Json>)
    ensures |r| == |buffer| && forall i :: 0 <= i < |buffer| ==> r[i] == SampleJson(buffer[i])
  {
    if buffer == [] then [] else [SampleJson(buffer[0])] + Snapshot(buffer[1..])
  }

  function Rewards(buffer: seq<Sample>): (r: seq<real>)
    ensures |r| == |buffer| && forall i :: 0 <= i < |buffer| ==> r[i] == buffer[i].reward
  {
    if buffer == [] then [] else [buffer[0].reward] + Rewards(buffer[1..])
  }

  /** The three figures summary reports. */
  datatype Stats = Stats(count: nat, meanReward: real, volatility: real)

  /** summary: zeros for an empty buffer, else the count, the mean reward and the population standard
      deviation of the rewards. */
  function Summary(buffer: seq<Sample>, sqrt: real -> real): (r: Stats)
    ensures r.count == |buffer|
    ensures buffer == [] ==> r.meanReward == 0.0 && r.volatility == 0.0
    ensures buffer != [] ==> r.meanReward == Numeric.Mean(Rewards(buffer))
    ensures r.volatility == Numeric.Std(Rewards(buffer), sqrt)
  {
    if buffer == [] then Stats(0, 0.0, 0.0)
    else Stats(|buffer|, Numeric.Mean(Rewards(buffer)), sqrt(Numeric.Variance(Rewards(buffer))))
  }

  /** The volatility is never negative and the mean lies within the range of the rewards. */
  lemma SummaryBounds(buffer: seq<Sample>, sqrt: real -> real, lo: real, hi: real)
    requires Numeric.IsSqrt(sqrt)
    requires forall i :: 0 <= i < |buffer| ==> lo <= buffer[i].reward <= hi
    ensures Summary(buffer, sqrt).volatility >= 0.0
    ensures buffer != [] ==> lo <= Summary(buffer, sqrt).meanReward <= hi
  {
    Numeric.StdNonNegative(Rewards(buffer), sqrt);
    if buffer != [] {
      Numeric.MeanBounds(Rewards(buffer), lo, hi);
    }
  }

  /** `int(1 / max(decay, 0.1))`: the stride of the thinning pass. */
  function Stride(decay: real): int
  {
    Numeric.Trunc(1.0 / Numeric.Max(decay, 0.1))
  }

  /** Below a decay of 1 the stride is between 1 and 10; above a decay of 0.5 (the default 0.98
      among them) it is 1, so thinning keeps everything. */
  lemma StrideBounds(decay: real)
    requires decay < 1.0
    ensures 1 <= Stride(decay) <= 10
    ensures decay > 0.5 ==> Stride(decay) == 1
  {
    var m := Numeric.Max(decay, 0.1);
    var q := 1.0 / m;
    Reciprocal(m, q, 1.0);
    Reciprocal(m, q, 10.0);
    Reciprocal(m, q, 2.0);
  }

  /** For `q * m == 1` with a positive `m`: `q` exceeds `c` exactly when `m` is below `1 / c`. */
  lemma Reciprocal(m: real, q: real, c: real)
    requires 0.0 < m && 0.0 < c && q * m == 1.0
    ensures c * m < 1.0 ==> c < q
    ensures 1.0 <= c * m ==> q <= c
  {
    if c * m < 1.0 && q <= c {
      MulMonotone(q, c, m);
    }
    if 1.0 <= c * m && c < q {
      MulMonotone(c, q, m);
    }
  }

  /** Multiplying by a positive number keeps the order. */
  lemma MulMonotone(a: real, b: real, m: real)
    requires 0.0 < m
    ensures a <= b ==> a * m <= b * m
    ensures a < b ==> a * m < b * m
  {
    assert (b - a) * m == b * m - a * m;
    if a < b {
      assert (b - a) * m > 0.0;
    }
  }

  /** The thinning pass over the first `n` positions of `s`: keep every `stride`-th position and the
      newest one. */
  function Kept<T>(s: seq<T>, stride: int, n: nat): (r: seq<T>)
    requires 1 <= stride && n <= |s|
    ensures |r| <= n
  {
    if n == 0 then []
    else Kept(s, stride, n - 1) + (if n - 1 == |s| - 1 || (n - 1) % stride == 0 then [s[n - 1]] else [])
  }

  /** Thinning keeps an order-preserving subsequence. */
  lemma {:induction false} KeptSubseq<T>(s: seq<T>, stride: int, n: nat)
    requires 1 <= stride && n <= |s|
    ensures Seqs.Subseq(Kept(s, stride, n), s[..n])
  {
    if n > 0 {
      KeptSubseq(s, stride, n - 1);
      var k := Kept(s, stride, n - 1);
      var b := s[..n];
      assert b[..|b| - 1] == s[..n - 1] && b[|b| - 1] == s[n - 1];
      if n - 1 == |s| - 1 || (n - 1) % stride == 0 {
        var a := k + [s[n - 1]];
        assert Kept(s, stride, n) == a;
        assert a[..|a| - 1] == k && a[|a| - 1] == s[n - 1];
      } else {
        assert Kept(s, stride, n) == k;
      }
    }
  }

  /** Thinning never drops the newest sample. */
  lemma KeptNewest<T>(s: seq<T>, stride: int)
    requires 1 <= stride && s != []
    ensures Kept(s, stride, |s|) != [] && Kept(s, stride, |s|)[|Kept(s, stride, |s|)| - 1] == s[|s| - 1]
  {
  }

  /** With a stride of 1 thinning keeps everything. */
  lemma {:induction false} KeptAll<T>(s: seq<T>, n: nat)
    requires n <= |s|
    ensures Kept(s, 1, n) == s[..n]
  {
    if n > 0 {
      KeptAll(s, n - 1);
      Seqs.TakeOneMore(s, n - 1);
    }
  }

  /** _truncate: drop the oldest samples down to the capacity, then, when at least `minCapacity` remain
      and the decay is below 1, thin them. */
  function Truncated(buffer: seq<Sample>, capacity: nat, minCapacity: nat, decay: real): (r: seq<Sample>)
  {
    var t := Seqs.Last(buffer, capacity);
    if |t| < minCapacity || decay >= 1.0 then t
    else
      StrideBounds(decay);
      Kept(t, Stride(decay), |t|)
  }

  /** _truncate keeps the buffer within the capacity. */
  lemma TruncatedFits(buffer: seq<Sample>, capacity: nat, minCapacity: nat, decay: real)
    ensures |Truncated(buffer, capacity, minCapacity, decay)| <= capacity
  {
  }

  /** _truncate only removes samples, and keeps the order of the rest. */
  lemma TruncatedSubseq(buffer: seq<Sample>, capacity: nat, minCapacity: nat, decay: real)
    ensures Seqs.Subseq(Truncated(buffer, capacity, minCapacity, decay), buffer)
  {
    var t := Seqs.Last(buffer, capacity);
    Seqs.SuffixSubseq(buffer, |buffer| - |t|);
    if |t| >= minCapacity && decay < 1.0 {
      StrideBounds(decay);
      KeptSubseq(t, Stride(decay), |t|);
      Seqs.TakeAll(t);
      Seqs.SubseqTrans(Kept(t, Stride(decay), |t|), t, buffer);
    }
  }

  /** _truncate never drops the newest sample while the capacity is positive. */
  lemma TruncatedNewest(buffer: seq<Sample>, capacity: nat, minCapacity: nat, decay: real)
    requires buffer != [] && capacity > 0
    ensures Truncated(buffer, capacity, minCapacity, decay) != []
    ensures Truncated(buffer, capacity, minCapacity, decay)[|Truncated(buffer, capacity, minCapacity, decay)| - 1]
      == buffer[|buffer| - 1]
  {
    var t := Seqs.Last(buffer, capacity);
    assert t != [] && t[|t| - 1] == buffer[|buffer| - 1];
    if |t| >= minCapacity && decay < 1.0 {
      StrideBounds(decay);
      KeptNewest(t, Stride(decay));
    }
  }

  /** A buffer within the capacity comes through _truncate whole unless it is thinned with a stride
      above 1. */
  lemma TruncatedWhole(buffer: seq<Sample>, capacity: nat, minCapacity: nat, decay: real)
    requires |buffer| <= capacity && (decay > 0.5 || |buffer| < minCapacity)
    ensures Truncated(buffer, capacity, minCapacity, decay) == buffer
  {
    if |buffer| >= minCapacity && decay < 1.0 {
      StrideBounds(decay);
      KeptAll(buffer, |buffer|);
      Seqs.TakeAll(buffer);
    }
  }

  /** adapt_capacity's effect on the buffer: truncated again only when the capacity changed. */
  function Resized(buffer: seq<Sample>, oldCapacity: nat, capacity: nat, minCapacity: nat, decay: real): seq<Sample> {
    if capacity != oldCapacity then Truncated(buffer, capacity, minCapacity, decay) else buffer
  }

  /** NewestRemembered, stated of the buffer a resize left behind. */
  lemma NewestKept(buffer: seq<Sample>, sample: Sample, oldCapacity: nat, capacity: nat, minCapacity: nat, decay: real,
                   resized: seq<Sample>)
    requires resized == Resized(Truncated(buffer + [sample], oldCapacity, minCapacity, decay), oldCapacity, capacity,
                                minCapacity, decay)
    ensures oldCapacity > 0 && capacity > 0 ==> resized != [] && resized[|resized| - 1] == sample
  {
    if oldCapacity > 0 && capacity > 0 {
      NewestRemembered(buffer, sample, oldCapacity, capacity, minCapacity, decay);
    }
  }

  /** After update the new sample is the newest one in the memory, unless a capacity of zero emptied it. */
  lemma NewestRemembered(buffer: seq<Sample>, sample: Sample, oldCapacity: nat, capacity: nat, minCapacity: nat, decay: real)
    requires oldCapacity > 0 && capacity > 0
    ensures var r := Resized(Truncated(buffer + [sample], oldCapacity, minCapacity, decay), oldCapacity, capacity, minCapacity, decay);
      r != [] && r[|r| - 1] == sample
  {
    var appended := buffer + [sample];
    assert appended[|appended| - 1] == sample;
    TruncatedNewest(appended, oldCapacity, minCapacity, decay);
    var t := Truncated(appended, oldCapacity, minCapacity, decay);
    if capacity != oldCapacity {
      TruncatedNewest(t, capacity, minCapacity, decay);
    }
  }

  /** adapt_capacity's target: `int(base * (1 + min(volatility, 2)))` clamped to [minimum, maximum]
      (the minimum winning when the bounds cross). */
  function TargetCapacity(base: nat, minCapacity: nat, maxCapacity: int, volatility: real): (r: nat)
    ensures r >= minCapacity
    ensures minCapacity <= maxCapacity ==> r <= maxCapacity
  {
    Numeric.MaxInt(minCapacity, Numeric.MinInt(maxCapacity, Scaled(base as real, volatility)))
  }

  /** Calm rewards keep the base capacity and the capacity never shrinks as the volatility grows. */
  lemma CapacityFollowsVolatility(base: nat, minCapacity: nat, maxCapacity: int, v: real, w: real)
    requires 0.0 <= v <= w
    ensures TargetCapacity(base, minCapacity, maxCapacity, 0.0)
      == Numeric.MaxInt(minCapacity, Numeric.MinInt(maxCapacity, base))
    ensures TargetCapacity(base, minCapacity, maxCapacity, v) <= TargetCapacity(base, minCapacity, maxCapacity, w)
  {
    ScaledCalm(base);
    ScaledMonotone(base as real, v, w);
    ClampMonotone(minCapacity, maxCapacity, Scaled(base as real, v), Scaled(base as real, w));
  }

  /** `int(base * (1 + min(volatility, 2)))`. */
  function Scaled(base: real, volatility: real): int {
    Numeric.Trunc(Grown(base, volatility))
  }

  function Grown(base: real, volatility: real): real {
    base * Factor(volatility)
  }

  /** The growth factor `1 + min(volatility, 2)`. */
  function Factor(volatility: real): real {
    1.0 + Numeric.Min(volatility, 2.0)
  }

  lemma ScaledMonotone(b: real, v: real, w: real)
    requires 0.0 <= b && 0.0 <= v <= w
    ensures Scaled(b, v) <= Scaled(b, w)
  {
    ScaledOrdered(b, v, w);
    FloorMonotone(Grown(b, v), Grown(b, w));
  }

  lemma ScaledCalm(base: nat)
    ensures Scaled(base as real, 0.0) == base
  {
    assert Factor(0.0) == 1.0;
    assert Grown(base as real, 0.0) == base as real;
  }

  lemma ScaledOrdered(b: real, v: real, w: real)
    requires 0.0 <= b && 0.0 <= v <= w
    ensures 0.0 <= Grown(b, v) <= Grown(b, w)
  {
    var fv, fw := Factor(v), Factor(w);
    assert 1.0 <= fv <= fw;
    Optimizer.NonNegProduct(b, fv);
    Optimizer.NonNegProduct(b, fw - fv);
    assert b * fw - b * fv == b * (fw - fv);
  }

  lemma FloorMonotone(x: real, y: real)
    requires 0.0 <= x <= y
    ensures Numeric.Trunc(x) <= Numeric.Trunc(y)
  {
    assert x.Floor <= y.Floor;
  }

  lemma ClampMonotone(lo: int, hi: int, a: int, b: int)
    requires a <= b
    ensures Numeric.MaxInt(lo, Numeric.MinInt(hi, a)) <= Numeric.MaxInt(lo, Numeric.MinInt(hi, b))
  {
  }

  /** The experience buffer with dynamic capacity. The sizing parameters are fixed at construction. */
  class AdaptiveMemory {
    const baseCapacity: nat
    const maxCapacity: int
    const minCapacity: nat
    const decay: real
    var buffer: seq<Sample>
    var capacity: nat

    /** The buffer never holds more samples than the capacity. */
    predicate Valid()
      reads this
    {
      |buffer| <= capacity
    }

    /** A fresh memory starts empty at its base capacity. */
    constructor (baseCapacity: nat, maxCapacity: int, minCapacity: nat, decay: real)
      ensures this.baseCapacity == baseCapacity && this.maxCapacity == maxCapacity
      ensures this.minCapacity == minCapacity && this.decay == decay
      ensures buffer == [] && capacity == baseCapacity && Valid()
    {
      this.baseCapacity := baseCapacity;
      this.maxCapacity := maxCapacity;
      this.minCapacity := minCapacity;
      this.decay := decay;
      buffer := [];
      capacity := baseCapacity;
    }

    /** append. */
    method Append(state: seq<Json>, reward: real)
      modifies this
      ensures buffer == Truncated(old(buffer) + [Sample(state, reward)], capacity, minCapacity, decay)
      ensures capacity == old(capacity) && Valid()
    {
      buffer := buffer + [Sample(state, reward)];
      Truncate();
    }

    /** adapt_capacity: move to the target capacity, truncating only when it changed. */
    method AdaptCapacity(volatility: real)
      requires Valid()
      modifies this
      ensures capacity == TargetCapacity(baseCapacity, minCapacity, maxCapacity, volatility)
      ensures buffer == Resized(old(buffer), old(capacity), capacity, minCapacity, decay)
      ensures Valid()
    {
      var clamped := TargetCapacity(baseCapacity, minCapacity, maxCapacity, volatility);
      if clamped != capacity {
        capacity := clamped;
        Truncate();
      }
    }

    /** The memory half of update: append the sample, summarise, adapt the capacity to the volatility. */
    method Remember(sample: Sample, sqrt: real -> real) returns (stats: Stats)
      requires Valid()
      modifies this
      ensures stats == Summary(Truncated(old(buffer) + [sample], old(capacity), minCapacity, decay), sqrt)
      ensures Numeric.IsSqrt(sqrt) ==> stats.volatility >= 0.0
      ensures capacity == TargetCapacity(baseCapacity, minCapacity, maxCapacity, stats.volatility)
      ensures buffer == Resized(Truncated(old(buffer) + [sample], old(capacity), minCapacity, decay), old(capacity), capacity, minCapacity, decay)
      ensures Valid()
    {
      Append(sample.state, sample.reward);
      stats := Summary(buffer, sqrt);
      if Numeric.IsSqrt(sqrt) {
        Numeric.StdNonNegative(Rewards(buffer), sqrt);
      }
      AdaptCapacity(stats.volatility);
    }

    /** load_snapshot, all or nothing: every item is converted first; if one does not convert the
        buffer is left as it was and `ok` is false. */
    method LoadSnapshot(items: seq<Json>, codec: Codec) returns (ok: bool)
      requires Valid()
      modifies this
      ensures ok <==> Decode(items, codec).1
      ensures buffer == if ok then Truncated(Decode(items, codec).0, capacity, minCapacity, decay) else old(buffer)
      ensures capacity == old(capacity) && Valid()
    {
      var loaded: seq<Sample> := [];
      var i := 0;
      while i < |items|
        invariant 0 <= i <= |items|
        invariant buffer == old(buffer) && capacity == old(capacity)
        invariant Decode(items[..i], codec) == (loaded, true)
      {
        var s := SampleOf(items[i], codec);
        DecodeSnoc(items[..i], items[i], codec);
        Seqs.TakeOneMore(items, i);
        if s.None? {
          DecodeExtend(items[..i + 1], items[i + 1..], codec);
          assert items[..i + 1] + items[i + 1..] == items;
          return false;
        }
        loaded := loaded + [s.value];
        i := i + 1;
      }
      Seqs.TakeAll(items);
      buffer := loaded;
      Truncate();
      ok := true;
    }

    /** _truncate. */
    method Truncate()
      modifies this
      ensures buffer == Truncated(old(buffer), capacity, minCapacity, decay)
      ensures capacity == old(capacity) && Valid()
    {
      DropOldest();
      if |buffer| < minCapacity {
        return;
      }
      if decay < 1.0 {
        StrideBounds(decay);
        buffer := Thin(buffer, Stride(decay));
      }
    }

    /** _truncate's first loop: popleft while the buffer is over capacity. */
    method DropOldest()
      modifies this
      ensures buffer == Seqs.Last(old(buffer), capacity) && capacity == old(capacity)
    {
      ghost var original := buffer;
      while |buffer| > capacity
        invariant capacity == old(capacity)
        invariant |buffer| <= |original| && buffer == original[|original| - |buffer|..]
        invariant |buffer| == |original| || capacity <= |buffer|
        decreases |buffer|
      {
        buffer := buffer[1..];
      }
    }
  }

  /** _truncate's thinning loop. */
  method Thin(buffer: seq<Sample>, stride: int) returns (keep: seq<Sample>)
    requires 1 <= stride
    ensures keep == Kept(buffer, stride, |buffer|)
  {
    keep := [];
    var idx := 0;
    while idx < |buffer|
      invariant 0 <= idx <= |buffer|
      invariant keep == Kept(buffer, stride, idx)
    {
      if idx == |buffer| - 1 || idx % stride == 0 {
        keep := keep + [buffer[idx]];
      }
      idx := idx + 1;
    }
  }

  /** Python's list(v) on a decoded value: a list is itself, a string its characters, an empty dict
      nothing; None where list() raises or where the value is a non-empty dict. */
  function ListOf(v: Json): (r: Option<seq<Json>>)
    ensures v.JArr? ==> r == Some(v.a)
  {
    match v
    case JArr(a) => Some(a)
    case JStr(s) => Some(seq(|s|, i requires 0 <= i < |s| => JStr([s[i]])))
    case JObj(o) => if o == map[] then Some([]) else None
    case _ => None
  }

  /** One item of a snapshot: a dict whose "state" (default []) goes through list() and whose "reward"
      (default 0.0) goes through float(). */
  function SampleOf(item: Json, codec: Codec): (r: Option<Sample>)
    ensures r.Some? ==> item.JObj?
  {
    if !item.JObj? then None
    else
      var state := ListOf(GetOr(item.o, "state", JArr([])));
      var reward := ToFloat(GetOr(item.o, "reward", JNum(0.0)), codec);
      if state.Some? && reward.Some? then Some(Sample(state.value, reward.value)) else None
  }

  /** The samples load_snapshot's loop has appended when it stops, and whether it got through all the
      items: it converts items in order and stops at the first one that raises. */
  function Decode(items: seq<Json>, codec: Codec): (r: (seq<Sample>, bool))
    ensures |r.0| <= |items|
    ensures r.1 ==> |r.0| == |items|
  {
    if items == [] then ([], true)
    else
      match SampleOf(items[0], codec)
      case None => ([], false)
      case Some(s) =>
        var rest := Decode(items[1..], codec);
        ([s] + rest.0, rest.1)
  }

  lemma {:induction false} DecodeSnoc(items: seq<Json>, item: Json, codec: Codec)
    requires Decode(items, codec).1
    ensures Decode(items + [item], codec)
      == (if SampleOf(item, codec).Some? then (Decode(items, codec).0 + [SampleOf(item, codec).value], true)
          else (Decode(items, codec).0, false))
  {
    if items == [] {
      assert [item][1..] == [] && [item][0] == item;
      assert Decode([], codec) == ([], true);
      if SampleOf(item, codec).Some? {
        var x := SampleOf(item, codec).value;
        assert [x] + [] == [x] && [] + [x] == [x];
      }
    } else {
      assert (items + [item])[0] == items[0];
      assert (items + [item])[1..] == items[1..] + [item];
      DecodeSnoc(items[1..], item, codec);
      var h := SampleOf(items[0], codec).value;
      var t := Decode(items[1..], codec).0;
      assert Decode(items, codec).0 == [h] + t;
      if SampleOf(item, codec).Some? {
        Seqs.AppendAssoc([h], t, [SampleOf(item, codec).value]);
      }
    }
  }

  /** Once an item fails, nothing after it changes the outcome. */
  lemma {:induction false} DecodeExtend(items: seq<Json>, more: seq<Json>, codec: Codec)
    requires !Decode(items, codec).1
    ensures Decode(items + more, codec) == Decode(items, codec)
  {
    assert items != [];
    assert (items + more)[0] == items[0];
    if SampleOf(items[0], codec).Some? {
      assert (items + more)[1..] == items[1..] + more;
      DecodeExtend(items[1..], more, codec);
    }
  }

  /** Snapshots decode back to the samples they were taken from. */
  lemma {:induction false} DecodeSnapshot(buffer: seq<Sample>, codec: Codec)
    ensures Decode(Snapshot(buffer), codec) == (buffer, true)
  {
    if buffer != [] {
      var items := Snapshot(buffer);
      var rest := buffer[1..];
      assert items[1..] == Snapshot(rest);
      DecodeSnapshot(rest, codec);
      SampleRoundTrip(buffer[0], codec);
      assert [buffer[0]] + rest == buffer;
    }
  }

  /** to_dict followed by the conversions of load_snapshot gives the sample back. */
  lemma SampleRoundTrip(s: Sample, codec: Codec)
    ensures SampleOf(SampleJson(s), codec) == Some(s)
  {
    var o := SampleJson(s).o;
    assert GetOr(o, "state", JArr([])) == JArr(s.state);
    assert GetOr(o, "reward", JNum(0.0)) == JNum(s.reward);
  }

  /** What iterating `data.get("memory", [])` yields: a list's elements; nothing for an empty string or
      dict; None where iterating raises before any item is appended (a non-iterable value, or the
      strings a non-empty string or dict yields, which have no `get`). */
  function Items(v: Json): (r: Option<seq<Json>>)
    ensures v.JArr? ==> r == Some(v.a)
  {
    match v
    case JArr(a) => Some(a)
    case JStr(s) => if s == "" then Some([]) else None
    case JObj(o) => if o == map[] then Some([]) else None
    case _ => None
  }

  /** The tuned figures and the memory a state file restores. */
  datatype Tuning = Tuning(learningRate: real, epsilon: real, gamma: real, buffer: seq<Sample>)

  /** The payload save_state writes. */
  function Saved(t: Tuning): Json {
    JObj(map["learning_rate" := JNum(t.learningRate), "epsilon" := JNum(t.epsilon),
             "gamma" := JNum(t.gamma), "memory" := JArr(Snapshot(t.buffer))])
  }

  /** The four fields _load_state reads from a parsed file, each defaulting to the current value:
      None if the file is not a dict or a field does not convert. */
  function Fields(data: Json, current: Tuning, codec: Codec): (r: Option<(real, real, real, seq<Json>)>)
    ensures r.Some? ==> data.JObj?
  {
    if !data.JObj? then None
    else
      var lr := ToFloat(GetOr(data.o, "learning_rate", JNum(current.learningRate)), codec);
      var epsilon := ToFloat(GetOr(data.o, "epsilon", JNum(current.epsilon)), codec);
      var gamma := ToFloat(GetOr(data.o, "gamma", JNum(current.gamma)), codec);
      var items := Items(GetOr(data.o, "memory", JArr([])));
      if lr.None? || epsilon.None? || gamma.None? || items.None? then None
      else Some((lr.value, epsilon.value, gamma.value, items.value))
  }

  /** _load_state as corrected: every field of the parsed file converts (missing ones defaulting to
      the current values) or nothing is applied. */
  function Restored(data: Json, current: Tuning, capacity: nat, minCapacity: nat, decay: real, codec: Codec): (r: Option<Tuning>)
    ensures r.Some? ==> data.JObj?
  {
    var fields := Fields(data, current, codec);
    if fields.None? || !Decode(fields.value.3, codec).1 then None
    else
      var (lr, epsilon, gamma, items) := fields.value;
      Some(Tuning(lr, epsilon, gamma, Truncated(Decode(items, codec).0, capacity, minCapacity, decay)))
  }

  /** The tuning the corrected _load_state leaves: the restored one when the file exists, parses and
      restores, and `current` otherwise. */
  function AfterLoad(content: Option<string>, current: Tuning, capacity: nat, minCapacity: nat, decay: real, codec: Codec): Tuning {
    var parsed := if content.Some? then codec.parse(content.value) else Failure("");
    var restored := if parsed.Success? then Restored(parsed.value, current, capacity, minCapacity, decay, codec) else None;
    if restored.Some? then restored.value else current
  }

  /** _load_state as written: the assignments happen one after another inside the try, so a
      conversion that raises keeps the fields assigned before it, and a snapshot that fails part way
      leaves the samples appended so far, without the final truncation. */
  function RestoredAsWritten(data: Json, current: Tuning, capacity: nat, minCapacity: nat, decay: real, codec: Codec): (r: Tuning)
  {
    if !data.JObj? then current
    else
      var lr := ToFloat(GetOr(data.o, "learning_rate", JNum(current.learningRate)), codec);
      if lr.None? then current
      else
        var epsilon := ToFloat(GetOr(data.o, "epsilon", JNum(current.epsilon)), codec);
        if epsilon.None? then current.(learningRate := lr.value)
        else
          var gamma := ToFloat(GetOr(data.o, "gamma", JNum(current.gamma)), codec);
          if gamma.None? then current.(learningRate := lr.value, epsilon := epsilon.value)
          else
            var items := Items(GetOr(data.o, "memory", JArr([])));
            var loaded := if items.None? then [] else Decode(items.value, codec).0;
            var complete := items.Some? && Decode(items.value, codec).1;
            Tuning(lr.value, epsilon.value, gamma.value,
                   if complete then Truncated(loaded, capacity, minCapacity, decay) else loaded)
  }

  /** As written, a snapshot whose third item has a null reward leaves two samples in a memory of
      capacity 1, and the learning rate is taken from the file while the file as a whole is rejected;
      the corrected load leaves everything as it was. */
  lemma PartialLoadOverfills(codec: Codec)
    ensures var current := Tuning(0.1, 0.1, 0.95, []);
      var item := JObj(map["state" := JArr([]), "reward" := JNum(1.0)]);
      var data := JObj(map["learning_rate" := JNum(0.3), "memory" := JArr([item, item, JObj(map["reward" := JNull])])]);
      && |RestoredAsWritten(data, current, 1, 64, 0.98, codec).buffer| == 2
      && RestoredAsWritten(data, current, 1, 64, 0.98, codec).learningRate == 0.3
      && Restored(data, current, 1, 64, 0.98, codec).None?
  {
    var current := Tuning(0.1, 0.1, 0.95, []);
    var item := JObj(map["state" := JArr([]), "reward" := JNum(1.0)]);
    var bad := JObj(map["reward" := JNull]);
    var data := JObj(map["learning_rate" := JNum(0.3), "memory" := JArr([item, item, bad])]);
    var o := data.o;
    assert GetOr(o, "learning_rate", JNum(current.learningRate)) == JNum(0.3);
    assert GetOr(o, "epsilon", JNum(current.epsilon)) == JNum(0.1);
    assert GetOr(o, "gamma", JNum(current.gamma)) == JNum(0.95);
    assert GetOr(o, "memory", JArr([])) == JArr([item, item, bad]);
    assert GetOr(item.o, "state", JArr([])) == JArr([]);
    assert GetOr(item.o, "reward", JNum(0.0)) == JNum(1.0);
    assert SampleOf(item, codec) == Some(Sample([], 1.0));
    assert GetOr(bad.o, "reward", JNum(0.0)) == JNull;
    assert SampleOf(bad, codec).None?;
    assert [item, item, bad][1..] == [item, bad];
    assert [item, bad][1..] == [bad];
    assert Decode([bad], codec) == ([], false);
    assert [Sample([], 1.0)] + [] == [Sample([], 1.0)];
    assert Decode([item, bad], codec) == ([Sample([], 1.0)], false);
    assert [Sample([], 1.0)] + [Sample([], 1.0)] == [Sample([], 1.0), Sample([], 1.0)];
    assert Decode([item, item, bad], codec) == ([Sample([], 1.0), Sample([], 1.0)], false);
  }

  /** Saving and loading with nothing in between restores the tuning, the memory going through the
      same truncation as any load. */
  lemma SaveLoadRoundTrip(t: Tuning, current: Tuning, capacity: nat, minCapacity: nat, decay: real, codec: Codec)
    requires Faithful(codec) && Representable(Saved(t))
    ensures codec.parse(codec.dumpIndented(Saved(t))) == Success(Saved(t))
    ensures Restored(Saved(t), current, capacity, minCapacity, decay, codec)
      == Some(t.(buffer := Truncated(t.buffer, capacity, minCapacity, decay)))
  {
    RestoredSaved(t, current, capacity, minCapacity, decay, codec);
  }

  lemma RestoredSaved(t: Tuning, current: Tuning, capacity: nat, minCapacity: nat, decay: real, codec: Codec)
    ensures Restored(Saved(t), current, capacity, minCapacity, decay, codec)
      == Some(t.(buffer := Truncated(t.buffer, capacity, minCapacity, decay)))
  {
    var o := Saved(t).o;
    assert GetOr(o, "learning_rate", JNum(current.learningRate)) == JNum(t.learningRate);
    assert GetOr(o, "epsilon", JNum(current.epsilon)) == JNum(t.epsilon);
    assert GetOr(o, "gamma", JNum(current.gamma)) == JNum(t.gamma);
    assert GetOr(o, "memory", JArr([])) == JArr(Snapshot(t.buffer));
    DecodeSnapshot(t.buffer, codec);
  }

  /** _target_learning_rate: the initial rate tilted by the mean reward per unit of volatility, clamped
      to [min_lr, max_lr] (the minimum winning when the bounds cross). */
  function TargetRate(initialLr: real, minLr: real, maxLr: real, stats: Stats): (r: real)
    requires stats.volatility >= 0.0
    ensures r >= minLr
    ensures minLr <= maxLr ==> r <= maxLr
  {
    var tilt := stats.meanReward / (1.0 + stats.volatility);
    Numeric.Max(minLr, Numeric.Min(maxLr, initialLr * (1.0 + 0.5 * tilt)))
  }

  /** _apply_smoothing. */
  function Smoothed(current: real, target: real, smoothing: real): real {
    current * smoothing + target * (1.0 - smoothing)
  }

  /** A smoothing factor in [0, 1] lands between the current and the target rate, and one below 1
      moves strictly towards a different target. */
  lemma SmoothedBetween(current: real, target: real, smoothing: real)
    requires 0.0 <= smoothing <= 1.0
    ensures Numeric.Min(current, target) <= Smoothed(current, target, smoothing) <= Numeric.Max(current, target)
    ensures smoothing < 1.0 && current < target ==> current < Smoothed(current, target, smoothing)
    ensures smoothing < 1.0 && target < current ==> Smoothed(current, target, smoothing) < current
  {
    if current <= target {
      SmoothedUp(current, target, smoothing);
    } else {
      SmoothedDown(current, target, smoothing);
    }
  }

  /** Towards a higher target the rate moves up, strictly when the smoothing factor is below 1. */
  lemma SmoothedUp(current: real, target: real, smoothing: real)
    requires 0.0 <= smoothing <= 1.0 && current <= target
    ensures current <= Smoothed(current, target, smoothing) <= target
    ensures smoothing < 1.0 && current < target ==> current < Smoothed(current, target, smoothing)
  {
    var p := (target - current) * (1.0 - smoothing);
    FractionOf(target - current, 1.0 - smoothing);
    assert 0.0 <= p <= target - current;
    assert smoothing < 1.0 && current < target ==> p > 0.0;
    SmoothedForm(current, target, smoothing);
    assert Smoothed(current, target, smoothing) == current + p;
  }

  /** Towards a lower target the rate moves down, strictly when the smoothing factor is below 1. */
  lemma SmoothedDown(current: real, target: real, smoothing: real)
    requires 0.0 <= smoothing <= 1.0 && target < current
    ensures target <= Smoothed(current, target, smoothing) <= current
    ensures smoothing < 1.0 ==> Smoothed(current, target, smoothing) < current
  {
    var d, k := target - current, 1.0 - smoothing;
    FractionOf(d, k);
    assert d <= d * k <= 0.0;
    assert smoothing < 1.0 ==> d * k < 0.0;
    SmoothedForm(current, target, smoothing);
    assert Smoothed(current, target, smoothing) == current + d * k;
  }

  /** The smoothed rate is the current one moved by a fraction 1 - smoothing of the gap to the target. */
  lemma SmoothedForm(current: real, target: real, smoothing: real)
    ensures Smoothed(current, target, smoothing) == current + (target - current) * (1.0 - smoothing)
  {
    var k := 1.0 - smoothing;
    assert current * smoothing == current - current * k;
    assert target * k - current * k == (target - current) * k;
  }

  /** A fraction k in [0, 1] of a difference d lies between 0 and d, and has the sign of d when k is
      positive. */
  lemma FractionOf(d: real, k: real)
    requires 0.0 <= k <= 1.0
    ensures d >= 0.0 ==> 0.0 <= d * k <= d
    ensures d < 0.0 ==> d <= d * k <= 0.0
    ensures k > 0.0 && d > 0.0 ==> d * k > 0.0
    ensures k > 0.0 && d < 0.0 ==> d * k < 0.0
  {
    if d >= 0.0 {
      assert d * (1.0 - k) >= 0.0;
    } else {
      assert (-d) * k >= 0.0;
      assert (-d) * (1.0 - k) >= 0.0;
    }
  }

  /** Positive rewards raise the rate: a positive mean reward puts the target above an initial rate
      that lies below the maximum, and smoothing then moves a rate at or below the initial one up. */
  lemma PositiveRewardsRaise(initialLr: real, minLr: real, maxLr: real, stats: Stats, current: real, smoothing: real)
    requires stats.volatility >= 0.0 && stats.meanReward > 0.0
    requires 0.0 < initialLr < maxLr && current <= initialLr && 0.0 <= smoothing < 1.0
    ensures TargetRate(initialLr, minLr, maxLr, stats) > initialLr
    ensures Smoothed(current, TargetRate(initialLr, minLr, maxLr, stats), smoothing) > current
  {
    var tilt := stats.meanReward / (1.0 + stats.volatility);
    assert tilt > 0.0;
    assert initialLr * (1.0 + 0.5 * tilt) > initialLr by {
      assert initialLr * (0.5 * tilt) > 0.0;
    }
    SmoothedBetween(current, TargetRate(initialLr, minLr, maxLr, stats), smoothing);
  }

  /** The figures update returns. */
  datatype Metrics = Metrics(learningRate: real, prediction: real, meanReward: real, volatility: real, memorySize: nat)

  function MetricsPayload(m: Metrics): AuditLog.Entry {
    map["learning_rate" := JNum(m.learningRate), "prediction" := JNum(m.prediction),
        "mean_reward" := JNum(m.meanReward), "volatility" := JNum(m.volatility), "memory_size" := JInt(m.memorySize)]
  }

  /** _log_event's entry: module, event and session id, overwritten by the payload's own keys. */
  function EventEntry(event: string, sessionId: Option<string>, payload: AuditLog.Entry): (r: AuditLog.Entry)
    ensures forall k :: k in payload ==> k in r && r[k] == payload[k]
    ensures "event" !in payload ==> "event" in r && r["event"] == JStr(event)
  {
    map["module" := JStr("qai.optimizer"), "event" := JStr(event),
        "session_id" := (if sessionId.Some? then JStr(sessionId.value) else JNull)] + payload
  }

  /** The adaptive_init payload. */
  function InitPayload(learningRate: real, memorySize: nat, minLr: real, maxLr: real): AuditLog.Entry {
    map["learning_rate" := JNum(learningRate), "memory_size" := JInt(memorySize),
        "min_lr" := JNum(minLr), "max_lr" := JNum(maxLr)]
  }

  /** The features observe_trade derives from a closed trade: entry (default 0), the move to the exit
      (default no move) and the pnl (default 0). */
  function TradeFeatures(trade: map<string, real>): (r: seq<real>)
    ensures |r| == 3 && r[2] == (if "pnl" in trade then trade["pnl"] else 0.0)
    ensures "exit" !in trade ==> r[1] == 0.0
  {
    var entry := if "entry" in trade then trade["entry"] else 0.0;
    var exit := if "exit" in trade then trade["exit"] else entry;
    [entry, exit - entry, if "pnl" in trade then trade["pnl"] else 0.0]
  }

  /** RLAdaptiveOptimizer over its memory and base optimizer; the state file is `store`, math.sqrt
      the `sqrt` it is given. */
  class RLAdaptiveOptimizer {
    const memory: AdaptiveMemory
    const base: Optimizer.OptimizerRL
    const initialLr: real
    const minLr: real
    const maxLr: real
    const smoothing: real
    var steps: nat
    const store: Files.TextFile
    const audit: AuditLog.AuditFile?
    const sessionId: Option<string>
    const hmacKey: Option<string>
    const env: AuditLog.Env
    const sqrt: real -> real

    ghost predicate Valid()
      reads this, memory
    {
      memory.Valid() && Numeric.IsSqrt(sqrt)
    }

    constructor (memory: AdaptiveMemory, base: Optimizer.OptimizerRL, initialLr: real, minLr: real, maxLr: real,
                 smoothing: real, store: Files.TextFile, audit: AuditLog.AuditFile?, sessionId: Option<string>,
                 hmacKey: Option<string>, env: AuditLog.Env, sqrt: real -> real)
      ensures this.memory == memory && this.base == base && this.initialLr == initialLr
      ensures this.minLr == minLr && this.maxLr == maxLr && this.smoothing == smoothing && steps == 0
      ensures this.store == store && this.audit == audit && this.sessionId == sessionId
      ensures this.hmacKey == hmacKey && this.env == env && this.sqrt == sqrt
    {
      this.memory := memory;
      this.base := base;
      this.initialLr := initialLr;
      this.minLr := minLr;
      this.maxLr := maxLr;
      this.smoothing := smoothing;
      steps := 0;
      this.store := store;
      this.audit := audit;
      this.sessionId := sessionId;
      this.hmacKey := hmacKey;
      this.env := env;
      this.sqrt := sqrt;
    }

    /** The figures save_state writes. */
    function Current(): Tuning
      reads this, base, memory
    {
      Tuning(base.learningRate, base.epsilon, base.gamma, memory.buffer)
    }

    /** learning_rate: the base optimizer's rate, the one save_state writes. */
    function LearningRate(): (r: real)
      reads this, base, memory
      ensures r == Current().learningRate
    {
      base.learningRate
    }

    /** suggest: delegated to the base optimizer. */
    function Suggest(features: seq<real>): (r: int)
      reads this, base
      ensures r == Optimizer.Suggestion(Optimizer.Dot(base.weights, features), base.epsilon)
    {
      base.Suggest(features)
    }

    /** update: remember the step, resize the memory, retune and train, then log and, every tenth
        step, save. */
    method Update(state: seq<real>, reward: real) returns (m: Metrics)
      requires Valid()
      modifies this, memory, base, store, audit
      ensures Valid() && steps == old(steps) + 1
      ensures var stats := Summary(Truncated(old(memory.buffer) + [Sample(Reals(state), reward)], old(memory.capacity),
                                             memory.minCapacity, memory.decay), sqrt);
        && stats.volatility >= 0.0
        && memory.capacity == TargetCapacity(memory.baseCapacity, memory.minCapacity, memory.maxCapacity, stats.volatility)
        && memory.buffer == Resized(Truncated(old(memory.buffer) + [Sample(Reals(state), reward)], old(memory.capacity),
                                              memory.minCapacity, memory.decay),
                                    old(memory.capacity), memory.capacity, memory.minCapacity, memory.decay)
        && base.learningRate == Smoothed(old(base.learningRate), TargetRate(initialLr, minLr, maxLr, stats), smoothing)
        && m == Metrics(base.learningRate,
                        Optimizer.Dot(old(base.weights), state)
                          + Optimizer.Step(base.learningRate, reward, Optimizer.Dot(old(base.weights), state)),
                        stats.meanReward, stats.volatility, stats.count)
      ensures base.weights == Optimizer.Shifted(old(base.weights), state,
                                                Optimizer.Step(base.learningRate, reward, Optimizer.Dot(old(base.weights), state)))
      ensures base.epsilon == Optimizer.Decayed(old(base.epsilon)) && base.gamma == old(base.gamma)
      ensures audit != null ==>
        audit.lines == old(audit.lines) + AuditLog.Written(EventEntry("adaptive_update", sessionId, MetricsPayload(m)), sessionId, hmacKey, env)
      ensures store.content == if steps % SaveEvery == 0 then Some(env.codec.dumpIndented(Saved(Current()))) else old(store.content)
    {
      var stats := memory.Remember(Sample(Reals(state), reward), sqrt);
      m := Train(state, reward, stats);
      Conclude(m);
    }

    /** The tuning half of update: the smoothed target rate becomes the base optimizer's rate for
        this training step. */
    method Train(state: seq<real>, reward: real, stats: Stats) returns (m: Metrics)
      requires stats.volatility >= 0.0
      modifies base
      ensures base.learningRate == Smoothed(old(base.learningRate), TargetRate(initialLr, minLr, maxLr, stats), smoothing)
      ensures m == Metrics(base.learningRate,
                           Optimizer.Dot(old(base.weights), state)
                             + Optimizer.Step(base.learningRate, reward, Optimizer.Dot(old(base.weights), state)),
                           stats.meanReward, stats.volatility, stats.count)
      ensures base.weights == Optimizer.Shifted(old(base.weights), state,
                                                Optimizer.Step(base.learningRate, reward, Optimizer.Dot(old(base.weights), state)))
      ensures base.epsilon == Optimizer.Decayed(old(base.epsilon)) && base.gamma == old(base.gamma)
    {
      var target := TargetRate(initialLr, minLr, maxLr, stats);
      var tuned := Smoothed(base.learningRate, target, smoothing);
      base.learningRate := tuned;
      var prediction := base.TrainStep(state, reward);
      m := Metrics(tuned, prediction, stats.meanReward, stats.volatility, stats.count);
    }

    /** The bookkeeping half of update: count the step, log it, and save on every tenth. */
    method Conclude(m: Metrics)
      modifies this, store, audit
      ensures steps == old(steps) + 1
      ensures audit != null ==>
        audit.lines == old(audit.lines) + AuditLog.Written(EventEntry("adaptive_update", sessionId, MetricsPayload(m)), sessionId, hmacKey, env)
      ensures store.content == if steps % SaveEvery == 0 then Some(env.codec.dumpIndented(Saved(Current()))) else old(store.content)
    {
      steps := steps + 1;
      LogEvent("adaptive_update", MetricsPayload(m));
      if steps % SaveEvery == 0 {
        SaveState();
      }
    }

    /** observe_trade: exactly update on the trade's features, rewarded with its pnl (the same metrics,
        memory, tuning, audit line and save); the trade becomes the newest sample of the memory whenever
        the capacity before and after is positive. */
    method ObserveTrade(trade: map<string, real>) returns (m: Metrics)
      requires Valid()
      modifies this, memory, base, store, audit
      ensures Valid() && steps == old(steps) + 1
      ensures var f := TradeFeatures(trade);
        var stats := Summary(Truncated(old(memory.buffer) + [Sample(Reals(f), f[2])], old(memory.capacity),
                                       memory.minCapacity, memory.decay), sqrt);
        && stats.volatility >= 0.0
        && memory.capacity == TargetCapacity(memory.baseCapacity, memory.minCapacity, memory.maxCapacity, stats.volatility)
        && memory.buffer == Resized(Truncated(old(memory.buffer) + [Sample(Reals(f), f[2])], old(memory.capacity),
                                              memory.minCapacity, memory.decay),
                                    old(memory.capacity), memory.capacity, memory.minCapacity, memory.decay)
        && base.learningRate == Smoothed(old(base.learningRate), TargetRate(initialLr, minLr, maxLr, stats), smoothing)
        && m == Metrics(base.learningRate,
                        Optimizer.Dot(old(base.weights), f)
                          + Optimizer.Step(base.learningRate, f[2], Optimizer.Dot(old(base.weights), f)),
                        stats.meanReward, stats.volatility, stats.count)
      ensures base.weights == Optimizer.Shifted(old(base.weights), TradeFeatures(trade),
        Optimizer.Step(base.learningRate, TradeFeatures(trade)[2], Optimizer.Dot(old(base.weights), TradeFeatures(trade))))
      ensures base.epsilon == Optimizer.Decayed(old(base.epsilon)) && base.gamma == old(base.gamma)
      ensures audit != null ==>
        audit.lines == old(audit.lines) + AuditLog.Written(EventEntry("adaptive_update", sessionId, MetricsPayload(m)), sessionId, hmacKey, env)
      ensures store.content == if steps % SaveEvery == 0 then Some(env.codec.dumpIndented(Saved(Current()))) else old(store.content)
      ensures old(memory.capacity) > 0 && memory.capacity > 0 ==>
        memory.buffer != [] && memory.buffer[|memory.buffer| - 1] == Sample(Reals(TradeFeatures(trade)), TradeFeatures(trade)[2])
    {
      var features := TradeFeatures(trade);
      ghost var buffer, capacity := memory.buffer, memory.capacity;
      m := Update(features, features[2]);
      NewestKept(buffer, Sample(Reals(features), features[2]), capacity, memory.capacity,
                 memory.minCapacity, memory.decay, memory.buffer);
    }

    /** save_state. */
    method SaveState()
      modifies store
      ensures store.content == Some(env.codec.dumpIndented(Saved(Current())))
    {
      var payload := Saved(Tuning(base.learningRate, base.epsilon, base.gamma, memory.buffer));
      store.Write(env.codec.dumpIndented(payload));
    }

    /** _load_state, all or nothing: a missing or unparsable file, or one whose fields do not all
        convert, leaves everything as it was. */
    method LoadState()
      requires memory.Valid()
      modifies memory, base
      ensures memory.Valid() && memory.capacity == old(memory.capacity)
      ensures base.weights == old(base.weights)
      ensures Current() == AfterLoad(store.content, old(Current()), memory.capacity, memory.minCapacity, memory.decay, env.codec)
    {
      if store.content.None? {
        return;
      }
      var parsed := env.codec.parse(store.content.value);
      if parsed.Failure? {
        return;
      }
      var fields := Fields(parsed.value, Current(), env.codec);
      if fields.None? {
        return;
      }
      var ok := memory.LoadSnapshot(fields.value.3, env.codec);
      if !ok {
        return;
      }
      base.learningRate := fields.value.0;
      base.epsilon := fields.value.1;
      base.gamma := fields.value.2;
    }

    /** _log_event: nothing without an audit log. */
    method LogEvent(event: string, payload: AuditLog.Entry)
      modifies audit
      ensures audit != null ==>
        audit.lines == old(audit.lines) + AuditLog.Written(EventEntry(event, sessionId, payload), sessionId, hmacKey, env)
    {
      if audit == null {
        return;
      }
      var _, _ := audit.AppendSigned(EventEntry(event, sessionId, payload), sessionId, hmacKey, env);
    }
  }

  /** RLAdaptiveOptimizer.__init__: a ValueError for a non-positive input size; otherwise the given
      memory (replaced by a default one when it is missing or empty, since an empty memory is falsy)
      and base optimizer (a fresh one with zero weights when missing), the initial rate read before
      the state file is loaded, and one adaptive_init entry. */
  method Create(inputSize: int, baseOptimizer: Optimizer.OptimizerRL?, memory: AdaptiveMemory?, store: Files.TextFile,
                audit: AuditLog.AuditFile?, sessionId: Option<string>, hmacKey: Option<string>, env: AuditLog.Env,
                sqrt: real -> real, learningRate: real, gamma: real, epsilon: real, minLr: real, maxLr: real, smoothing: real)
    returns (r: Result<RLAdaptiveOptimizer, string>)
    requires memory != null ==> memory.Valid()
    requires Numeric.IsSqrt(sqrt)
    modifies memory, baseOptimizer, audit
    ensures r.Failure? <==> inputSize <= 0
    ensures r.Failure? ==> r.error == BadInputSize
    ensures r.Success? ==>
      var o := r.value;
      && fresh(o) && o.Valid() && o.steps == 0 && o.store == store && o.audit == audit
      && o.minLr == minLr && o.maxLr == maxLr && o.smoothing == smoothing
      && (if memory != null && old(memory.buffer) != [] then o.memory == memory else fresh(o.memory))
      && (if baseOptimizer != null then o.base == baseOptimizer && o.initialLr == old(baseOptimizer.learningRate)
          else fresh(o.base) && o.initialLr == learningRate && o.base.weights == Optimizer.Zeros(inputSize))
    ensures r.Success? ==>
      var o := r.value;
      var constructed := Tuning(o.initialLr,
                                if baseOptimizer != null then old(baseOptimizer.epsilon) else epsilon,
                                if baseOptimizer != null then old(baseOptimizer.gamma) else gamma,
                                if memory != null && old(memory.buffer) != [] then old(memory.buffer) else []);
      o.Current() == AfterLoad(store.content, constructed, o.memory.capacity, o.memory.minCapacity, o.memory.decay, env.codec)
    ensures audit != null && r.Success? ==>
      audit.lines == old(audit.lines)
        + AuditLog.Written(EventEntry("adaptive_init", sessionId,
                                      InitPayload(r.value.base.learningRate, |r.value.memory.buffer|, minLr, maxLr)),
                           sessionId, hmacKey, env)
    ensures audit != null && r.Failure? ==> audit.lines == old(audit.lines)
  {
    if inputSize <= 0 {
      return Failure(BadInputSize);
    }
    var mem: AdaptiveMemory;
    if memory != null && memory.buffer != [] {
      mem := memory;
    } else {
      mem := new AdaptiveMemory(256, 1024, 64, 0.98);
    }
    var opt: Optimizer.OptimizerRL;
    if baseOptimizer != null {
      opt := baseOptimizer;
    } else {
      var made := Optimizer.Create(inputSize, learningRate, gamma, epsilon, null, sessionId, hmacKey, env);
      opt := made.value;
    }
    var o := new RLAdaptiveOptimizer(mem, opt, opt.learningRate, minLr, maxLr, smoothing, store, audit, sessionId, hmacKey, env, sqrt);
    o.LoadState();
    o.LogEvent("adaptive_init", InitPayload(opt.learningRate, |mem.buffer|, minLr, maxLr));
    r := Success(o);
  }
}

/** The adaptive momentum strategy: a long/short/flat signal from a bar's momentum against a threshold
    that tightens after winning trades and loosens after losing ones, clamped to [min, max], with the
    last twenty trade results kept and the whole state persisted as JSON. */
module Adaptive {
  import opened Wrappers
  import opened Json
  import Numeric
  import Seqs
  import Files
  import AuditLog
  import Backtester

  /** How many trade results the history keeps. */
  const HistoryLimit: nat := 20

  /** AdaptiveState. */
  datatype AdaptiveState = AdaptiveState(threshold: real, learningRate: real, minThreshold: real,
                                         maxThreshold: real, history: seq<real>)

  const BadRange := "min_threshold must be > 0 and <= max_threshold"
  const BadRate := "learning_rate must be between 0 and 1"
  const MissingPrices := "AdaptiveStrategy requires 'open' and 'close' prices"

  /** The constructor's argument checks, in order: the ValueError raised, if any. The initial threshold
      itself is not checked against the range. */
  function CheckArgs(learningRate: real, minThreshold: real, maxThreshold: real): (r: Option<string>)
    ensures r.None? <==> 0.0 < minThreshold <= maxThreshold && 0.0 < learningRate <= 1.0
    ensures !(0.0 < minThreshold <= maxThreshold) ==> r == Some(BadRange)
    ensures 0.0 < minThreshold <= maxThreshold && !(0.0 < learningRate <= 1.0) ==> r == Some(BadRate)
  {
    if !(0.0 < minThreshold <= maxThreshold) then Some(BadRange)
    else if !(0.0 < learningRate <= 1.0) then Some(BadRate)
    else None
  }

  /** `(close - open) / max(open, 1e-9)`. */
  function Momentum(open: real, close: real): real {
    (close - open) / Numeric.Max(open, 0.000000001)
  }

  /** __call__ with the current threshold: 1 above it, -1 below its negation, else 0; a ValueError when
      the bar lacks a price. */
  function Signal(threshold: real, bar: Backtester.Bar): (r: Result<int, string>)
    ensures r.Failure? <==> "open" !in bar || "close" !in bar
    ensures r.Failure? ==> r.error == MissingPrices
    ensures r.Success? ==>
      var m := Momentum(bar["open"], bar["close"]);
      && -1 <= r.value <= 1
      && (r.value == 1 <==> m > threshold)
      && (r.value == -1 <==> m <= threshold && m < -threshold)
  {
    if "open" !in bar || "close" !in bar then Failure(MissingPrices)
    else
      var m := Momentum(bar["open"], bar["close"]);
      if m > threshold then Success(1) else if m < -threshold then Success(-1) else Success(0)
  }

  /** With a non-negative threshold the three answers split the momentum line: 0 exactly on
      [-threshold, threshold]; and a higher threshold keeps only signals a lower one also gives. */
  lemma SignalBands(lower: real, higher: real, bar: Backtester.Bar)
    requires 0.0 <= lower <= higher && "open" in bar && "close" in bar
    ensures var m := Momentum(bar["open"], bar["close"]);
      Signal(lower, bar).value == 0 <==> -lower <= m <= lower
    ensures Signal(higher, bar).value != 0 ==> Signal(lower, bar) == Signal(higher, bar)
  {
  }

  /** The profit on_trade_close reads: `trade.get("pnl", 0.0)`. */
  function PnlOf(trade: map<string, real>): real {
    if "pnl" in trade then trade["pnl"] else 0.0
  }

  /** `trade.get("entry", 1.0)`. */
  function EntryOf(trade: map<string, real>): real {
    if "entry" in trade then trade["entry"] else 1.0
  }

  /** The relative size of a move: the learning rate times |pnl| over |entry| (at least 1e-6). */
  function Adjustment(learningRate: real, pnl: real, entry: real): (a: real)
    ensures learningRate >= 0.0 ==> a >= 0.0
  {
    learningRate * (Numeric.Abs(pnl) / Numeric.Max(Numeric.Abs(entry), 0.000001))
  }

  /** on_trade_close's effect on the state: the result is appended to the history, which keeps its
      newest twenty; a win lowers the threshold by the adjustment, but not below the minimum, a loss
      raises it, but not above the maximum, and a zero result leaves it. */
  function AfterTrade(st: AdaptiveState, trade: map<string, real>): (r: AdaptiveState)
    ensures r.learningRate == st.learningRate && r.minThreshold == st.minThreshold && r.maxThreshold == st.maxThreshold
    ensures r.history == Seqs.Last(st.history + [PnlOf(trade)], HistoryLimit)
  {
    var pnl := PnlOf(trade);
    var adjustment := Adjustment(st.learningRate, pnl, EntryOf(trade));
    var threshold :=
      if pnl > 0.0 then Numeric.Max(st.minThreshold, st.threshold * (1.0 - adjustment))
      else if pnl < 0.0 then Numeric.Min(st.maxThreshold, st.threshold * (1.0 + adjustment))
      else st.threshold;
    st.(threshold := threshold, history := Seqs.Last(st.history + [pnl], HistoryLimit))
  }

  /** The history after a trade ends with that trade's result, holds at most twenty results, and is the
      old history plus the result with the oldest entry dropped once it is full. */
  lemma HistoryAfterTrade(st: AdaptiveState, trade: map<string, real>)
    requires |st.history| <= HistoryLimit
    ensures var h := AfterTrade(st, trade).history;
      && |h| <= HistoryLimit && h[|h| - 1] == PnlOf(trade)
      && (|st.history| < HistoryLimit ==> h == st.history + [PnlOf(trade)])
      && (|st.history| == HistoryLimit ==> h == st.history[1..] + [PnlOf(trade)])
  {
    var s := st.history + [PnlOf(trade)];
    if |st.history| == HistoryLimit {
      assert s[1..] == st.history[1..] + [PnlOf(trade)];
    }
  }

  /** Within the range, a winning trade never raises the threshold, a losing one never lowers it and a
      zero result leaves it unchanged; and a threshold inside a positive range stays inside it. */
  lemma {:induction false} ThresholdMoves(st: AdaptiveState, trade: map<string, real>)
    requires 0.0 <= st.minThreshold <= st.threshold <= st.maxThreshold && 0.0 <= st.learningRate
    ensures var t := AfterTrade(st, trade).threshold;
      && (PnlOf(trade) > 0.0 ==> t <= st.threshold)
      && (PnlOf(trade) < 0.0 ==> t >= st.threshold)
      && (PnlOf(trade) == 0.0 ==> t == st.threshold)
      && st.minThreshold <= t <= st.maxThreshold
  {
    var a := Adjustment(st.learningRate, PnlOf(trade), EntryOf(trade));
    assert st.threshold * a >= 0.0;
    assert st.threshold * (1.0 - a) == st.threshold - st.threshold * a;
    assert st.threshold * (1.0 + a) == st.threshold + st.threshold * a;
  }

  /** The range matters: a threshold set below the minimum at construction (which is not checked) is
      raised to the minimum by a winning trade. */
  lemma WinBelowRangeRaises()
    ensures var st := AdaptiveState(0.0001, 0.25, 0.0005, 0.01, []);
      AfterTrade(st, map["pnl" := 1.0, "entry" := 100.0]).threshold == 0.0005 > st.threshold
  {
    var trade := map["pnl" := 1.0, "entry" := 100.0];
    assert PnlOf(trade) == 1.0 && EntryOf(trade) == 100.0;
    var a := Adjustment(0.25, 1.0, 100.0);
    assert Numeric.Abs(1.0) == 1.0 && Numeric.Max(Numeric.Abs(100.0), 0.000001) == 100.0;
    assert a == 0.0025;
    assert 0.0001 * (1.0 - a) == 0.00009975;
  }


  /** The persisted payload: the five state fields. */
  function Persisted(st: AdaptiveState): Json {
    JObj(map["threshold" := JNum(st.threshold), "learning_rate" := JNum(st.learningRate),
             "min_threshold" := JNum(st.minThreshold), "max_threshold" := JNum(st.maxThreshold),
             "history" := JArr(Reals(st.history))])
  }

  /** The error recorded when float() refuses a field. It stands for the ValueError or TypeError float()
      raises; it names the field rather than reproducing Python's message, which quotes the value. */
  function NotFloat(key: string): string {
    "could not convert " + key + " to float"
  }

  /** The float field `key` of the loaded data, defaulting to the current value. */
  function FloatField(o: map<string, Json>, key: string, current: real, c: Codec): Option<real> {
    ToFloat(GetOr(o, key, JNum(current)), c)
  }

  /** The field conversions of _load_state once the text parsed: each field is read with the current
      value as default; `history or []` replaces the history when it is a list, keeping its newest
      twenty; a non-dict document or a field float() rejects raises. */
  function Loaded(st: AdaptiveState, data: Json, c: Codec): (r: Result<AdaptiveState, string>)
    ensures r.Failure? ==>
      || !data.JObj?
      || FloatField(data.o, "threshold", st.threshold, c).None?
      || FloatField(data.o, "learning_rate", st.learningRate, c).None?
      || FloatField(data.o, "min_threshold", st.minThreshold, c).None?
      || FloatField(data.o, "max_threshold", st.maxThreshold, c).None?
      || (Truthy(Get(data.o, "history")) && Get(data.o, "history").JArr? && FloatList(Get(data.o, "history").a, c).None?)
    ensures r.Success? ==> |r.value.history| <= Numeric.MaxInt(|st.history|, HistoryLimit)
  {
    if !data.JObj? then Failure("'" + TypeName(data) + "' object has no attribute 'get'")
    else
      var o := data.o;
      var threshold := FloatField(o, "threshold", st.threshold, c);
      var rate := FloatField(o, "learning_rate", st.learningRate, c);
      var lo := FloatField(o, "min_threshold", st.minThreshold, c);
      var hi := FloatField(o, "max_threshold", st.maxThreshold, c);
      if threshold.None? then Failure(NotFloat("threshold"))
      else if rate.None? then Failure(NotFloat("learning_rate"))
      else if lo.None? then Failure(NotFloat("min_threshold"))
      else if hi.None? then Failure(NotFloat("max_threshold"))
      else
        var history := if Truthy(Get(o, "history")) then Get(o, "history") else JArr([]);
        var fields := AdaptiveState(threshold.value, rate.value, lo.value, hi.value, st.history);
        if !history.JArr? then Success(fields)
        else match FloatList(history.a, c)
          case None => Failure(NotFloat("history"))
          case Some(xs) => Success(fields.(history := Seqs.Last(xs, HistoryLimit)))
  }

  /** What construction does with the persistence file, given its contents (None when there is no
      path or no file): a file that does not parse leaves the state as constructed. */
  function LoadState(st: AdaptiveState, content: Option<string>, c: Codec): (r: Result<AdaptiveState, string>)
    ensures content.None? ==> r == Success(st)
    ensures content.Some? && c.parse(content.value).Failure? ==> r == Success(st)
    ensures content.Some? && c.parse(content.value).Success? ==> r == Loaded(st, c.parse(content.value).value, c)
  {
    if content.None? then Success(st)
    else match c.parse(content.value)
      case Failure(_) => Success(st)
      case Success(data) => Loaded(st, data, c)
  }

  /** Every field is a double, as a Python float is. */
  ghost predicate Doubles(st: AdaptiveState) {
    && IsDouble(st.threshold) && IsDouble(st.learningRate) && IsDouble(st.minThreshold) && IsDouble(st.maxThreshold)
    && forall i :: 0 <= i < |st.history| ==> IsDouble(st.history[i])
  }

  /** Persisting and loading again, with no trade in between, restores every field. */
  lemma PersistLoadRoundTrip(st: AdaptiveState, current: AdaptiveState, c: Codec)
    requires Faithful(c) && Doubles(st) && |st.history| <= HistoryLimit
    ensures LoadState(current, Some(c.dumpIndented(Persisted(st))), c) == Success(st)
  {
    RealsRepresentable(st.history);
    var o := Persisted(st).o;
    assert forall k :: k in o ==> k in {"threshold", "learning_rate", "min_threshold", "max_threshold", "history"};
    assert Representable(Persisted(st));
    assert c.parse(c.dumpIndented(Persisted(st))) == Success(Persisted(st));
    LoadedPersisted(st, current, c);
  }

  lemma LoadedPersisted(st: AdaptiveState, current: AdaptiveState, c: Codec)
    requires |st.history| <= HistoryLimit
    ensures Loaded(current, Persisted(st), c) == Success(st)
  {
    var o := Persisted(st).o;
    assert o["threshold"] == JNum(st.threshold);
    assert o["learning_rate"] == JNum(st.learningRate);
    assert o["min_threshold"] == JNum(st.minThreshold);
    assert o["max_threshold"] == JNum(st.maxThreshold);
    assert o["history"] == JArr(Reals(st.history));
    FloatListOfReals(st.history, c);
    if st.history == [] {
      assert Reals(st.history) == [];
    } else {
      assert Reals(st.history)[0] == JNum(st.history[0]);
    }
    assert Seqs.Last(st.history, HistoryLimit) == st.history;
  }

  /** The audit entry construction writes: the loaded threshold but the learning rate as passed. */
  function InitPayload(sessionId: Option<string>, threshold: real, learningRate: real): AuditLog.Entry {
    map["module" := JStr("qai.strategy"), "event" := JStr("adaptive_init"),
        "session_id" := (if sessionId.Some? then JStr(sessionId.value) else JNull),
        "threshold" := JNum(threshold), "learning_rate" := JNum(learningRate)]
  }

  class AdaptiveStrategy {
    var state: AdaptiveState
    const store: Files.TextFile?
    const codec: Codec

    constructor (state: AdaptiveState, store: Files.TextFile?, codec: Codec)
      ensures this.state == state && this.store == store && this.codec == codec
    {
      this.state := state;
      this.store := store;
      this.codec := codec;
    }

    /** __call__. */
    function Call(bar: Backtester.Bar): (r: Result<int, string>)
      reads this
      ensures r == Signal(state.threshold, bar)
    {
      Signal(state.threshold, bar)
    }

    /** on_trade_close: record the result, move the threshold, persist. */
    method OnTradeClose(trade: map<string, real>)
      modifies this, store
      ensures state == AfterTrade(old(state), trade)
      ensures store != null ==> store.content == Some(codec.dumpIndented(Persisted(state)))
    {
      var pnl := PnlOf(trade);
      var history := state.history + [pnl];
      if |history| > HistoryLimit {
        history := history[|history| - HistoryLimit..];
      }
      var direction := if pnl > 0.0 then 1 else if pnl < 0.0 then -1 else 0;
      var adjustment := state.learningRate * (Numeric.Abs(pnl) / Numeric.Max(Numeric.Abs(EntryOf(trade)), 0.000001));
      var threshold := state.threshold;
      if direction > 0 {
        threshold := Numeric.Max(state.minThreshold, threshold * (1.0 - adjustment));
      } else if direction < 0 {
        threshold := Numeric.Min(state.maxThreshold, threshold * (1.0 + adjustment));
      }
      assert history == Seqs.Last(state.history + [pnl], HistoryLimit);
      assert threshold == AfterTrade(state, trade).threshold;
      state := state.(history := history, threshold := threshold);
      PersistState();
    }

    /** on_session_end. */
    method OnSessionEnd()
      modifies store
      ensures store != null ==> store.content == Some(codec.dumpIndented(Persisted(state)))
    {
      PersistState();
    }

    /** _persist_state: without a path nothing is written. */
    method PersistState()
      modifies store
      ensures store != null ==> store.content == Some(codec.dumpIndented(Persisted(state)))
    {
      if store != null {
        store.Write(codec.dumpIndented(Persisted(state)));
      }
    }
  }

  /** AdaptiveStrategy.__init__: check the arguments, load any persisted state, and write the
      adaptive_init entry when there is an audit log. */
  method Create(initialThreshold: real, learningRate: real, minThreshold: real, maxThreshold: real,
                store: Files.TextFile?, audit: AuditLog.AuditFile?, sessionId: Option<string>, hmacKey: Option<string>,
                env: AuditLog.Env)
    returns (r: Result<AdaptiveStrategy, string>)
    modifies audit
    ensures var check := CheckArgs(learningRate, minThreshold, maxThreshold);
      var loaded := LoadState(AdaptiveState(initialThreshold, learningRate, minThreshold, maxThreshold, []),
                              if store == null then None else store.content, env.codec);
      && (r.Success? <==> check.None? && loaded.Success?)
      && (check.Some? ==> r == Failure(check.value))
      && (check.None? && loaded.Failure? ==> r == Failure(loaded.error))
      && (r.Success? ==> fresh(r.value) && r.value.state == loaded.value && r.value.store == store && r.value.codec == env.codec)
      && (audit != null ==>
            audit.lines == old(audit.lines) +
              (if r.Success? then AuditLog.Written(InitPayload(sessionId, loaded.value.threshold, learningRate), sessionId, hmacKey, env)
               else []))
  {
    var check := CheckArgs(learningRate, minThreshold, maxThreshold);
    if check.Some? {
      return Failure(check.value);
    }
    var start := AdaptiveState(initialThreshold, learningRate, minThreshold, maxThreshold, []);
    var loaded := LoadState(start, if store == null then None else store.content, env.codec);
    if loaded.Failure? {
      return Failure(loaded.error);
    }
    var s := new AdaptiveStrategy(loaded.value, store, env.codec);
    if audit != null {
      var _, _ := audit.AppendSigned(InitPayload(sessionId, s.state.threshold, learningRate), sessionId, hmacKey, env);
    }
    r := Success(s);
  }
}

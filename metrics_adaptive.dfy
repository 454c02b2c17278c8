/** Rolling KPIs of a backtest session: the stability of the predictor over a window of recent
    values, and the volatility of the equity curve's moves. */
module MetricsAdaptive {
  import opened Wrappers
  import opened Json
  import Numeric
  import Seqs
  import AuditLog

  const BadWindow: string := "maxlen must be non-negative"

  /** AdaptiveKPIs. */
  datatype Kpis = Kpis(stability: real, volatility: real, adaptiveScore: real)

  /** AdaptiveKPIs.to_dict. */
  function KpisJson(k: Kpis): (r: Json)
    ensures r.JObj? && r.o.Keys == {"stability", "volatility", "adaptive_score"}
    ensures r.o["stability"] == JNum(k.stability) && r.o["volatility"] == JNum(k.volatility)
    ensures r.o["adaptive_score"] == JNum(k.adaptiveScore)
  {
    JObj(map["stability" := JNum(k.stability), "volatility" := JNum(k.volatility),
             "adaptive_score" := JNum(k.adaptiveScore)])
  }

  /** _average_stability: the mean of the window, 0 for an empty one. */
  function AverageStability(window: seq<real>): (r: real)
    ensures window == [] ==> r == 0.0
  {
    if window == [] then 0.0 else Numeric.Mean(window)
  }

  /** _equity_volatility: the population standard deviation of the equity's first differences, 0 with
      fewer than two samples. */
  function EquityVolatility(equity: seq<real>, sqrt: real -> real): (r: real)
    ensures |equity| < 2 ==> r == 0.0
  {
    if |equity| < 2 then 0.0 else Numeric.Std(Numeric.Diffs(equity), sqrt)
  }

  /** compute. */
  function KpisOf(window: seq<real>, equity: seq<real>, sqrt: real -> real): (k: Kpis)
    requires Numeric.IsSqrt(sqrt)
    ensures k.stability == AverageStability(window) && k.volatility == EquityVolatility(equity, sqrt)
  {
    VolatilityNonNegative(equity, sqrt);
    var stability := AverageStability(window);
    var volatility := EquityVolatility(equity, sqrt);
    Kpis(stability, volatility, stability / (1.0 + volatility))
  }

  /** Stability values within [lo, hi] average within [lo, hi]; in particular scores in [0, 1] give a
      stability in [0, 1]. */
  lemma StabilityBounds(window: seq<real>, lo: real, hi: real)
    requires lo <= 0.0 <= hi
    requires forall i :: 0 <= i < |window| ==> lo <= window[i] <= hi
    ensures lo <= AverageStability(window) <= hi
  {
    if window != [] {
      Numeric.MeanBounds(window, lo, hi);
    }
  }

  /** The volatility is never negative. */
  lemma VolatilityNonNegative(equity: seq<real>, sqrt: real -> real)
    requires Numeric.IsSqrt(sqrt)
    ensures EquityVolatility(equity, sqrt) >= 0.0
  {
    if |equity| >= 2 {
      Numeric.StdNonNegative(Numeric.Diffs(equity), sqrt);
    }
  }

  /** An equity curve that moves by the same amount every step has no volatility: the variance under
      the square root is 0. */
  lemma SteadyEquityCalm(equity: seq<real>, step: real, sqrt: real -> real)
    requires forall i :: 0 <= i < |equity| - 1 ==> equity[i + 1] - equity[i] == step
    ensures EquityVolatility(equity, sqrt) == if |equity| < 2 then 0.0 else sqrt(0.0)
  {
    if |equity| >= 2 {
      var d := Numeric.Diffs(equity);
      SteadyDiffs(equity, step);
      ConstantMean(d, step);
      ConstantSumSq(d, step);
      assert Numeric.Variance(d) == 0.0;
    }
  }

  lemma SteadyDiffs(equity: seq<real>, step: real)
    requires forall i :: 0 <= i < |equity| - 1 ==> equity[i + 1] - equity[i] == step
    ensures forall i :: 0 <= i < |Numeric.Diffs(equity)| ==> Numeric.Diffs(equity)[i] == step
  {
    var d := Numeric.Diffs(equity);
    forall i | 0 <= i < |d|
      ensures d[i] == step
    {
      assert d[i] == equity[i + 1] - equity[i];
    }
  }

  lemma ConstantMean(s: seq<real>, c: real)
    requires s != [] && forall i :: 0 <= i < |s| ==> s[i] == c
    ensures Numeric.Mean(s) == c
  {
    Numeric.MeanBounds(s, c, c);
  }

  lemma {:induction false} ConstantSumSq(s: seq<real>, c: real)
    requires forall i :: 0 <= i < |s| ==> s[i] == c
    ensures Numeric.SumSq(s, c) == 0.0
  {
    if s != [] {
      ConstantSumSq(s[1..], c);
    }
  }

  /** The adaptive score never exceeds the stability in size and has its sign. */
  lemma ScoreBounded(window: seq<real>, equity: seq<real>, sqrt: real -> real)
    requires Numeric.IsSqrt(sqrt)
    ensures var k := KpisOf(window, equity, sqrt);
      && Numeric.Abs(k.adaptiveScore) <= Numeric.Abs(k.stability)
      && (k.stability >= 0.0 <==> k.adaptiveScore >= 0.0)
  {
    VolatilityNonNegative(equity, sqrt);
    var k := KpisOf(window, equity, sqrt);
    Shrunk(k.stability, 1.0 + k.volatility);
  }

  lemma Shrunk(x: real, d: real)
    requires d >= 1.0
    ensures Numeric.Abs(x / d) <= Numeric.Abs(x)
    ensures x >= 0.0 <==> x / d >= 0.0
  {
    var q := x / d;
    assert q * d == x;
    assert x - q == q * (d - 1.0);
    if x >= 0.0 {
      assert q >= 0.0;
      NonNegProduct(q, d - 1.0);
    } else {
      if q >= 0.0 {
        NonNegProduct(q, d);
        assert false;
      }
      NonNegProduct(-q, d - 1.0);
    }
  }

  lemma NonNegProduct(a: real, b: real)
    requires 0.0 <= a && 0.0 <= b
    ensures 0.0 <= a * b
  {
  }

  /** The audit entry log_update writes. */
  function UpdateEntry(k: Kpis, sessionId: Option<string>): AuditLog.Entry {
    map["module" := JStr("qai.metrics"), "event" := JStr("adaptive_update"), "metrics" := KpisJson(k),
        "session_id" := (if sessionId.Some? then JStr(sessionId.value) else JNull)]
  }

  /** AdaptiveMetrics: a bounded window of stability values and an unbounded equity record;
      math.sqrt is the `sqrt` it is given. */
  class AdaptiveMetrics {
    const window: nat
    const sqrt: real -> real
    var stability: seq<real>
    var equity: seq<real>

    /** The window never holds more than `window` values, and sqrt is a square root. */
    ghost predicate Valid()
      reads this
    {
      |stability| <= window && Numeric.IsSqrt(sqrt)
    }

    constructor (window: nat, sqrt: real -> real)
      requires Numeric.IsSqrt(sqrt)
      ensures this.window == window && this.sqrt == sqrt && stability == [] && equity == [] && Valid()
    {
      this.window := window;
      this.sqrt := sqrt;
      stability := [];
      equity := [];
    }

    /** update_stability: the deque drops its oldest value once full. */
    method UpdateStability(value: real)
      requires Valid()
      modifies this
      ensures stability == Seqs.Last(old(stability) + [value], window) && Valid()
      ensures equity == old(equity)
      ensures window > 0 ==> stability[|stability| - 1] == value
    {
      stability := Seqs.Last(stability + [value], window);
    }

    /** record_equity: every sample is kept. */
    method RecordEquity(value: real)
      requires Valid()
      modifies this
      ensures equity == old(equity) + [value] && stability == old(stability) && Valid()
    {
      equity := equity + [value];
    }

    /** compute. */
    function Compute(): (k: Kpis)
      requires Valid()
      reads this
    {
      KpisOf(stability, equity, sqrt)
    }

    /** log_update: one adaptive_update entry carrying the KPIs it returns. */
    method LogUpdate(audit: AuditLog.AuditFile, sessionId: Option<string>, hmacKey: Option<string>, env: AuditLog.Env)
      returns (k: Kpis)
      requires Valid()
      modifies audit
      ensures k == KpisOf(stability, equity, sqrt)
      ensures audit.lines == old(audit.lines) + AuditLog.Written(UpdateEntry(k, sessionId), sessionId, hmacKey, env)
    {
      k := Compute();
      var _, _ := audit.AppendSigned(UpdateEntry(k, sessionId), sessionId, hmacKey, env);
    }
  }

  /** AdaptiveMetrics.__init__: deque refuses a negative maxlen. */
  method Create(window: int, sqrt: real -> real) returns (r: Result<AdaptiveMetrics, string>)
    requires Numeric.IsSqrt(sqrt)
    ensures r.Failure? <==> window < 0
    ensures r.Success? ==>
      fresh(r.value) && r.value.window == window && r.value.stability == [] && r.value.equity == [] && r.value.Valid()
  {
    if window < 0 {
      return Failure(BadWindow);
    }
    var m := new AdaptiveMetrics(window, sqrt);
    r := Success(m);
  }
}

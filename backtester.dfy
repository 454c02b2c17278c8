/** The single-strategy backtester: a Flat/Long/Short position machine run over an ordered sequence of
    price bars, with exact equity accounting, one equity sample per bar and a forced close at the end. */
module Backtester {
  import opened Wrappers
  import opened Json
  import opened AuditLog
  import Seqs
  import Numeric

  /** A price bar: at least "open" and "close" for a valid run. */
  type Bar = map<string, real>

  /** The strategy callable: the signal for a bar, or the exception it raises. */
  type Strategy = Bar -> Result<int, string>

  /** One closed trade: the bar it closed on, the direction held (1 long, -1 short), entry and exit prices
      and the profit after slippage. */
  datatype Trade = Trade(index: nat, direction: int, entry: real, exit: real, pnl: real)

  /** The backtester's configuration, fixed at construction. */
  datatype Config = Config(initialCapital: real, riskPerTrade: real, slippage: real)

  const DefaultCapital: real := 10000.0
  const DefaultRisk: real := 0.01
  const MissingKeys := "Each price bar must contain 'open' and 'close' keys"
  const BadSignal := "Strategy must return -1, 0, or 1"

  /** Backtester.__init__: a ValueError unless the capital is positive and the risk lies in (0, 1]. */
  function NewBacktester(initialCapital: real, riskPerTrade: real, slippage: real): (r: Result<Config, string>)
    ensures r.Success? <==> initialCapital > 0.0 && 0.0 < riskPerTrade <= 1.0
    ensures r.Success? ==> r.value == Config(initialCapital, riskPerTrade, slippage)
    ensures initialCapital <= 0.0 ==> r == Failure("initial_capital must be positive")
    ensures initialCapital > 0.0 && !(0.0 < riskPerTrade <= 1.0) ==> r == Failure("risk_per_trade must be between 0 and 1")
  {
    if initialCapital <= 0.0 then Failure("initial_capital must be positive")
    else if !(0.0 < riskPerTrade <= 1.0) then Failure("risk_per_trade must be between 0 and 1")
    else Success(Config(initialCapital, riskPerTrade, slippage))
  }

  /** The state the run loop carries: equity, position (-1, 0 or 1), entry price, trades so far and the
      equity curve. */
  datatype Book = Book(equity: real, position: int, entry: real, trades: seq<Trade>, curve: seq<real>)

  /** The signal the loop accepts for a bar: the key check, the strategy call and the range check, in
      that order. */
  function Signal(bar: Bar, strategy: Strategy): (r: Result<int, string>)
    ensures r.Success? <==> "open" in bar && "close" in bar && strategy(bar).Success? && -1 <= strategy(bar).value <= 1
    ensures r.Success? ==> r.value == strategy(bar).value
  {
    if !("open" in bar && "close" in bar) then Failure(MissingKeys)
    else match strategy(bar)
      case Failure(e) => Failure(e)
      case Success(s) => if -1 <= s <= 1 then Success(s) else Failure(BadSignal)
  }

  /** Close the open position at `price`, on bar `index`. */
  function Exit(b: Book, index: nat, price: real, slippage: real): Book {
    var pnl := (price - b.entry) * b.position as real - slippage;
    b.(equity := b.equity + pnl, position := 0, trades := b.trades + [Trade(index, b.position, b.entry, price, pnl)])
  }

  /** One bar of the loop: exit when the signal differs from an open position, enter from flat on a
      non-zero signal, then sample the equity. */
  function OnBar(b: Book, index: nat, open: real, signal: int, slippage: real): (r: Book)
    ensures r.position == signal
    ensures |r.curve| == |b.curve| + 1
    ensures |b.trades| <= |r.trades| <= |b.trades| + 1
  {
    var b1 := if b.position != 0 && signal != b.position then Exit(b, index, open, slippage) else b;
    var b2 := if b1.position == 0 && signal != 0 then b1.(position := signal, entry := open) else b1;
    b2.(curve := b2.curve + [b2.equity])
  }

  /** After a bar the position is the signal; a trade closes exactly when an open position differs from
      the signal (so a 1 to -1 flip closes and reverses on the same bar), at the bar's open, in the held
      direction; the position is entered at the bar's open whenever it changes to a non-zero signal. */
  lemma OnBarMeaning(b: Book, index: nat, open: real, signal: int, slippage: real)
    ensures OnBar(b, index, open, signal, slippage).position == signal
    ensures |OnBar(b, index, open, signal, slippage).curve| == |b.curve| + 1
    ensures OnBar(b, index, open, signal, slippage).curve[|b.curve|] == OnBar(b, index, open, signal, slippage).equity
    ensures b.position != 0 && signal != b.position ==>
      && OnBar(b, index, open, signal, slippage).trades
         == b.trades + [Trade(index, b.position, b.entry, open, (open - b.entry) * b.position as real - slippage)]
      && OnBar(b, index, open, signal, slippage).equity
         == b.equity + (open - b.entry) * b.position as real - slippage
    ensures !(b.position != 0 && signal != b.position) ==>
      OnBar(b, index, open, signal, slippage).trades == b.trades && OnBar(b, index, open, signal, slippage).equity == b.equity
    ensures signal != 0 && signal != b.position ==> OnBar(b, index, open, signal, slippage).entry == open
    ensures signal == b.position ==> OnBar(b, index, open, signal, slippage).entry == b.entry
  {
    if b.position != 0 && signal != b.position {
      var e := Exit(b, index, open, slippage);
      assert |e.trades| == |b.trades| + 1;
      assert e.trades[|b.trades|].pnl == (open - b.entry) * b.position as real - slippage;
      assert e.trades[|b.trades|].index == index;
      assert e.trades[..|b.trades|] == b.trades;
    }
  }

  /** The book after the bars so far, or the exception of the first bar that raises. */
  function Walk(cfg: Config, prices: seq<Bar>, strategy: Strategy): (r: Result<Book, string>)
    ensures r.Success? ==> |r.value.curve| == |prices| && -1 <= r.value.position <= 1
  {
    if prices == [] then Success(Book(cfg.initialCapital, 0, 0.0, [], []))
    else
      var n := |prices| - 1;
      match Walk(cfg, prices[..n], strategy)
      case Failure(e) => Failure(e)
      case Success(b) =>
        match Signal(prices[n], strategy)
        case Failure(e) => Failure(e)
        case Success(s) => Success(OnBar(b, n, prices[n]["open"], s, cfg.slippage))
  }

  /** The forced close of an open position at the last bar's close; it overwrites the last equity sample. */
  function FinalClose(b: Book, prices: seq<Bar>, slippage: real): Book
    requires b.position != 0 ==> prices != [] && "close" in prices[|prices| - 1] && b.curve != []
  {
    if b.position == 0 then b
    else
      var c := Exit(b, |prices| - 1, prices[|prices| - 1]["close"], slippage);
      c.(curve := c.curve[|c.curve| - 1 := c.equity])
  }

  /** What a successful run produces. */
  datatype RunValue = RunValue(trades: seq<Trade>, curve: seq<real>, metrics: map<string, real>)

  /** Every bar has both prices and a signal in range. */
  predicate ValidBars(prices: seq<Bar>, strategy: Strategy) {
    forall i :: 0 <= i < |prices| ==> Signal(prices[i], strategy).Success?
  }

  /** Backtester.run as a specification. */
  function RunResult(cfg: Config, prices: seq<Bar>, strategy: Strategy): Result<RunValue, string>
    requires cfg.initialCapital > 0.0
  {
    match Walk(cfg, prices, strategy)
    case Failure(e) => Failure(e)
    case Success(b) =>
      WalkBars(cfg, prices, strategy);
      var f := FinalClose(b, prices, cfg.slippage);
      Success(RunValue(f.trades, f.curve, Metrics(cfg.initialCapital, f.equity)))
  }

  /** The metrics run records: starting and ending equity and the net return. */
  function Metrics(capital: real, ending: real): map<string, real>
    requires capital > 0.0
  {
    map["starting_equity" := capital]["ending_equity" := ending]["net_return" := ending / capital - 1.0]
  }

  lemma MetricsAt(capital: real, ending: real)
    requires capital > 0.0
    ensures var m := Metrics(capital, ending);
      && m.Keys == {"starting_equity", "ending_equity", "net_return"}
      && m["starting_equity"] == capital && m["ending_equity"] == ending && m["net_return"] == ending / capital - 1.0
  {
  }

  /** The total profit of a list of trades. */
  function SumPnl(trades: seq<Trade>): real {
    if trades == [] then 0.0 else SumPnl(trades[..|trades| - 1]) + trades[|trades| - 1].pnl
  }

  lemma SumPnlAppend(trades: seq<Trade>, t: Trade)
    ensures SumPnl(trades + [t]) == SumPnl(trades) + t.pnl
  {
    assert (trades + [t])[..|trades|] == trades;
  }

  /** A trade as the loop records it: a real direction, a bar of the run, and the pnl its prices give. */
  predicate WellFormed(t: Trade, prices: seq<Bar>, slippage: real) {
    && (t.direction == 1 || t.direction == -1)
    && t.index < |prices|
    && t.pnl == (t.exit - t.entry) * t.direction as real - slippage
  }

  /** A trade closed inside the loop: well formed, with its exit at its bar's open. */
  predicate ClosedAtOpen(t: Trade, prices: seq<Bar>, slippage: real) {
    WellFormed(t, prices, slippage) && "open" in prices[t.index] && t.exit == prices[t.index]["open"]
  }

  /** The forced final close: well formed, on the last bar, with its exit at that bar's close. */
  predicate ForcedClose(t: Trade, prices: seq<Bar>, slippage: real) {
    WellFormed(t, prices, slippage) && t.index == |prices| - 1 && "close" in prices[t.index]
    && t.exit == prices[t.index]["close"]
  }

  predicate AllClosedAtOpen(trades: seq<Trade>, prices: seq<Bar>, slippage: real) {
    forall j :: 0 <= j < |trades| ==> ClosedAtOpen(trades[j], prices, slippage)
  }

  /** Trade bars never go backwards. */
  predicate Chronological(trades: seq<Trade>) {
    forall j, j' :: 0 <= j < j' < |trades| ==> trades[j].index <= trades[j'].index
  }

  lemma ClosedAtOpenPrefix(trades: seq<Trade>, prices: seq<Bar>, n: nat, slippage: real)
    requires n <= |prices| && AllClosedAtOpen(trades, prices[..n], slippage)
    ensures AllClosedAtOpen(trades, prices, slippage)
  {
    forall j | 0 <= j < |trades|
      ensures ClosedAtOpen(trades[j], prices, slippage)
    {
      assert ClosedAtOpen(trades[j], prices[..n], slippage);
      assert prices[..n][trades[j].index] == prices[trades[j].index];
    }
  }

  lemma AppendTrade(trades: seq<Trade>, t: Trade, prices: seq<Bar>, slippage: real)
    requires AllClosedAtOpen(trades, prices, slippage) && Chronological(trades)
    requires forall j :: 0 <= j < |trades| ==> trades[j].index <= t.index
    ensures Chronological(trades + [t])
    ensures ClosedAtOpen(t, prices, slippage) ==> AllClosedAtOpen(trades + [t], prices, slippage)
    ensures SumPnl(trades + [t]) == SumPnl(trades) + t.pnl
  {
    SumPnlAppend(trades, t);
  }

  /** The equity side of the run loop's invariant: equity is the capital plus the closed trades' pnl,
      and the last equity sample is the current equity. */
  lemma {:induction false} WalkEquity(cfg: Config, prices: seq<Bar>, strategy: Strategy)
    ensures Walk(cfg, prices, strategy).Success? ==>
      var b := Walk(cfg, prices, strategy).value;
      && b.equity == cfg.initialCapital + SumPnl(b.trades)
      && (prices != [] ==> b.curve[|prices| - 1] == b.equity)
      && (b.position != 0 ==> prices != [])
  {
    if prices != [] && Walk(cfg, prices, strategy).Success? {
      var n := |prices| - 1;
      WalkEquity(cfg, prices[..n], strategy);
      var p := Walk(cfg, prices[..n], strategy).value;
      var s := Signal(prices[n], strategy).value;
      OnBarMeaning(p, n, prices[n]["open"], s, cfg.slippage);
      if p.position != 0 && s != p.position {
        var b := Walk(cfg, prices, strategy).value;
        SumPnlAppend(p.trades, b.trades[|p.trades|]);
      }
    }
  }

  /** The trade side of the run loop's invariant: every trade so far is well formed and closed at its
      bar's open, and trade bars never go backwards. */
  lemma {:induction false} WalkTrades(cfg: Config, prices: seq<Bar>, strategy: Strategy)
    ensures Walk(cfg, prices, strategy).Success? ==>
      AllClosedAtOpen(Walk(cfg, prices, strategy).value.trades, prices, cfg.slippage)
      && Chronological(Walk(cfg, prices, strategy).value.trades)
  {
    if prices != [] && Walk(cfg, prices, strategy).Success? {
      var n := |prices| - 1;
      WalkTrades(cfg, prices[..n], strategy);
      var p := Walk(cfg, prices[..n], strategy).value;
      ClosedAtOpenPrefix(p.trades, prices, n, cfg.slippage);
      assert forall j :: 0 <= j < |p.trades| ==> p.trades[j].index < n by {
        forall j | 0 <= j < |p.trades| ensures p.trades[j].index < n {
          assert ClosedAtOpen(p.trades[j], prices[..n], cfg.slippage);
        }
      }
      OnBarTrades(p, n, Signal(prices[n], strategy).value, cfg.slippage, prices);
    }
  }

  /** One bar keeps every trade closed at its bar's open and the trade bars in order. */
  lemma OnBarTrades(p: Book, n: nat, signal: int, slippage: real, prices: seq<Bar>)
    requires n < |prices| && "open" in prices[n]
    requires p.position == 1 || p.position == 0 || p.position == -1
    requires AllClosedAtOpen(p.trades, prices, slippage) && Chronological(p.trades)
    requires forall j :: 0 <= j < |p.trades| ==> p.trades[j].index < n
    ensures AllClosedAtOpen(OnBar(p, n, prices[n]["open"], signal, slippage).trades, prices, slippage)
    ensures Chronological(OnBar(p, n, prices[n]["open"], signal, slippage).trades)
  {
    var open := prices[n]["open"];
    OnBarMeaning(p, n, open, signal, slippage);
    if p.position != 0 && signal != p.position {
      var t := Trade(n, p.position, p.entry, open, (open - p.entry) * p.position as real - slippage);
      assert ClosedAtOpen(t, prices, slippage);
      AppendTrade(p.trades, t, prices, slippage);
    }
  }

  /** A run succeeds exactly when every bar has both prices and gets a signal in range. */
  lemma {:induction false} WalkBars(cfg: Config, prices: seq<Bar>, strategy: Strategy)
    ensures Walk(cfg, prices, strategy).Success? <==> ValidBars(prices, strategy)
  {
    if prices != [] {
      var n := |prices| - 1;
      WalkBars(cfg, prices[..n], strategy);
      assert forall i :: 0 <= i < n ==> prices[..n][i] == prices[i];
    }
  }

  /** Backtester.run raises exactly when some bar lacks a price or gets a bad signal. */
  lemma RunSucceedsIff(cfg: Config, prices: seq<Bar>, strategy: Strategy)
    requires cfg.initialCapital > 0.0
    ensures RunResult(cfg, prices, strategy).Success? <==> ValidBars(prices, strategy)
    ensures RunResult(cfg, prices, strategy).Failure? ==> RunResult(cfg, prices, strategy) == Walk(cfg, prices, strategy).PropagateFailure()
  {
    WalkBars(cfg, prices, strategy);
  }

  /** The forced close keeps the equity accounting: equity is still the capital plus the trades' pnl,
      and the last equity sample is the equity. */
  lemma FinalCloseEquity(b: Book, prices: seq<Bar>, slippage: real, capital: real)
    requires b.position != 0 ==> prices != [] && "close" in prices[|prices| - 1] && b.curve != []
    requires |b.curve| == |prices| && b.equity == capital + SumPnl(b.trades)
    requires prices != [] ==> b.curve[|prices| - 1] == b.equity
    ensures var f := FinalClose(b, prices, slippage);
      && f.equity == capital + SumPnl(f.trades) && |f.curve| == |prices|
      && (prices != [] ==> f.curve[|prices| - 1] == f.equity)
  {
    if b.position != 0 {
      var f := FinalClose(b, prices, slippage);
      var t := f.trades[|b.trades|];
      assert f.trades == b.trades + [t];
      SumPnlAppend(b.trades, t);
    }
  }

  /** The forced close adds at most one trade, on the last bar at its close. */
  lemma FinalCloseTrades(b: Book, prices: seq<Bar>, slippage: real)
    requires b.position != 0 ==> prices != [] && "close" in prices[|prices| - 1] && b.curve != []
    requires b.position == 1 || b.position == 0 || b.position == -1
    requires AllClosedAtOpen(b.trades, prices, slippage) && Chronological(b.trades)
    ensures var f := FinalClose(b, prices, slippage);
      && (forall j :: 0 <= j < |f.trades| ==>
            ClosedAtOpen(f.trades[j], prices, slippage)
            || (j == |f.trades| - 1 && ForcedClose(f.trades[j], prices, slippage)))
      && Chronological(f.trades)
  {
    if b.position != 0 {
      var f := FinalClose(b, prices, slippage);
      var t := f.trades[|b.trades|];
      assert f.trades == b.trades + [t];
      assert ForcedClose(t, prices, slippage);
      AppendTrade(b.trades, t, prices, slippage);
    }
  }

  /** The equity accounting of a run: equity changes only by closed-trade pnl (ending - starting = the
      trades' total), net_return is ending over starting minus one, and the curve has one sample per bar
      and ends at the ending equity. */
  lemma RunEquity(cfg: Config, prices: seq<Bar>, strategy: Strategy)
    requires cfg.initialCapital > 0.0 && RunResult(cfg, prices, strategy).Success?
    ensures var r := RunResult(cfg, prices, strategy).value;
      && r.metrics.Keys == {"starting_equity", "ending_equity", "net_return"}
      && r.metrics["starting_equity"] == cfg.initialCapital
      && r.metrics["ending_equity"] - cfg.initialCapital == SumPnl(r.trades)
      && r.metrics["net_return"] == r.metrics["ending_equity"] / cfg.initialCapital - 1.0
      && |r.curve| == |prices|
      && (prices != [] ==> r.curve[|prices| - 1] == r.metrics["ending_equity"])
  {
    WalkEquity(cfg, prices, strategy);
    WalkBars(cfg, prices, strategy);
    var b := Walk(cfg, prices, strategy).value;
    FinalCloseEquity(b, prices, cfg.slippage, cfg.initialCapital);
    MetricsAt(cfg.initialCapital, FinalClose(b, prices, cfg.slippage).equity);
  }

  /** The trades of a run: every one has a direction of 1 or -1 and pnl = (exit - entry) * direction -
      slippage; all but the last closed at their bar's open, and the last either so or, when a position
      was still open after the last bar, at the last bar's close; trade bars never go backwards. */
  lemma RunTrades(cfg: Config, prices: seq<Bar>, strategy: Strategy)
    requires cfg.initialCapital > 0.0 && RunResult(cfg, prices, strategy).Success?
    ensures var r := RunResult(cfg, prices, strategy).value;
      && (forall j :: 0 <= j < |r.trades| ==>
            ClosedAtOpen(r.trades[j], prices, cfg.slippage)
            || (j == |r.trades| - 1 && ForcedClose(r.trades[j], prices, cfg.slippage)))
      && Chronological(r.trades)
  {
    WalkTrades(cfg, prices, strategy);
    WalkEquity(cfg, prices, strategy);
    WalkBars(cfg, prices, strategy);
    FinalCloseTrades(Walk(cfg, prices, strategy).value, prices, cfg.slippage);
  }

  /** The trades whose pnl is positive, and those whose pnl is not. */
  function Wins(trades: seq<Trade>): (n: nat)
    ensures n <= |trades|
  {
    if trades == [] then 0 else Wins(trades[..|trades| - 1]) + (if trades[|trades| - 1].pnl > 0.0 then 1 else 0)
  }

  function Losses(trades: seq<Trade>): (n: nat)
    ensures n <= |trades|
  {
    if trades == [] then 0 else Losses(trades[..|trades| - 1]) + (if trades[|trades| - 1].pnl <= 0.0 then 1 else 0)
  }

  /** Every trade is either a win or a loss. */
  lemma {:induction false} WinsPlusLosses(trades: seq<Trade>)
    ensures Wins(trades) + Losses(trades) == |trades|
  {
    if trades != [] {
      WinsPlusLosses(trades[..|trades| - 1]);
    }
  }

  /** wins / (total or 1), a fraction in [0, 1]. */
  function WinRate(wins: nat, total: nat): (r: real)
    requires wins <= total
    ensures 0.0 <= r <= 1.0
    ensures wins == 0 ==> r == 0.0
    ensures 0 < wins == total ==> r == 1.0
  {
    var n := if total == 0 then 1 else total;
    Numeric.DivBetween(wins as real, n as real, 0.0, 1.0);
    wins as real / n as real
  }

  /** `m.setdefault(k, v)`: insert `k` only when it is missing. */
  function SetDefault(m: map<string, real>, k: string, v: real): (r: map<string, real>)
    ensures r.Keys == m.Keys + {k}
    ensures forall j :: j in m ==> r[j] == m[j]
    ensures k !in m ==> r[k] == v
  {
    if k in m then m else m[k := v]
  }

  /** The metrics `m` with every key of `d` they lack filled in from `d`. */
  function Merge(m: map<string, real>, d: map<string, real>): (r: map<string, real>)
    ensures r.Keys == m.Keys + d.Keys
  {
    map k | k in m.Keys + d.Keys :: if k in m then m[k] else d[k]
  }

  lemma MergeEmpty(m: map<string, real>)
    ensures Merge(m, map[]) == m
  {
    assert Merge(m, map[]).Keys == m.Keys;
  }

  /** One more setdefault merges one more default. */
  lemma MergeStep(m: map<string, real>, d: map<string, real>, k: string, v: real)
    requires k !in d
    ensures SetDefault(Merge(m, d), k, v) == Merge(m, d[k := v])
  {
    var l := SetDefault(Merge(m, d), k, v);
    var r := Merge(m, d[k := v]);
    assert l.Keys == r.Keys;
    forall j | j in l
      ensures l[j] == r[j]
    {
      if j != k {
        assert j in m || j in d;
      }
    }
  }

  /** Merging the same defaults twice changes nothing. */
  lemma MergeIdempotent(m: map<string, real>, d: map<string, real>)
    ensures Merge(Merge(m, d), d) == Merge(m, d)
  {
    assert Merge(Merge(m, d), d).Keys == Merge(m, d).Keys;
  }

  /** The values summarize computes from the trade count, the wins, the losses and the equity curve:
      total_trades, wins, losses, the win rate and, for a non-empty curve, the last equity sample. */
  function Defaults(total: nat, wins: nat, losses: nat, curve: seq<real>): map<string, real>
    requires wins <= total
  {
    var d := map["total_trades" := total as real]["wins" := wins as real]["losses" := losses as real]
      ["win_rate" := WinRate(wins, total)];
    if curve != [] then d["ending_equity" := curve[|curve| - 1]] else d
  }

  lemma DefaultsAt(total: nat, wins: nat, losses: nat, curve: seq<real>)
    requires wins <= total
    ensures var d := Defaults(total, wins, losses, curve);
      && d["total_trades"] == total as real && d["wins"] == wins as real && d["losses"] == losses as real
      && d["win_rate"] == WinRate(wins, total)
      && (curve != [] ==> d["ending_equity"] == curve[|curve| - 1])
  {
  }

  /** The metrics after summarize. */
  function Summary(metrics: map<string, real>, trades: seq<Trade>, curve: seq<real>): map<string, real> {
    Merge(metrics, Defaults(|trades|, Wins(trades), Losses(trades), curve))
  }

  /** summarize never overwrites a metric that is already there. */
  lemma SummaryKeeps(metrics: map<string, real>, trades: seq<Trade>, curve: seq<real>)
    ensures forall k :: k in metrics ==> k in Summary(metrics, trades, curve) && Summary(metrics, trades, curve)[k] == metrics[k]
  {
  }

  /** A second summarize changes nothing. */
  lemma SummaryIdempotent(metrics: map<string, real>, trades: seq<Trade>, curve: seq<real>)
    ensures Summary(Summary(metrics, trades, curve), trades, curve) == Summary(metrics, trades, curve)
  {
    MergeIdempotent(metrics, Defaults(|trades|, Wins(trades), Losses(trades), curve));
  }

  /** On metrics that lack them, summarize reports wins + losses = total_trades = the number of trades,
      wins counting the trades with positive pnl, win_rate = wins / max(total, 1) in [0, 1], and the last
      equity sample as ending_equity. */
  lemma SummaryCounts(trades: seq<Trade>, curve: seq<real>)
    ensures var s := Summary(map[], trades, curve);
      && s["wins"] + s["losses"] == s["total_trades"] == |trades| as real
      && s["wins"] == Wins(trades) as real
      && s["win_rate"] == WinRate(Wins(trades), |trades|)
      && (curve != [] ==> s["ending_equity"] == curve[|curve| - 1])
  {
    WinsPlusLosses(trades);
    DefaultsAt(|trades|, Wins(trades), Losses(trades), curve);
  }

  /** BacktestResult: the trades, the equity curve and the metrics of a run. */
  class BacktestResult {
    var trades: seq<Trade>
    var equityCurve: seq<real>
    var metrics: map<string, real>

    constructor ()
      ensures trades == [] && equityCurve == [] && metrics == map[]
    {
      trades := [];
      equityCurve := [];
      metrics := map[];
    }

    /** add_trade. */
    method AddTrade(t: Trade)
      modifies this
      ensures trades == old(trades) + [t]
      ensures equityCurve == old(equityCurve) && metrics == old(metrics)
    {
      trades := trades + [t];
    }

    /** summarize: fill in the missing summary metrics and return them. */
    method Summarize() returns (m: map<string, real>)
      modifies this
      ensures metrics == Summary(old(metrics), trades, equityCurve) && m == metrics
      ensures trades == old(trades) && equityCurve == old(equityCurve)
    {
      var n, wins, losses, curve := |trades|, Wins(trades), Losses(trades), equityCurve;
      m := metrics;
      ghost var d: map<string, real> := map[];
      MergeEmpty(m);
      MergeStep(metrics, d, "total_trades", n as real);
      m := SetDefault(m, "total_trades", n as real);
      d := d["total_trades" := n as real];
      MergeStep(metrics, d, "wins", wins as real);
      m := SetDefault(m, "wins", wins as real);
      d := d["wins" := wins as real];
      MergeStep(metrics, d, "losses", losses as real);
      m := SetDefault(m, "losses", losses as real);
      d := d["losses" := losses as real];
      MergeStep(metrics, d, "win_rate", WinRate(wins, n));
      m := SetDefault(m, "win_rate", WinRate(wins, n));
      d := d["win_rate" := WinRate(wins, n)];
      if curve != [] {
        MergeStep(metrics, d, "ending_equity", curve[|curve| - 1]);
        m := SetDefault(m, "ending_equity", curve[|curve| - 1]);
        d := d["ending_equity" := curve[|curve| - 1]];
      }
      assert d == Defaults(n, wins, losses, curve);
      metrics := m;
    }
  }

  /** The summary line run appends to the audit log. */
  function AuditEntry(sessionId: Option<string>, trades: nat, netReturn: real): Entry {
    map[
      "module" := JStr("qai.backtester"),
      "session_id" := if sessionId.Some? then JStr(sessionId.value) else JNull,
      "total_trades" := JInt(trades),
      "net_return" := JNum(netReturn)]
  }

  /** One iteration of the run loop, on the result object and the loop's locals. */
  method OnBarStep(result: BacktestResult, equity: real, position: int, entryPrice: real, idx: nat, open: real, signal: int, slippage: real)
    returns (equity': real, position': int, entry': real)
    modifies result
    ensures Book(equity', position', entry', result.trades, result.equityCurve)
      == OnBar(Book(equity, position, entryPrice, old(result.trades), old(result.equityCurve)), idx, open, signal, slippage)
    ensures result.metrics == old(result.metrics)
  {
    OnBarMeaning(Book(equity, position, entryPrice, result.trades, result.equityCurve), idx, open, signal, slippage);
    equity', position', entry' := equity, position, entryPrice;
    if position' != 0 && signal != position' {
      var pnl := (open - entry') * position' as real;
      pnl := pnl - slippage;
      equity' := equity' + pnl;
      result.AddTrade(Trade(idx, position', entry', open, pnl));
      position' := 0;
    }
    if position' == 0 && signal != 0 {
      position' := signal;
      entry' := open;
    }
    result.equityCurve := result.equityCurve + [equity'];
    ghost var a := OnBar(Book(equity, position, entryPrice, old(result.trades), old(result.equityCurve)), idx, open, signal, slippage);
    assert a.equity == equity';
    assert a.position == position';
    assert a.entry == entry';
    assert a.trades == result.trades;
    assert a.curve == result.equityCurve;
  }

  /** The forced close after the loop, on the result object. */
  method CloseOpenPosition(result: BacktestResult, equity: real, position: int, entryPrice: real, prices: seq<Bar>, slippage: real)
    returns (equity': real)
    requires position != 0 ==> prices != [] && "close" in prices[|prices| - 1] && result.equityCurve != []
    modifies result
    ensures var f := FinalClose(Book(equity, position, entryPrice, old(result.trades), old(result.equityCurve)), prices, slippage);
      equity' == f.equity && result.trades == f.trades && result.equityCurve == f.curve
    ensures result.metrics == old(result.metrics)
  {
    equity' := equity;
    if position != 0 {
      var last := prices[|prices| - 1];
      var pnl := (last["close"] - entryPrice) * position as real;
      pnl := pnl - slippage;
      ghost var b := Book(equity, position, entryPrice, old(result.trades), old(result.equityCurve));
      ghost var e := Exit(b, |prices| - 1, last["close"], slippage);
      assert e.equity == equity + pnl && e.trades == b.trades + [Trade(|prices| - 1, position, entryPrice, last["close"], pnl)];
      equity' := equity' + pnl;
      result.AddTrade(Trade(|prices| - 1, position, entryPrice, last["close"], pnl));
      result.equityCurve := result.equityCurve[|result.equityCurve| - 1 := equity'];
      ghost var f := FinalClose(b, prices, slippage);
      assert f.equity == equity';
      assert |f.trades| == |result.trades|;
      assert f.trades[..|old(result.trades)|] == old(result.trades);
      assert f.trades[|old(result.trades)|] == result.trades[|old(result.trades)|];
      assert f.trades == result.trades;
    }
  }

  /** The audit lines a successful run appends. */
  function RunAudit(cfg: Config, prices: seq<Bar>, strategy: Strategy, sessionId: Option<string>, hmacKey: Option<string>, env: Env): seq<string>
    requires cfg.initialCapital > 0.0 && RunResult(cfg, prices, strategy).Success?
  {
    var v := RunResult(cfg, prices, strategy).value;
    Written(AuditEntry(sessionId, |v.trades|, v.metrics["net_return"]), None, hmacKey, env)
  }

  lemma WalkOneMore(cfg: Config, prices: seq<Bar>, strategy: Strategy, i: nat)
    requires i < |prices|
    ensures Walk(cfg, prices[..i + 1], strategy) ==
      match Walk(cfg, prices[..i], strategy)
      case Failure(e) => Failure(e)
      case Success(b) =>
        match Signal(prices[i], strategy)
        case Failure(e) => Failure(e)
        case Success(s) => Success(OnBar(b, i, prices[i]["open"], s, cfg.slippage))
  {
    Seqs.TakeOneMore(prices, i);
  }

  /** Once a bar raises, the run raises that exception. */
  lemma {:induction false} WalkFailureSticks(cfg: Config, prices: seq<Bar>, strategy: Strategy, i: nat)
    requires i <= |prices| && Walk(cfg, prices[..i], strategy).Failure?
    ensures Walk(cfg, prices, strategy) == Walk(cfg, prices[..i], strategy)
  {
    if i < |prices| {
      var n := |prices| - 1;
      assert prices[..n][..i] == prices[..i];
      WalkFailureSticks(cfg, prices[..n], strategy, i);
    } else {
      Seqs.TakeAll(prices);
    }
  }

  /** Backtester.run: the loop over the bars, the forced final close, the metrics, and the audit line when
      an audit log is given (appended after the metrics; the writer's own failures are swallowed). As
      written, run takes no hmac_key and signs with None, i.e. with QAI_HMAC_KEY from the environment;
      `hmacKey` is the key the simulator's call passes, which the corrected run_sessions forwards. */
  method Run(cfg: Config, prices: seq<Bar>, strategy: Strategy, sessionId: Option<string>, hmacKey: Option<string>, audit: AuditFile?, env: Env)
    returns (r: Result<BacktestResult, string>)
    requires cfg.initialCapital > 0.0
    modifies audit
    ensures r.Success? <==> RunResult(cfg, prices, strategy).Success?
    ensures r.Failure? ==> r.error == RunResult(cfg, prices, strategy).error
    ensures r.Success? ==>
      var v := RunResult(cfg, prices, strategy).value;
      && fresh(r.value)
      && r.value.trades == v.trades && r.value.equityCurve == v.curve && r.value.metrics == v.metrics
    ensures audit != null ==>
      audit.lines == old(audit.lines) + (if r.Success? then RunAudit(cfg, prices, strategy, sessionId, hmacKey, env) else [])
  {
    var result := new BacktestResult();
    var w := Replay(cfg, prices, strategy, result);
    if w.Failure? {
      return Failure(w.error);
    }
    WalkBars(cfg, prices, strategy);
    WalkEquity(cfg, prices, strategy);
    var equity := CloseOpenPosition(result, w.value.equity, w.value.position, w.value.entry, prices, cfg.slippage);
    result.metrics := result.metrics["starting_equity" := cfg.initialCapital];
    result.metrics := result.metrics["ending_equity" := equity];
    result.metrics := result.metrics["net_return" := equity / cfg.initialCapital - 1.0];
    assert result.metrics == Metrics(cfg.initialCapital, equity);
    assert RunResult(cfg, prices, strategy) == Success(RunValue(result.trades, result.equityCurve, result.metrics));
    if audit != null {
      var _, _ := audit.AppendSigned(AuditEntry(sessionId, |result.trades|, result.metrics["net_return"]), None, hmacKey, env);
    }
    r := Success(result);
  }

  /** The loop of Backtester.run over the bars: the book it ends with (equity, position and entry price
      in the loop's variables, trades and curve in the result object), or the first bar's exception. */
  method Replay(cfg: Config, prices: seq<Bar>, strategy: Strategy, result: BacktestResult) returns (w: Result<Book, string>)
    requires result.trades == [] && result.equityCurve == [] && result.metrics == map[]
    modifies result
    ensures w == Walk(cfg, prices, strategy)
    ensures w.Success? ==> w.value.trades == result.trades && w.value.curve == result.equityCurve
    ensures result.metrics == map[]
  {
    var equity := cfg.initialCapital;
    var position := 0;
    var entryPrice := 0.0;
    var idx := 0;
    while idx < |prices|
      invariant idx <= |prices|
      invariant Walk(cfg, prices[..idx], strategy) == Success(Book(equity, position, entryPrice, result.trades, result.equityCurve))
      invariant result.metrics == map[]
    {
      var bar := prices[idx];
      WalkOneMore(cfg, prices, strategy, idx);
      var signal := Signal(bar, strategy);
      if signal.Failure? {
        WalkFailureSticks(cfg, prices, strategy, idx + 1);
        return Failure(signal.error);
      }
      equity, position, entryPrice := OnBarStep(result, equity, position, entryPrice, idx, bar["open"], signal.value, cfg.slippage);
      idx := idx + 1;
    }
    Seqs.TakeAll(prices);
    w := Success(Book(equity, position, entryPrice, result.trades, result.equityCurve));
  }
}

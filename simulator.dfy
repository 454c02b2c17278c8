/** BacktestSimulator.run_sessions: one backtest per session, the aggregate over them, the signed summary
    line, and the re-verification of the audit entries appended during the call. */
module Simulator {
  import opened Wrappers
  import opened Json
  import Text
  import Numeric
  import Seqs
  import AuditLog
  import HmacUtils
  import Backtester
  import Datastore

  const NoSessions := "No sessions provided for simulation"
  const MultiSession := "multi-session"

  /** One element of the `sessions` argument: its session id, its bars and its own strategy, if any. */
  datatype SessionSpec = SessionSpec(sessionId: string, prices: seq<Backtester.Bar>, strategy: Option<Backtester.Strategy>)

  /** The optional strategy_factory. */
  type Factory = Option<SessionSpec -> Backtester.Strategy>

  /** The simulator's settings: its backtester, its datastore if any, and its HMAC key. Whether an audit
      log is set is the `audit` argument of RunSessions. */
  datatype BacktestSimulator = BacktestSimulator(backtester: Backtester.Config, store: Option<Datastore.Store>, hmacKey: Option<string>)

  // ---------------------------------------------------------------------------------------------
  // One session

  /** The strategy a session runs with: its own, else the factory's, else a ValueError. */
  function StrategyFor(spec: SessionSpec, factory: Factory): (r: Result<Backtester.Strategy, string>)
    ensures r.Failure? <==> spec.strategy.None? && factory.None?
    ensures spec.strategy.Some? ==> r == Success(spec.strategy.value)
    ensures spec.strategy.None? && factory.Some? ==> r == Success(factory.value(spec))
  {
    if spec.strategy.Some? then Success(spec.strategy.value)
    else if factory.None? then Failure("No strategy provided for session " + spec.sessionId)
    else Success(factory.value(spec))
  }

  /** The backtest of one session. */
  function RunOf(cfg: Backtester.Config, spec: SessionSpec, factory: Factory): (r: Result<Backtester.RunValue, string>)
    requires cfg.initialCapital > 0.0
    ensures spec.strategy.None? && factory.None? ==> r == Failure("No strategy provided for session " + spec.sessionId)
    ensures r.Success? ==> spec.strategy.Some? || factory.Some?
  {
    match StrategyFor(spec, factory)
    case Failure(e) => Failure(e)
    case Success(s) => Backtester.RunResult(cfg, spec.prices, s)
  }

  /** `m.get(k, default)` on a metrics dict. */
  function Lookup(m: map<string, real>, k: string, default: real): (r: real)
    ensures k in m ==> r == m[k]
    ensures k !in m ==> r == default
  {
    if k in m then m[k] else default
  }

  /** The payload of the audit line the backtester appends for a session's successful run. */
  function SessionEntry(id: string, v: Backtester.RunValue): AuditLog.Entry {
    Backtester.AuditEntry(Some(id), |v.trades|, Lookup(v.metrics, "net_return", 0.0))
  }

  /** The audit line the backtester appends for a session's successful run, signed with the key
      run_sessions forwards. */
  function RunLines(id: string, v: Backtester.RunValue, key: Option<string>, env: AuditLog.Env): seq<string> {
    AuditLog.Written(SessionEntry(id, v), None, key, env)
  }

  /** The loop over sessions whose runs are `rs`: the runs in order, or the first exception. */
  function FoldRuns(rs: seq<Result<Backtester.RunValue, string>>): (r: Result<seq<Backtester.RunValue>, string>)
    ensures r.Success? ==> |r.value| == |rs|
  {
    if rs == [] then Success([])
    else
      var n := |rs| - 1;
      var p := FoldRuns(rs[..n]);
      if p.Failure? then p
      else if rs[n].Failure? then Failure(rs[n].error)
      else Success(p.value + [rs[n].value])
  }

  /** The audit lines the backtester appends in that loop, for the sessions that run before the first
      exception. */
  function FoldLines(rs: seq<Result<Backtester.RunValue, string>>, ls: seq<seq<string>>): seq<string>
    requires |rs| == |ls|
  {
    if rs == [] then []
    else
      var n := |rs| - 1;
      var l := FoldLines(rs[..n], ls[..n]);
      if FoldRuns(rs[..n]).Failure? || rs[n].Failure? then l
      else l + ls[n]
  }

  /** The audit lines each session's run would append on its own: `ls` in FoldLines. */
  function SessionLines(rs: seq<Result<Backtester.RunValue, string>>, ids: seq<string>, key: Option<string>, env: AuditLog.Env): (ls: seq<seq<string>>)
    requires |rs| == |ids|
    ensures |ls| == |rs|
  {
    seq(|rs|, k requires 0 <= k < |rs| => if rs[k].Success? then RunLines(ids[k], rs[k].value, key, env) else [])
  }

  /** `ls` holds the audit lines of each successful run; stated so that a session's lines are only
      consulted where a `RunLines` term for it is at hand. */
  ghost predicate LinesOf(rs: seq<Result<Backtester.RunValue, string>>, ids: seq<string>, key: Option<string>, env: AuditLog.Env, ls: seq<seq<string>>) {
    && |ls| == |rs| == |ids|
    && forall k {:trigger RunLines(ids[k], rs[k].value, key, env)} :: 0 <= k < |rs| && rs[k].Success? ==> ls[k] == RunLines(ids[k], rs[k].value, key, env)
  }

  lemma SessionLinesOf(rs: seq<Result<Backtester.RunValue, string>>, ids: seq<string>, key: Option<string>, env: AuditLog.Env)
    requires |rs| == |ids|
    ensures LinesOf(rs, ids, key, env, SessionLines(rs, ids, key, env))
  {
  }

  /** Each session's run on its own. */
  function Results(cfg: Backtester.Config, specs: seq<SessionSpec>, factory: Factory): (rs: seq<Result<Backtester.RunValue, string>>)
    requires cfg.initialCapital > 0.0
    ensures |rs| == |specs|
  {
    if specs == [] then []
    else Results(cfg, specs[..|specs| - 1], factory) + [RunOf(cfg, specs[|specs| - 1], factory)]
  }

  lemma {:induction false} ResultsAt(cfg: Backtester.Config, specs: seq<SessionSpec>, factory: Factory, i: nat)
    requires cfg.initialCapital > 0.0 && i < |specs|
    ensures Results(cfg, specs, factory)[i] == RunOf(cfg, specs[i], factory)
  {
    var n := |specs| - 1;
    if i < n {
      ResultsAt(cfg, specs[..n], factory, i);
    }
  }

  /** `rs` are the sessions' runs, in order; stated so that a run's definition is only consulted where a
      `RunOf` term for that session is at hand. */
  ghost predicate Ran(cfg: Backtester.Config, specs: seq<SessionSpec>, factory: Factory, rs: seq<Result<Backtester.RunValue, string>>)
    requires cfg.initialCapital > 0.0
  {
    |rs| == |specs| && forall k {:trigger RunOf(cfg, specs[k], factory)} :: 0 <= k < |specs| ==> rs[k] == RunOf(cfg, specs[k], factory)
  }

  lemma RanResults(cfg: Backtester.Config, specs: seq<SessionSpec>, factory: Factory)
    requires cfg.initialCapital > 0.0
    ensures Ran(cfg, specs, factory, Results(cfg, specs, factory))
  {
    forall k | 0 <= k < |specs| ensures Results(cfg, specs, factory)[k] == RunOf(cfg, specs[k], factory) {
      ResultsAt(cfg, specs, factory, k);
    }
  }

  /** The loop completes exactly when every session runs; the runs are then the sessions' runs in order.
      Otherwise the exception is that of the first session that raises. */
  lemma {:induction false} FoldMeaning(rs: seq<Result<Backtester.RunValue, string>>)
    ensures FoldRuns(rs).Success? <==> forall i :: 0 <= i < |rs| ==> rs[i].Success?
    ensures FoldRuns(rs).Success? ==> forall i :: 0 <= i < |rs| ==> FoldRuns(rs).value[i] == rs[i].value
    ensures FoldRuns(rs).Failure? ==>
      exists k :: 0 <= k < |rs| && rs[k].Failure? && FoldRuns(rs).error == rs[k].error
        && forall j :: 0 <= j < k ==> rs[j].Success?
  {
    if rs != [] {
      var n := |rs| - 1;
      FoldMeaning(rs[..n]);
      assert forall i :: 0 <= i < n ==> rs[..n][i] == rs[i];
    }
  }

  lemma FoldOneMore(rs: seq<Result<Backtester.RunValue, string>>, ls: seq<seq<string>>, i: nat)
    requires |rs| == |ls| && i < |rs|
    ensures rs[..i + 1][..i] == rs[..i] && ls[..i + 1][..i] == ls[..i]
    ensures FoldRuns(rs[..i + 1]) ==
      var p := FoldRuns(rs[..i]);
      if p.Failure? then p else if rs[i].Failure? then Failure(rs[i].error) else Success(p.value + [rs[i].value])
    ensures FoldLines(rs[..i + 1], ls[..i + 1]) ==
      var l := FoldLines(rs[..i], ls[..i]);
      if FoldRuns(rs[..i]).Failure? || rs[i].Failure? then l else l + ls[i]
  {
    Seqs.TakeOneMore(rs, i);
    Seqs.TakeOneMore(ls, i);
  }

  // ---------------------------------------------------------------------------------------------
  // The aggregate

  /** The running totals of the session loop: the summed total_trades and net_return of the summaries, and
      the best session so far with its return (None stands for the initial float("-inf")). */
  datatype Totals = Totals(trades: real, returnSum: real, best: Option<string>, bestReturn: Option<real>)

  /** A summary's net_return, None when it has none (summary.get("net_return", float("-inf"))). */
  function NetReturn(summary: map<string, real>): (r: Option<real>)
    ensures r.Some? <==> "net_return" in summary
  {
    if "net_return" in summary then Some(summary["net_return"]) else None
  }

  /** `a > b` where None stands for float("-inf"). */
  predicate Beats(a: Option<real>, b: Option<real>) {
    a.Some? && (b.None? || a.value > b.value)
  }

  /** One turn of the loop once the session's summary is known. */
  function Add(t: Totals, id: string, summary: map<string, real>): Totals {
    var r := NetReturn(summary);
    var better := Beats(r, t.bestReturn);
    Totals(t.trades + Lookup(summary, "total_trades", 0.0), t.returnSum + Lookup(summary, "net_return", 0.0),
      if better then Some(id) else t.best, if better then r else t.bestReturn)
  }

  /** The totals after the loop over sessions with these ids and summaries. */
  function Tally(ids: seq<string>, sums: seq<map<string, real>>): Totals
    requires |ids| == |sums|
  {
    if ids == [] then Totals(0.0, 0.0, None, None)
    else
      var n := |ids| - 1;
      Add(Tally(ids[..n], sums[..n]), ids[n], sums[n])
  }

  /** One metric read from each summary, 0 where it is missing. */
  function Column(sums: seq<map<string, real>>, k: string): (c: seq<real>)
    ensures |c| == |sums| && forall i :: 0 <= i < |sums| ==> c[i] == Lookup(sums[i], k, 0.0)
  {
    seq(|sums|, i requires 0 <= i < |sums| => Lookup(sums[i], k, 0.0))
  }

  lemma ColumnSnoc(sums: seq<map<string, real>>, k: string)
    requires sums != []
    ensures Column(sums, k) == Column(sums[..|sums| - 1], k) + [Lookup(sums[|sums| - 1], k, 0.0)]
  {
    assert Column(sums, k) == Column(sums[..|sums| - 1], k) + [Lookup(sums[|sums| - 1], k, 0.0)];
  }

  /** total_trades and the summed return are the sums of the summaries' total_trades and net_return. */
  lemma {:induction false} TallySums(ids: seq<string>, sums: seq<map<string, real>>)
    requires |ids| == |sums|
    ensures Tally(ids, sums).trades == Numeric.Sum(Column(sums, "total_trades"))
    ensures Tally(ids, sums).returnSum == Numeric.Sum(Column(sums, "net_return"))
  {
    if ids != [] {
      var n := |ids| - 1;
      TallySums(ids[..n], sums[..n]);
      ColumnSnoc(sums, "total_trades");
      ColumnSnoc(sums, "net_return");
      Numeric.SumAppend(Column(sums[..n], "total_trades"), Lookup(sums[n], "total_trades", 0.0));
      Numeric.SumAppend(Column(sums[..n], "net_return"), Lookup(sums[n], "net_return", 0.0));
    }
  }

  /** The best session is the first one with the greatest net_return: its return is at least every
      other session's, and strictly above every earlier session's. It is None exactly when no summary
      has a net_return. */
  lemma {:induction false} TallyBest(ids: seq<string>, sums: seq<map<string, real>>) returns (k: nat)
    requires |ids| == |sums|
    ensures var t := Tally(ids, sums); t.best.None? <==> t.bestReturn.None?
    ensures var t := Tally(ids, sums); t.best.None? <==> forall i :: 0 <= i < |sums| ==> NetReturn(sums[i]).None?
    ensures var t := Tally(ids, sums); t.best.Some? ==>
      && k < |ids| && t.best == Some(ids[k]) && t.bestReturn == NetReturn(sums[k])
      && (forall j :: 0 <= j < |sums| && NetReturn(sums[j]).Some? ==> NetReturn(sums[j]).value <= t.bestReturn.value)
      && (forall j :: 0 <= j < k && NetReturn(sums[j]).Some? ==> NetReturn(sums[j]).value < t.bestReturn.value)
  {
    if ids == [] {
      k := 0;
    } else {
      var n := |ids| - 1;
      var k' := TallyBest(ids[..n], sums[..n]);
      var t' := Tally(ids[..n], sums[..n]);
      assert forall i :: 0 <= i < n ==> sums[..n][i] == sums[i];
      if Beats(NetReturn(sums[n]), t'.bestReturn) {
        k := n;
      } else {
        k := k';
      }
    }
  }

  /** The session_results dict: each id mapped to the value of its last session. */
  function Collect<V>(ids: seq<string>, vs: seq<V>): map<string, V>
    requires |ids| == |vs|
  {
    if ids == [] then map[]
    else
      var n := |ids| - 1;
      Collect(ids[..n], vs[..n])[ids[n] := vs[n]]
  }

  /** The keys are the session ids, and each id holds the value of the last session with that id. */
  lemma {:induction false} CollectMeaning<V>(ids: seq<string>, vs: seq<V>)
    requires |ids| == |vs|
    ensures Collect(ids, vs).Keys == set i | 0 <= i < |ids| :: ids[i]
    ensures forall i :: 0 <= i < |ids| && (forall j :: i < j < |ids| ==> ids[j] != ids[i]) ==> Collect(ids, vs)[ids[i]] == vs[i]
  {
    if ids != [] {
      var n := |ids| - 1;
      CollectMeaning(ids[..n], vs[..n]);
      assert forall i :: 0 <= i < n ==> ids[..n][i] == ids[i] && vs[..n][i] == vs[i];
      assert (set i | 0 <= i < |ids| :: ids[i]) == (set i | 0 <= i < n :: ids[..n][i]) + {ids[n]};
    }
  }

  /** The aggregate dict; a None best_session_return stands for Python's None. */
  datatype Aggregate = Aggregate(sessions: nat, totalTrades: real, averageNetReturn: real,
                                 bestSession: Option<string>, bestSessionReturn: Option<real>)

  /** The aggregate from the number of distinct sessions and the loop's totals. */
  function AggregateOf(count: nat, t: Totals): Aggregate {
    Aggregate(count, t.trades, if count != 0 then t.returnSum / count as real else 0.0,
      t.best, if t.best.Some? && t.best.value != "" then t.bestReturn else None)
  }

  /** The aggregate as the audit entry holds it. Python's total_trades is an int, the sum of the
      summaries' trade counts (`len` of each run's trades); the model carries those counts as reals in the
      metrics map and writes the sum as the whole number it is (TotalTradesCounted). */
  function AggregateJson(a: Aggregate): (e: AuditLog.Entry)
    ensures "total_trades" in e && e["total_trades"].JInt?
    ensures a.totalTrades == a.totalTrades.Floor as real ==> e["total_trades"].i as real == a.totalTrades
  {
    map[
      "sessions" := JInt(a.sessions),
      "total_trades" := JInt(a.totalTrades.Floor),
      "average_net_return" := JNum(a.averageNetReturn),
      "best_session" := if a.bestSession.Some? then JStr(a.bestSession.value) else JNull,
      "best_session_return" := if a.bestSessionReturn.Some? then JNum(a.bestSessionReturn.value) else JNull]
  }

  /** The payload of the simulator's own audit line: the module, the multi_session_backtest event, the
      aggregate dict and the summary path (None without a datastore). */
  function SimEntry(a: Aggregate, summaryPath: Option<string>): (e: AuditLog.Entry)
    ensures "event" in e && e["event"] == JStr("multi_session_backtest")
    ensures "aggregate" in e && e["aggregate"] == JObj(AggregateJson(a))
  {
    map[
      "module" := JStr("qai.simulator"),
      "event" := JStr("multi_session_backtest"),
      "aggregate" := JObj(AggregateJson(a)),
      "summary_path" := if summaryPath.Some? then JStr(summaryPath.value) else JNull]
  }

  // ---------------------------------------------------------------------------------------------
  // Reading back the audit log

  /** The entries _read_audit_entries keeps from physical lines: blank lines and lines that do not parse
      are skipped. */
  function Parsed(lines: seq<string>, codec: Codec): (es: seq<Json>)
    ensures |es| <= |lines|
  {
    if lines == [] then []
    else Parsed(lines[..|lines| - 1], codec) + ParsedLine(lines[|lines| - 1], codec)
  }

  function ParsedLine(line: string, codec: Codec): (es: seq<Json>)
    ensures |es| <= 1
  {
    var t := Text.Strip(line);
    if t == "" then []
    else match codec.parse(t)
      case Success(v) => [v]
      case Failure(_) => []
  }

  /** _read_audit_entries on a log holding these lines (a missing file holds none). */
  function ReadEntries(file: seq<string>, codec: Codec): seq<Json> {
    Parsed(Text.Lines(Text.AllBoundaries, Text.Terminated(file)), codec)
  }

  /** `all_entries[len(initial_entries):]`. */
  function NewEntries(before: seq<Json>, after: seq<Json>): seq<Json> {
    if |before| <= |after| then after[|before|..] else []
  }

  lemma {:induction false} ParsedAppend(a: seq<string>, b: seq<string>, codec: Codec)
    ensures Parsed(a + b, codec) == Parsed(a, codec) + Parsed(b, codec)
  {
    if b == [] {
      assert a + b == a;
    } else {
      var n := |b| - 1;
      ParsedAppend(a, b[..n], codec);
      Seqs.DropLastOfAppend(a, b);
    }
  }

  /** When no line of the log holds a line boundary, the entries read after appending are the entries
      read before followed by those of the appended lines, so the slice is exactly the appended entries. */
  lemma NewEntriesAreAppended(before: seq<string>, appended: seq<string>, codec: Codec)
    requires forall i :: 0 <= i < |before| ==> Text.NoBreak(Text.AllBoundaries, before[i])
    requires forall i :: 0 <= i < |appended| ==> Text.NoBreak(Text.AllBoundaries, appended[i])
    ensures NewEntries(ReadEntries(before, codec), ReadEntries(before + appended, codec)) == Parsed(appended, codec)
  {
    var all := before + appended;
    assert forall i :: 0 <= i < |all| ==> Text.NoBreak(Text.AllBoundaries, all[i]) by {
      forall i | 0 <= i < |all| ensures Text.NoBreak(Text.AllBoundaries, all[i]) {
        if i < |before| { assert all[i] == before[i]; } else { assert all[i] == appended[i - |before|]; }
      }
    }
    Text.LinesOfTerminated(Text.AllBoundaries, before);
    Text.LinesOfTerminated(Text.AllBoundaries, all);
    ParsedAppend(before, appended, codec);
    var p := Parsed(before, codec);
    var q := Parsed(appended, codec);
    assert (p + q)[|p|..] == q;
  }

  /** repr() of one HMACFailure dataclass. */
  function FailureRepr(f: HmacUtils.HmacFailure, codec: Codec): string {
    "HMACFailure(index=" + Text.IntToString(f.index) + ", reason='" + f.reason + "', entry=" + codec.repr(f.entry) + ")"
  }

  function FailureItems(fs: seq<HmacUtils.HmacFailure>, codec: Codec): string {
    if fs == [] then ""
    else if |fs| == 1 then FailureRepr(fs[0], codec)
    else FailureRepr(fs[0], codec) + ", " + FailureItems(fs[1..], codec)
  }

  /** The exception the re-verification raises, if any: verify_audit_stream's own, or a ValueError listing
      the failures. */
  function VerifyNew(entries: seq<Json>, key: string, signer: AuditLog.Signer, codec: Codec): (r: Option<string>)
    ensures r.None? <==> HmacUtils.Stream(entries, key, signer).Success? && HmacUtils.Stream(entries, key, signer).value.failures == []
  {
    match HmacUtils.Stream(entries, key, signer)
    case Failure(e) => Some(e)
    case Success(rep) =>
      if rep.failures == [] then None
      else Some("HMAC validation failed: [" + FailureItems(rep.failures, codec) + "]")
  }

  // ---------------------------------------------------------------------------------------------
  // run_sessions as a specification

  /** The report run_sessions returns, with each session's run (before summarize). */
  datatype Report = Report(results: map<string, Backtester.RunValue>, aggregate: Aggregate, summaryPath: Option<string>)

  /** What a call does: its result or exception, and the lines it appends to the audit log. */
  datatype Effect = Effect(result: Result<Report, string>, appended: seq<string>)

  /** The session ids in order. */
  function Ids(specs: seq<SessionSpec>): (ids: seq<string>)
    ensures |ids| == |specs| && forall i :: 0 <= i < |specs| ==> ids[i] == specs[i].sessionId
  {
    seq(|specs|, i requires 0 <= i < |specs| => specs[i].sessionId)
  }

  /** The summaries of the runs. */
  function Summaries(vs: seq<Backtester.RunValue>): (s: seq<map<string, real>>)
    ensures |s| == |vs|
  {
    if vs == [] then []
    else
      var v := vs[|vs| - 1];
      Summaries(vs[..|vs| - 1]) + [Backtester.Summary(v.metrics, v.trades, v.curve)]
  }

  lemma {:induction false} SummariesAt(vs: seq<Backtester.RunValue>, i: nat)
    requires i < |vs|
    ensures Summaries(vs)[i] == Backtester.Summary(vs[i].metrics, vs[i].trades, vs[i].curve)
  {
    var n := |vs| - 1;
    if i < n {
      SummariesAt(vs[..n], i);
    }
  }

  /** The summary file's path, when there is a datastore. */
  function PathFor(sim: BacktestSimulator, summaryName: string): Option<string> {
    if sim.store.Some? then Some(Datastore.SummaryPath(sim.store.value, summaryName)) else None
  }

  /** The report once every session has run, from the session ids, the runs and their summaries. */
  function ReportOf(sim: BacktestSimulator, ids: seq<string>, vs: seq<Backtester.RunValue>, sums: seq<map<string, real>>,
                    summaryName: string): Report
    requires |vs| == |ids| == |sums|
  {
    var results := Collect(ids, vs);
    Report(results, AggregateOf(|results|, Tally(ids, sums)), PathFor(sim, summaryName))
  }

  /** The end of run_sessions on a simulator with an audit log whose lines were `before` and to which the
      sessions' runs appended `lines`: the signed multi-session entry is appended and, with a key, the
      entries added since the call began are verified. */
  function Finish(sim: BacktestSimulator, report: Report, before: seq<string>, lines: seq<string>, env: AuditLog.Env): Effect {
    var payload := SimEntry(report.aggregate, report.summaryPath);
    var appended := lines + AuditLog.Written(payload, Some(MultiSession), sim.hmacKey, env);
    match AuditLog.SignedEntry(payload, Some(MultiSession), sim.hmacKey, env)
    case Failure(e) => Effect(Failure(e), appended)
    case Success(_) =>
      if !AuditLog.Given(sim.hmacKey) then Effect(Success(report), appended)
      else
        var newEntries := NewEntries(ReadEntries(before, env.codec), ReadEntries(before + appended, env.codec));
        match VerifyNew(newEntries, sim.hmacKey.value, env.signer, env.codec)
        case Some(e) => Effect(Failure(e), appended)
        case None => Effect(Success(report), appended)
  }

  /** run_sessions once the sessions are known to be there and their runs are `rs`. */
  function AfterRuns(sim: BacktestSimulator, ids: seq<string>, rs: seq<Result<Backtester.RunValue, string>>, summaryName: string,
                     audit: Option<seq<string>>, env: AuditLog.Env): Effect
    requires |rs| == |ids|
  {
    var runs := FoldRuns(rs);
    var lines := if audit.Some? then FoldLines(rs, SessionLines(rs, ids, sim.hmacKey, env)) else [];
    if runs.Failure? then Effect(Failure(runs.error), lines)
    else
      var report := ReportOf(sim, ids, runs.value, Summaries(runs.value), summaryName);
      if audit.None? then Effect(Success(report), [])
      else Finish(sim, report, audit.value, lines, env)
  }

  /** What the loop leaves behind is the report built from the runs: its results are the sessions
      and its aggregate is the one the running totals give. */
  lemma LoopReport(sim: BacktestSimulator, ids: seq<string>, vs: seq<Backtester.RunValue>, ss: seq<map<string, real>>,
                   sessions: map<string, Backtester.BacktestResult>, totals: Totals, summaryName: string)
    requires |ids| == |vs| && Summed(vs, ss) && totals == Tally(ids, ss)
    requires Stores(sessions, Collect(ids, vs), Collect(ids, ss))
    ensures var report := ReportOf(sim, ids, vs, Summaries(vs), summaryName);
      Holds(sessions, report.results) && report.aggregate == AggregateOf(|sessions|, totals)
  {
    SummedSummaries(vs, ss);
    StoresHolds(sessions, ids, vs, ss);
    assert |sessions| == |sessions.Keys| == |Collect(ids, vs).Keys| == |Collect(ids, vs)|;
  }

  /** When run_sessions returns, its report is the one built from the runs. */
  lemma AfterRunsReport(sim: BacktestSimulator, ids: seq<string>, rs: seq<Result<Backtester.RunValue, string>>, summaryName: string,
                        audit: Option<seq<string>>, env: AuditLog.Env)
    requires |rs| == |ids|
    ensures var o := AfterRuns(sim, ids, rs, summaryName, audit, env);
      o.result.Success? ==>
        && FoldRuns(rs).Success?
        && o.result.value == ReportOf(sim, ids, FoldRuns(rs).value, Summaries(FoldRuns(rs).value), summaryName)
  {
    if audit.Some? && FoldRuns(rs).Success? {
      var report := ReportOf(sim, ids, FoldRuns(rs).value, Summaries(FoldRuns(rs).value), summaryName);
      FinishReport(sim, report, audit.value, FoldLines(rs, SessionLines(rs, ids, sim.hmacKey, env)), env);
    }
  }

  lemma FinishReport(sim: BacktestSimulator, report: Report, before: seq<string>, lines: seq<string>, env: AuditLog.Env)
    ensures Finish(sim, report, before, lines, env).result.Success? ==> Finish(sim, report, before, lines, env).result.value == report
  {
  }

  /** run_sessions. `audit` holds the lines of the audit log before the call, or None when the simulator
      has no audit log. */
  function Outcome(sim: BacktestSimulator, specs: seq<SessionSpec>, factory: Factory, summaryName: string,
                   audit: Option<seq<string>>, env: AuditLog.Env): Effect
    requires sim.backtester.initialCapital > 0.0
  {
    if specs == [] then Effect(Failure(NoSessions), [])
    else AfterRuns(sim, Ids(specs), Results(sim.backtester, specs, factory), summaryName, audit, env)
  }

  // ---------------------------------------------------------------------------------------------
  // What the specification promises

  /** A run records its net_return and no total_trades, so its summary's total_trades is its number of
      trades and its summary's net_return is the run's. */
  lemma SummaryOfMetrics(m: map<string, real>, trades: seq<Backtester.Trade>, curve: seq<real>)
    requires m.Keys == {"starting_equity", "ending_equity", "net_return"}
    ensures var s := Backtester.Summary(m, trades, curve);
      && Lookup(s, "total_trades", 0.0) == |trades| as real
      && NetReturn(s) == Some(m["net_return"]) && Lookup(s, "net_return", 0.0) == m["net_return"]
  {
    Backtester.WinsPlusLosses(trades);
    Backtester.DefaultsAt(|trades|, Backtester.Wins(trades), Backtester.Losses(trades), curve);
    Backtester.SummaryKeeps(m, trades, curve);
  }

  lemma RunSummary(cfg: Backtester.Config, prices: seq<Backtester.Bar>, strategy: Backtester.Strategy)
    requires cfg.initialCapital > 0.0 && Backtester.RunResult(cfg, prices, strategy).Success?
    ensures var v := Backtester.RunResult(cfg, prices, strategy).value;
      var s := Backtester.Summary(v.metrics, v.trades, v.curve);
      && "net_return" in v.metrics
      && Lookup(s, "total_trades", 0.0) == |v.trades| as real
      && NetReturn(s) == Some(v.metrics["net_return"]) && Lookup(s, "net_return", 0.0) == v.metrics["net_return"]
  {
    Backtester.RunEquity(cfg, prices, strategy);
    var v := Backtester.RunResult(cfg, prices, strategy).value;
    SummaryOfMetrics(v.metrics, v.trades, v.curve);
  }

  /** The aggregate of sessions whose summaries all hold a net_return: sessions is the number of distinct
      session ids; total_trades and the average return come from the sums over all summaries (repeated ids
      included); the best session is the first with the greatest net_return, and its return is reported
      unless its id is empty. */
  lemma ReportMeaning(sim: BacktestSimulator, ids: seq<string>, vs: seq<Backtester.RunValue>, sums: seq<map<string, real>>,
                      summaryName: string) returns (k: nat)
    requires |vs| == |ids| == |sums| && ids != []
    requires forall i :: 0 <= i < |sums| ==> NetReturn(sums[i]).Some?
    ensures var a := ReportOf(sim, ids, vs, sums, summaryName).aggregate;
      && a.sessions == |set i | 0 <= i < |ids| :: ids[i]| && a.sessions >= 1
      && a.totalTrades == Numeric.Sum(Column(sums, "total_trades"))
      && a.averageNetReturn == Numeric.Sum(Column(sums, "net_return")) / a.sessions as real
    ensures var a := ReportOf(sim, ids, vs, sums, summaryName).aggregate;
      && k < |ids| && a.bestSession == Some(ids[k])
      && (forall j :: 0 <= j < |sums| ==> NetReturn(sums[j]).value <= NetReturn(sums[k]).value)
      && (forall j :: 0 <= j < k ==> NetReturn(sums[j]).value < NetReturn(sums[k]).value)
      && a.bestSessionReturn == (if ids[k] != "" then NetReturn(sums[k]) else None)
    ensures ReportOf(sim, ids, vs, sums, summaryName).summaryPath == PathFor(sim, summaryName)
  {
    CollectMeaning(ids, vs);
    assert ids[0] in Collect(ids, vs);
    TallySums(ids, sums);
    k := TallyBest(ids, sums);
    assert NetReturn(sums[0]).Some?;
  }

  /** The sessions dict of the report: one entry per distinct session id, holding that id's last run. */
  lemma ResultsMeaning(sim: BacktestSimulator, ids: seq<string>, vs: seq<Backtester.RunValue>, sums: seq<map<string, real>>,
                       summaryName: string)
    requires |vs| == |ids| == |sums|
    ensures var r := ReportOf(sim, ids, vs, sums, summaryName).results;
      && r.Keys == (set i | 0 <= i < |ids| :: ids[i])
      && forall i :: 0 <= i < |ids| && (forall j :: i < j < |ids| ==> ids[j] != ids[i]) ==> r[ids[i]] == vs[i]
  {
    CollectMeaning(ids, vs);
  }

  // ---------------------------------------------------------------------------------------------
  // The loop and the method

  /** Once a prefix of the sessions has raised, the loop's outcome and audit lines are those of the prefix. */
  lemma {:induction false} FoldSticks(rs: seq<Result<Backtester.RunValue, string>>, ls: seq<seq<string>>, i: nat)
    requires |rs| == |ls| && i <= |rs| && FoldRuns(rs[..i]).Failure?
    ensures FoldRuns(rs) == FoldRuns(rs[..i])
    ensures FoldLines(rs, ls) == FoldLines(rs[..i], ls[..i])
  {
    if i < |rs| {
      var n := |rs| - 1;
      assert rs[..n][..i] == rs[..i];
      assert ls[..n][..i] == ls[..i];
      FoldSticks(rs[..n], ls[..n], i);
    } else {
      Seqs.TakeAll(rs);
      Seqs.TakeAll(ls);
    }
  }

  lemma CollectSnoc<V>(ids: seq<string>, vs: seq<V>, id: string, v: V)
    requires |ids| == |vs|
    ensures Collect(ids + [id], vs + [v]) == Collect(ids, vs)[id := v]
  {
    assert (ids + [id])[..|ids|] == ids;
    assert (vs + [v])[..|vs|] == vs;
  }

  lemma TallySnoc(ids: seq<string>, sums: seq<map<string, real>>, id: string, summary: map<string, real>)
    requires |ids| == |sums|
    ensures Tally(ids + [id], sums + [summary]) == Add(Tally(ids, sums), id, summary)
  {
    assert (ids + [id])[..|ids|] == ids;
    assert (sums + [summary])[..|sums|] == sums;
  }

  lemma TallyTurn(ids: seq<string>, ss: seq<map<string, real>>, i: nat, summary: map<string, real>)
    requires i < |ids| && |ss| == i
    ensures Tally(ids[..i + 1], ss + [summary]) == Add(Tally(ids[..i], ss), ids[i], summary)
  {
    Seqs.TakeOneMore(ids, i);
    TallySnoc(ids[..i], ss, ids[i], summary);
  }

  lemma CollectTurn<V>(ids: seq<string>, vs: seq<V>, i: nat, v: V)
    requires i < |ids| && |vs| == i
    ensures Collect(ids[..i + 1], vs + [v]) == Collect(ids[..i], vs)[ids[i] := v]
  {
    Seqs.TakeOneMore(ids, i);
    CollectSnoc(ids[..i], vs, ids[i], v);
  }

  /** A result object holding the trades and equity curve of run `v`, with metrics `summary`. */
  predicate Stored(res: Backtester.BacktestResult, v: Backtester.RunValue, summary: map<string, real>)
    reads res
  {
    res.trades == v.trades && res.equityCurve == v.curve && res.metrics == summary
  }

  /** The value of a session's result object once summarize has run on it. */
  predicate Summarized(res: Backtester.BacktestResult, v: Backtester.RunValue)
    reads res
  {
    Stored(res, v, Backtester.Summary(v.metrics, v.trades, v.curve))
  }

  /** The session_results dict against the runs and the summaries kept in the loop. */
  predicate Stores(sessions: map<string, Backtester.BacktestResult>, results: map<string, Backtester.RunValue>,
                   sums: map<string, map<string, real>>)
    reads sessions.Values
  {
    sessions.Keys == results.Keys && results.Keys <= sums.Keys
    && forall id :: id in sessions ==> Stored(sessions[id], results[id], sums[id])
  }

  /** `ss` are the summaries of the runs `vs`; stated so that a summary's definition is only consulted
      where a `Summary` term for that run is at hand. */
  ghost predicate Summed(vs: seq<Backtester.RunValue>, ss: seq<map<string, real>>) {
    && |ss| == |vs|
    && forall k {:trigger Backtester.Summary(vs[k].metrics, vs[k].trades, vs[k].curve)} :: 0 <= k < |vs| ==>
         ss[k] == Backtester.Summary(vs[k].metrics, vs[k].trades, vs[k].curve)
  }

  lemma SummedSnoc(vs: seq<Backtester.RunValue>, ss: seq<map<string, real>>, v: Backtester.RunValue, summary: map<string, real>)
    requires Summed(vs, ss) && summary == Backtester.Summary(v.metrics, v.trades, v.curve)
    ensures Summed(vs + [v], ss + [summary])
  {
    var vs', ss' := vs + [v], ss + [summary];
    forall k | 0 <= k < |vs'| ensures ss'[k] == Backtester.Summary(vs'[k].metrics, vs'[k].trades, vs'[k].curve) {
      if k < |vs| {
        assert vs'[k] == vs[k] && ss'[k] == ss[k];
        assert ss[k] == Backtester.Summary(vs[k].metrics, vs[k].trades, vs[k].curve);
      }
    }
  }

  lemma {:induction false} SummedSummaries(vs: seq<Backtester.RunValue>, ss: seq<map<string, real>>)
    requires Summed(vs, ss)
    ensures ss == Summaries(vs)
  {
    forall k | 0 <= k < |vs| ensures ss[k] == Summaries(vs)[k] {
      SummariesAt(vs, k);
      assert ss[k] == Backtester.Summary(vs[k].metrics, vs[k].trades, vs[k].curve);
    }
  }

  /** What the loop keeps implies what run_sessions promises of its session_results. */
  lemma {:induction false} StoresHolds(sessions: map<string, Backtester.BacktestResult>, ids: seq<string>,
                                       vs: seq<Backtester.RunValue>, ss: seq<map<string, real>>)
    requires |ids| == |vs| && Summed(vs, ss) && Stores(sessions, Collect(ids, vs), Collect(ids, ss))
    ensures Holds(sessions, Collect(ids, vs))
  {
    forall id | id in sessions ensures Collect(ids, ss)[id] == Backtester.Summary(Collect(ids, vs)[id].metrics, Collect(ids, vs)[id].trades, Collect(ids, vs)[id].curve) {
      CollectSummed(ids, vs, ss, id);
    }
  }

  lemma {:induction false} CollectSummed(ids: seq<string>, vs: seq<Backtester.RunValue>, ss: seq<map<string, real>>, id: string)
    requires |ids| == |vs| && Summed(vs, ss) && id in Collect(ids, vs)
    ensures id in Collect(ids, ss)
    ensures Collect(ids, ss)[id] == Backtester.Summary(Collect(ids, vs)[id].metrics, Collect(ids, vs)[id].trades, Collect(ids, vs)[id].curve)
  {
    var n := |ids| - 1;
    assert ids == ids[..n] + [ids[n]] && vs == vs[..n] + [vs[n]] && ss == ss[..n] + [ss[n]];
    CollectSnoc(ids[..n], vs[..n], ids[n], vs[n]);
    CollectSnoc(ids[..n], ss[..n], ids[n], ss[n]);
    assert ss[n] == Backtester.Summary(vs[n].metrics, vs[n].trades, vs[n].curve);
    if id != ids[n] {
      assert Summed(vs[..n], ss[..n]) by {
        forall k | 0 <= k < n ensures ss[..n][k] == Backtester.Summary(vs[..n][k].metrics, vs[..n][k].trades, vs[..n][k].curve) {
          assert ss[k] == Backtester.Summary(vs[k].metrics, vs[k].trades, vs[k].curve);
        }
      }
      CollectSummed(ids[..n], vs[..n], ss[..n], id);
    }
  }

  /** The session_results dict against the runs it stands for. */
  predicate Holds(sessions: map<string, Backtester.BacktestResult>, results: map<string, Backtester.RunValue>)
    reads sessions.Values
  {
    sessions.Keys == results.Keys && forall id :: id in sessions ==> Summarized(sessions[id], results[id])
  }

  /** The audit lines of one more session, in the form RunOne states them. */
  lemma LinesTurn(rs: seq<Result<Backtester.RunValue, string>>, ls: seq<seq<string>>, i: nat)
    requires i < |rs| == |ls|
    requires FoldRuns(rs[..i]).Success?
    ensures FoldLines(rs[..i + 1], ls[..i + 1]) == FoldLines(rs[..i], ls[..i]) + (if rs[i].Success? then ls[i] else [])
  {
    FoldOneMore(rs, ls, i);
  }

  lemma StoresUpdate(sessions: map<string, Backtester.BacktestResult>, results: map<string, Backtester.RunValue>,
                     sums: map<string, map<string, real>>, id: string, result: Backtester.BacktestResult,
                     v: Backtester.RunValue, summary: map<string, real>)
    requires Stores(sessions, results, sums) && Stored(result, v, summary)
    ensures Stores(sessions[id := result], results[id := v], sums[id := summary])
  {
  }

  /** The accumulation in the loop body, once the session's summary is known. */
  method AddSession(totalTrades: real, totalReturn: real, bestId: Option<string>, bestReturn: Option<real>,
                    id: string, summary: map<string, real>)
    returns (totalTrades': real, totalReturn': real, bestId': Option<string>, bestReturn': Option<real>)
    ensures Totals(totalTrades', totalReturn', bestId', bestReturn') == Add(Totals(totalTrades, totalReturn, bestId, bestReturn), id, summary)
  {
    totalTrades' := totalTrades + Lookup(summary, "total_trades", 0.0);
    totalReturn' := totalReturn + Lookup(summary, "net_return", 0.0);
    bestId', bestReturn' := bestId, bestReturn;
    if Beats(NetReturn(summary), bestReturn) {
      bestId' := Some(id);
      bestReturn' := NetReturn(summary);
    }
  }

  /** _read_audit_entries. */
  method ReadAuditEntries(audit: AuditLog.AuditFile, codec: Codec) returns (entries: seq<Json>)
    ensures entries == ReadEntries(audit.lines, codec)
  {
    var lines := Text.Lines(Text.AllBoundaries, Text.Terminated(audit.lines));
    entries := [];
    var i := 0;
    while i < |lines|
      invariant i <= |lines|
      invariant entries == Parsed(lines[..i], codec)
    {
      ParsedOneMore(lines, i, codec);
      var got := ParseLine(lines[i], codec);
      entries := entries + got;
      i := i + 1;
    }
    Seqs.TakeAll(lines);
  }

  /** One line of _read_audit_entries: blank lines and lines that are not JSON are skipped. */
  method ParseLine(raw: string, codec: Codec) returns (got: seq<Json>)
    ensures got == ParsedLine(raw, codec)
  {
    got := [];
    var line := Text.Strip(raw);
    if line != "" {
      var parsed := codec.parse(line);
      if parsed.Success? {
        got := [parsed.value];
      }
    }
  }

  lemma ParsedOneMore(lines: seq<string>, i: nat, codec: Codec)
    requires i < |lines|
    ensures Parsed(lines[..i + 1], codec) == Parsed(lines[..i], codec) + ParsedLine(lines[i], codec)
  {
    Seqs.TakeOneMore(lines, i);
  }

  /** The loop of run_sessions over the sessions: the session_results dict and the totals, or the first
      exception; the backtester appends its audit lines on the way. */
  method RunLoop(cfg: Backtester.Config, specs: seq<SessionSpec>, factory: Factory, key: Option<string>, audit: AuditLog.AuditFile?, env: AuditLog.Env,
                 ghost rs: seq<Result<Backtester.RunValue, string>>, ghost ls: seq<seq<string>>)
    returns (r: Result<(map<string, Backtester.BacktestResult>, Totals), string>, ghost vs: seq<Backtester.RunValue>,
             ghost ss: seq<map<string, real>>)
    requires cfg.initialCapital > 0.0 && Ran(cfg, specs, factory, rs) && LinesOf(rs, Ids(specs), key, env, ls)
    modifies audit
    ensures r.Success? <==> FoldRuns(rs).Success?
    ensures r.Failure? ==> r.error == FoldRuns(rs).error
    ensures r.Success? ==>
      && vs == FoldRuns(rs).value && Summed(vs, ss) && r.value.1 == Tally(Ids(specs), ss)
      && Stores(r.value.0, Collect(Ids(specs), vs), Collect(Ids(specs), ss))
    ensures audit != null ==> audit.lines == old(audit.lines) + FoldLines(rs, ls)
  {
    ghost var ids := Ids(specs);
    ghost var start := if audit != null then audit.lines else [];
    var sessions: map<string, Backtester.BacktestResult> := map[];
    var totalTrades, totalReturn := 0.0, 0.0;
    var bestId: Option<string> := None;
    var bestReturn: Option<real> := None;
    vs, ss := [], [];
    var i := 0;
    while i < |specs|
      invariant i <= |specs|
      invariant FoldRuns(rs[..i]) == Success(vs)
      invariant audit != null ==> audit.lines == start + FoldLines(rs[..i], ls[..i])
      invariant Summed(vs, ss)
      invariant Totals(totalTrades, totalReturn, bestId, bestReturn) == Tally(ids[..i], ss)
      invariant Stores(sessions, Collect(ids[..i], vs), Collect(ids[..i], ss))
    {
      var stop;
      stop, sessions, totalTrades, totalReturn, bestId, bestReturn, vs, ss :=
        Turn(cfg, specs, factory, key, audit, env, rs, ids, ls, vs, ss, start, i, sessions, totalTrades, totalReturn, bestId, bestReturn);
      if stop.Some? {
        FoldSticks(rs, ls, i + 1);
        return Failure(stop.value), vs, ss;
      }
      i := i + 1;
    }
    Seqs.TakeAll(rs);
    Seqs.TakeAll(ids);
    Seqs.TakeAll(ls);
    r := Success((sessions, Totals(totalTrades, totalReturn, bestId, bestReturn)));
  }

  /** The report run_sessions returns: the session_results dict, the aggregate and the summary path. */
  datatype MultiSessionReport = MultiSessionReport(sessions: map<string, Backtester.BacktestResult>, aggregate: Aggregate,
                                                   summaryPath: Option<string>)

  /** run_sessions on a simulator whose audit log is `audit` (null for none). */
  method RunSessions(sim: BacktestSimulator, specs: seq<SessionSpec>, factory: Factory, summaryName: string,
                     audit: AuditLog.AuditFile?, env: AuditLog.Env)
    returns (r: Result<MultiSessionReport, string>)
    requires sim.backtester.initialCapital > 0.0
    modifies audit
    ensures var o := Outcome(sim, specs, factory, summaryName, if audit == null then None else Some(old(audit.lines)), env);
      && (r.Success? <==> o.result.Success?)
      && (r.Failure? ==> r.error == o.result.error)
      && (r.Success? ==>
            && r.value.aggregate == o.result.value.aggregate && r.value.summaryPath == o.result.value.summaryPath
            && Holds(r.value.sessions, o.result.value.results))
      && (audit != null ==> audit.lines == old(audit.lines) + o.appended)
  {
    if specs == [] {
      return Failure(NoSessions);
    }
    RanResults(sim.backtester, specs, factory);
    r := RunAll(sim, specs, factory, summaryName, audit, env, Results(sim.backtester, specs, factory));
  }

  /** run_sessions on at least one session whose runs are `rs`. */
  method RunAll(sim: BacktestSimulator, specs: seq<SessionSpec>, factory: Factory, summaryName: string,
                audit: AuditLog.AuditFile?, env: AuditLog.Env, ghost rs: seq<Result<Backtester.RunValue, string>>)
    returns (r: Result<MultiSessionReport, string>)
    requires sim.backtester.initialCapital > 0.0 && Ran(sim.backtester, specs, factory, rs)
    modifies audit
    ensures var o := AfterRuns(sim, Ids(specs), rs, summaryName, if audit == null then None else Some(old(audit.lines)), env);
      && (r.Success? <==> o.result.Success?)
      && (r.Failure? ==> r.error == o.result.error)
      && (r.Success? ==>
            && r.value.aggregate == o.result.value.aggregate && r.value.summaryPath == o.result.value.summaryPath
            && Holds(r.value.sessions, o.result.value.results))
      && (audit != null ==> audit.lines == old(audit.lines) + o.appended)
  {
    ghost var before := if audit != null then audit.lines else [];
    var initial: seq<Json> := [];
    if audit != null && AuditLog.Given(sim.hmacKey) {
      initial := ReadAuditEntries(audit, env.codec);
    }
    ghost var ls := SessionLines(rs, Ids(specs), sim.hmacKey, env);
    SessionLinesOf(rs, Ids(specs), sim.hmacKey, env);
    ghost var given := if audit == null then None else Some(before);
    var loop, vs, ss := RunLoop(sim.backtester, specs, factory, sim.hmacKey, audit, env, rs, ls);
    if loop.Failure? {
      return Failure(loop.error);
    }
    var sessions, totals := loop.value.0, loop.value.1;
    LoopReport(sim, Ids(specs), vs, ss, sessions, totals, summaryName);
    ghost var report := ReportOf(sim, Ids(specs), vs, Summaries(vs), summaryName);
    r := Complete(sim, report, sessions, totals, summaryName, audit, before, FoldLines(rs, ls), initial, env);
    AfterRunsReport(sim, Ids(specs), rs, summaryName, given, env);
  }

  /** run_sessions after the loop: the aggregate, the summary path and, with an audit log, the
      multi_session_backtest entry and the verification of the new entries. The report it returns
      holds the sessions' results. */
  method Complete(sim: BacktestSimulator, ghost report: Report, sessions: map<string, Backtester.BacktestResult>,
                  totals: Totals, summaryName: string, audit: AuditLog.AuditFile?, ghost before: seq<string>,
                  ghost lines: seq<string>, initial: seq<Json>, env: AuditLog.Env)
    returns (r: Result<MultiSessionReport, string>)
    requires report.aggregate == AggregateOf(|sessions|, totals) && report.summaryPath == PathFor(sim, summaryName)
    requires Holds(sessions, report.results)
    requires audit != null ==> audit.lines == before + lines
    requires audit != null && AuditLog.Given(sim.hmacKey) ==> initial == ReadEntries(before, env.codec)
    modifies audit
    ensures var o := if audit == null then Effect(Success(report), []) else Finish(sim, report, before, lines, env);
      && (r.Success? <==> o.result.Success?)
      && (r.Failure? ==> r.error == o.result.error)
      && (r.Success? ==>
            && r.value.aggregate == report.aggregate && r.value.summaryPath == report.summaryPath
            && Holds(r.value.sessions, report.results))
      && (audit != null ==> audit.lines == before + o.appended)
  {
    var aggregate := AggregateOf(|sessions|, totals);
    var path := PathFor(sim, summaryName);
    if audit != null {
      var failure := Conclude(sim, report, aggregate, path, audit, before, lines, initial, env);
      if failure.Some? {
        return Failure(failure.value);
      }
      FinishReport(sim, report, before, lines, env);
    }
    r := Success(MultiSessionReport(sessions, aggregate, path));
  }

  /** The audit part of run_sessions after the loop: append the signed multi-session entry and, with a
      key, verify every entry added since `initial` was read; the exception raised, if any. */
  method Conclude(sim: BacktestSimulator, ghost report: Report, aggregate: Aggregate, path: Option<string>,
                  audit: AuditLog.AuditFile, ghost before: seq<string>, ghost lines: seq<string>, initial: seq<Json>,
                  env: AuditLog.Env)
    returns (failure: Option<string>)
    requires report.aggregate == aggregate && report.summaryPath == path
    requires audit.lines == before + lines
    requires AuditLog.Given(sim.hmacKey) ==> initial == ReadEntries(before, env.codec)
    modifies audit
    ensures var f := Finish(sim, report, before, lines, env);
      && (failure.None? <==> f.result.Success?) && (failure.Some? ==> failure.value == f.result.error)
      && audit.lines == before + f.appended
  {
    var payload := SimEntry(aggregate, path);
    var written, _ := audit.AppendSigned(payload, Some(MultiSession), sim.hmacKey, env);
    Seqs.AppendAssoc(before, lines, AuditLog.Written(payload, Some(MultiSession), sim.hmacKey, env));
    if written.Failure? {
      return Some(written.error);
    }
    if !AuditLog.Given(sim.hmacKey) {
      return None;
    }
    var all := ReadAuditEntries(audit, env.codec);
    var newEntries := if |initial| <= |all| then all[|initial|..] else [];
    var checked := HmacUtils.VerifyAuditStream(newEntries, sim.hmacKey.value, env.signer);
    if checked.Failure? {
      return Some(checked.error);
    }
    if checked.value.failures != [] {
      return Some("HMAC validation failed: [" + FailureItems(checked.value.failures, env.codec) + "]");
    }
    failure := None;
  }

  /** One turn of the loop: the session's run and, when it does not raise, its entry in session_results
      and the totals. */
  method Turn(cfg: Backtester.Config, specs: seq<SessionSpec>, factory: Factory, key: Option<string>, audit: AuditLog.AuditFile?, env: AuditLog.Env,
              ghost rs: seq<Result<Backtester.RunValue, string>>, ghost ids: seq<string>, ghost ls: seq<seq<string>>,
              ghost vs: seq<Backtester.RunValue>, ghost ss: seq<map<string, real>>, ghost start: seq<string>, i: nat,
              sessions: map<string, Backtester.BacktestResult>, totalTrades: real, totalReturn: real,
              bestId: Option<string>, bestReturn: Option<real>)
    returns (stop: Option<string>, sessions': map<string, Backtester.BacktestResult>, totalTrades': real, totalReturn': real,
             bestId': Option<string>, bestReturn': Option<real>,
             ghost vs': seq<Backtester.RunValue>, ghost ss': seq<map<string, real>>)
    requires cfg.initialCapital > 0.0 && Ran(cfg, specs, factory, rs) && ids == Ids(specs) && LinesOf(rs, ids, key, env, ls)
    requires i < |specs| && FoldRuns(rs[..i]) == Success(vs)
    requires audit != null ==> audit.lines == start + FoldLines(rs[..i], ls[..i])
    requires Summed(vs, ss) && Stores(sessions, Collect(ids[..i], vs), Collect(ids[..i], ss))
    requires Totals(totalTrades, totalReturn, bestId, bestReturn) == Tally(ids[..i], ss)
    modifies audit
    ensures stop.Some? ==> FoldRuns(rs[..i + 1]) == Failure(stop.value)
    ensures audit != null ==> audit.lines == start + FoldLines(rs[..i + 1], ls[..i + 1])
    ensures stop.None? ==>
      && FoldRuns(rs[..i + 1]) == Success(vs')
      && Summed(vs', ss')
      && Stores(sessions', Collect(ids[..i + 1], vs'), Collect(ids[..i + 1], ss'))
      && Totals(totalTrades', totalReturn', bestId', bestReturn') == Tally(ids[..i + 1], ss')
  {
    FoldOneMore(rs, ls, i);
    LinesTurn(rs, ls, i);
    var spec := specs[i];
    var one := RunOne(cfg, specs, i, factory, key, audit, env, rs);
    if one.Failure? {
      return Some(one.error), sessions, totalTrades, totalReturn, bestId, bestReturn, vs, ss;
    }
    stop, vs', ss' := None, vs + [rs[i].value], ss + [one.value.1];
    SummedSnoc(vs, ss, rs[i].value, one.value.1);
    if audit != null {
      assert ls[i] == RunLines(ids[i], rs[i].value, key, env);
      Seqs.AppendAssoc(start, FoldLines(rs[..i], ls[..i]), ls[i]);
    }
    sessions', totalTrades', totalReturn', bestId', bestReturn' :=
      Record(sessions, totalTrades, totalReturn, bestId, bestReturn, ids, vs, ss, i, spec.sessionId, rs[i].value, one.value.0, one.value.1);
  }

  /** The rest of a turn once a session has run: its result goes into session_results under its id and
      its summary into the totals. */
  method Record(sessions: map<string, Backtester.BacktestResult>, totalTrades: real, totalReturn: real,
                bestId: Option<string>, bestReturn: Option<real>, ghost ids: seq<string>, ghost vs: seq<Backtester.RunValue>,
                ghost ss: seq<map<string, real>>, ghost i: nat,
                id: string, ghost v: Backtester.RunValue, result: Backtester.BacktestResult, summary: map<string, real>)
    returns (sessions': map<string, Backtester.BacktestResult>, totalTrades': real, totalReturn': real,
             bestId': Option<string>, bestReturn': Option<real>)
    requires i == |vs| == |ss| < |ids| && id == ids[i]
    requires Stores(sessions, Collect(ids[..i], vs), Collect(ids[..i], ss)) && Stored(result, v, summary)
    requires Totals(totalTrades, totalReturn, bestId, bestReturn) == Tally(ids[..i], ss)
    ensures Stores(sessions', Collect(ids[..i + 1], vs + [v]), Collect(ids[..i + 1], ss + [summary]))
    ensures Totals(totalTrades', totalReturn', bestId', bestReturn') == Tally(ids[..i + 1], ss + [summary])
    ensures sessions' == sessions[id := result]
  {
    StoresUpdate(sessions, Collect(ids[..i], vs), Collect(ids[..i], ss), ids[i], result, v, summary);
    CollectTurn(ids, vs, i, v);
    CollectTurn(ids, ss, i, summary);
    sessions' := sessions[id := result];
    totalTrades', totalReturn', bestId', bestReturn' := AddSession(totalTrades, totalReturn, bestId, bestReturn, id, summary);
    TallyTurn(ids, ss, i, summary);
  }

  /** One turn of the loop up to summarize: the strategy, the backtest (which appends its audit line) and
      the summary, or the exception. */
  method RunOne(cfg: Backtester.Config, specs: seq<SessionSpec>, i: nat, factory: Factory, key: Option<string>, audit: AuditLog.AuditFile?, env: AuditLog.Env,
                ghost rs: seq<Result<Backtester.RunValue, string>>)
    returns (r: Result<(Backtester.BacktestResult, map<string, real>), string>)
    requires cfg.initialCapital > 0.0 && i < |specs| && Ran(cfg, specs, factory, rs)
    modifies audit
    ensures rs[i].Success? <==> r.Success?
    ensures r.Failure? ==> r.error == rs[i].error
    ensures r.Success? ==>
      && fresh(r.value.0) && Stored(r.value.0, rs[i].value, r.value.1)
      && r.value.1 == Backtester.Summary(rs[i].value.metrics, rs[i].value.trades, rs[i].value.curve)
    ensures audit != null ==>
      audit.lines == old(audit.lines) + (if r.Success? then RunLines(specs[i].sessionId, rs[i].value, key, env) else [])
  {
    assert rs[i] == RunOf(cfg, specs[i], factory);
    var spec := specs[i];
    var strategy := StrategyFor(spec, factory);
    if strategy.Failure? {
      return Failure(strategy.error);
    }
    var run := Backtester.Run(cfg, spec.prices, strategy.value, Some(spec.sessionId), key, audit, env);
    if run.Failure? {
      return Failure(run.error);
    }
    RunSummary(cfg, spec.prices, strategy.value);
    var result := run.value;
    var summary := result.Summarize();
    r := Success((result, summary));
  }

  /** Every run that completes carries a net return, and its summary counts its trades; so a report built
      from the runs meets what ReportMeaning asks of the summaries. */
  lemma RunsSummaries(cfg: Backtester.Config, specs: seq<SessionSpec>, factory: Factory)
    requires cfg.initialCapital > 0.0 && FoldRuns(Results(cfg, specs, factory)).Success?
    ensures var vs := FoldRuns(Results(cfg, specs, factory)).value;
      forall i :: 0 <= i < |vs| ==>
        && "net_return" in vs[i].metrics
        && NetReturn(Summaries(vs)[i]) == Some(vs[i].metrics["net_return"])
        && Lookup(Summaries(vs)[i], "total_trades", 0.0) == |vs[i].trades| as real
  {
    var rs := Results(cfg, specs, factory);
    var vs := FoldRuns(rs).value;
    FoldMeaning(rs);
    forall i | 0 <= i < |vs|
      ensures "net_return" in vs[i].metrics
      ensures NetReturn(Summaries(vs)[i]) == Some(vs[i].metrics["net_return"])
      ensures Lookup(Summaries(vs)[i], "total_trades", 0.0) == |vs[i].trades| as real
    {
      ResultsAt(cfg, specs, factory, i);
      assert rs[i].Success? && vs[i] == rs[i].value;
      var strategy := StrategyFor(specs[i], factory);
      assert strategy.Success?;
      RunSummary(cfg, specs[i].prices, strategy.value);
      SummariesAt(vs, i);
    }
  }

  /** The number of trades the runs closed, summed over the sessions (repeated ids included). */
  function TradeCount(vs: seq<Backtester.RunValue>): nat {
    if vs == [] then 0 else TradeCount(vs[..|vs| - 1]) + |vs[|vs| - 1].trades|
  }

  /** When each summary's total_trades is its run's number of trades, their sum is TradeCount. */
  lemma {:induction false} CountColumn(vs: seq<Backtester.RunValue>, sums: seq<map<string, real>>)
    requires |sums| == |vs|
    requires forall i :: 0 <= i < |vs| ==> Lookup(sums[i], "total_trades", 0.0) == |vs[i].trades| as real
    ensures Numeric.Sum(Column(sums, "total_trades")) == TradeCount(vs) as real
  {
    if vs != [] {
      var n := |vs| - 1;
      CountColumn(vs[..n], sums[..n]);
      ColumnSnoc(sums, "total_trades");
      Numeric.SumAppend(Column(sums[..n], "total_trades"), Lookup(sums[n], "total_trades", 0.0));
    }
  }

  /** The multi_session_backtest entry's total_trades is the int number of trades every session closed,
      as Python's sum of the summaries' counts gives it. */
  lemma TotalTradesCounted(sim: BacktestSimulator, specs: seq<SessionSpec>, factory: Factory, summaryName: string)
    requires sim.backtester.initialCapital > 0.0 && specs != []
    requires FoldRuns(Results(sim.backtester, specs, factory)).Success?
    ensures var vs := FoldRuns(Results(sim.backtester, specs, factory)).value;
      && |vs| == |specs|
      && AggregateJson(ReportOf(sim, Ids(specs), vs, Summaries(vs), summaryName).aggregate)["total_trades"]
         == JInt(TradeCount(vs))
  {
    var rs := Results(sim.backtester, specs, factory);
    var vs := FoldRuns(rs).value;
    FoldMeaning(rs);
    RunsSummaries(sim.backtester, specs, factory);
    var k := ReportMeaning(sim, Ids(specs), vs, Summaries(vs), summaryName);
    CountColumn(vs, Summaries(vs));
  }

  /** The exception run_sessions raises as written: Backtester.run declares no `datastore`, `metadata` or
      `hmac_key` parameter, so the call in the loop raises a TypeError for the first session that has a
      strategy, before any bar is run or any entry appended. */
  const RunKeywordError := "TypeError: Backtester.run() got an unexpected keyword argument 'datastore'"

  /** run_sessions as written: it never returns a report. */
  function OutcomeAsWritten(specs: seq<SessionSpec>, factory: Factory): (r: Result<Report, string>)
    ensures r.Failure?
    ensures specs == [] ==> r.error == NoSessions
    ensures specs != [] ==> r.error == (if StrategyFor(specs[0], factory).Success? then RunKeywordError
                                       else "No strategy provided for session " + specs[0].sessionId)
  {
    if specs == [] then Failure(NoSessions)
    else
      match StrategyFor(specs[0], factory)
      case Failure(e) => Failure(e)
      case Success(_) => Failure(RunKeywordError)
  }

  /** One session over no bars with a strategy that stays flat, and no audit log: the intended run_sessions
      reports it, the code as written raises. */
  lemma KeywordsRaise(sim: BacktestSimulator, env: AuditLog.Env)
    requires sim.backtester.initialCapital > 0.0
    ensures var specs := [SessionSpec("s", [], Some((b: Backtester.Bar) => Success(0)))];
      && OutcomeAsWritten(specs, None) == Failure(RunKeywordError)
      && Outcome(sim, specs, None, "multisession_latest", None, env).result.Success?
  {
    var specs := [SessionSpec("s", [], Some((b: Backtester.Bar) => Success(0)))];
    var rs := Results(sim.backtester, specs, None);
    ResultsAt(sim.backtester, specs, None, 0);
    assert Backtester.Walk(sim.backtester, [], specs[0].strategy.value).Success?;
    assert rs[0].Success?;
    FoldMeaning(rs);
  }

  // ---------------------------------------------------------------------------------------------
  // The keyed configuration

  /** The entry append_signed_audit writes for a payload, as a JSON value (null when enrichment fails). */
  function SignedJson(payload: AuditLog.Entry, sessionId: Option<string>, key: Option<string>, env: AuditLog.Env): Json {
    match AuditLog.SignedEntry(payload, sessionId, key, env)
    case Success(e) => JObj(e)
    case Failure(_) => JNull
  }

  /** The line append_signed_audit writes for a payload is read back whole by _read_audit_entries: the
      entry is written, its numbers are doubles and its dump holds no line boundary. */
  ghost predicate ReadsBack(payload: AuditLog.Entry, sessionId: Option<string>, key: Option<string>, env: AuditLog.Env) {
    && AuditLog.SignedEntry(payload, sessionId, key, env).Success?
    && Representable(SignedJson(payload, sessionId, key, env))
    && Text.NoBreak(Text.AllBoundaries, env.codec.dump(SignedJson(payload, sessionId, key, env)))
  }

  /** A dumped entry, read back as a line, is that entry. */
  lemma ParsedDumped(e: AuditLog.Entry, codec: Codec)
    requires Faithful(codec) && HmacUtils.DumpsOneLine(codec) && Representable(JObj(e))
    ensures ParsedLine(codec.dump(JObj(e)), codec) == [JObj(e)]
  {
    var d := codec.dump(JObj(e));
    assert d != [] && d[0] == '{' && d[|d| - 1] == '}';
    Text.StripFixed(d);
    assert codec.parse(d) == Success(JObj(e));
  }

  lemma {:induction false} ParsedEach(lines: seq<string>, es: seq<Json>, codec: Codec)
    requires |lines| == |es|
    requires forall i :: 0 <= i < |lines| ==> ParsedLine(lines[i], codec) == [es[i]]
    ensures Parsed(lines, codec) == es
  {
    if lines != [] {
      var n := |lines| - 1;
      ParsedEach(lines[..n], es[..n], codec);
      Seqs.TakeOneMore(es, n);
      Seqs.TakeAll(es);
    }
  }

  /** A line of the log that _read_audit_entries reads back as `obj`, an entry that verifies under `key`. */
  ghost predicate LineReads(line: string, obj: Json, key: string, env: AuditLog.Env) {
    && Text.NoBreak(Text.AllBoundaries, line)
    && ParsedLine(line, env.codec) == [obj]
    && HmacUtils.CheckEntry(obj, key, env.signer).Verified?
  }

  /** Lines that read back, one by one, as these entries. */
  ghost predicate ReadsAs(lines: seq<string>, objs: seq<Json>, key: string, env: AuditLog.Env) {
    |lines| == |objs| && forall j :: 0 <= j < |lines| ==> LineReads(lines[j], objs[j], key, env)
  }

  lemma ReadsAsSnoc(lines: seq<string>, objs: seq<Json>, line: string, obj: Json, key: string, env: AuditLog.Env)
    requires ReadsAs(lines, objs, key, env) && LineReads(line, obj, key, env)
    ensures ReadsAs(lines + [line], objs + [obj], key, env)
  {
  }

  /** When every session runs and appends one line that reads back, the loop's lines read back in order. */
  lemma {:induction false} FoldLinesRead(rs: seq<Result<Backtester.RunValue, string>>, ls: seq<seq<string>>, objs: seq<Json>,
                                         key: string, env: AuditLog.Env)
    requires |rs| == |ls| == |objs|
    requires forall i :: 0 <= i < |rs| ==> rs[i].Success? && |ls[i]| == 1 && LineReads(ls[i][0], objs[i], key, env)
    ensures ReadsAs(FoldLines(rs, ls), objs, key, env)
  {
    if rs != [] {
      var n := |rs| - 1;
      FoldLinesRead(rs[..n], ls[..n], objs[..n], key, env);
      FoldMeaning(rs[..n]);
      assert FoldRuns(rs[..n]).Success? && rs[n].Success?;
      assert FoldLines(rs, ls) == FoldLines(rs[..n], ls[..n]) + ls[n];
      assert ls[n] == [ls[n][0]];
      ReadsAsSnoc(FoldLines(rs[..n], ls[..n]), objs[..n], ls[n][0], objs[n], key, env);
      Seqs.TakeOneMore(objs, n);
      Seqs.TakeAll(objs);
    }
  }

  /** Lines appended to a log whose earlier lines hold no line boundary, each reading back as an entry that
      verifies, pass the re-verification. */
  lemma AppendedVerifies(before: seq<string>, appended: seq<string>, objs: seq<Json>, key: string, env: AuditLog.Env)
    requires forall i :: 0 <= i < |before| ==> Text.NoBreak(Text.AllBoundaries, before[i])
    requires ReadsAs(appended, objs, key, env)
    ensures VerifyNew(NewEntries(ReadEntries(before, env.codec), ReadEntries(before + appended, env.codec)), key, env.signer, env.codec).None?
  {
    assert forall j :: 0 <= j < |appended| ==> LineReads(appended[j], objs[j], key, env);
    NewEntriesAreAppended(before, appended, env.codec);
    ParsedEach(appended, objs, env.codec);
    HmacUtils.StreamAllVerified(objs, key, env.signer);
  }

  /** A line append_signed_audit writes under a key is read back as the entry it signed, which verifies
      under that key. */
  lemma ReadBackVerifies(payload: AuditLog.Entry, sessionId: Option<string>, key: Option<string>, env: AuditLog.Env)
    requires AuditLog.Given(key) && "hmac" !in payload && ReadsBack(payload, sessionId, key, env)
    requires Faithful(env.codec) && HmacUtils.DumpsOneLine(env.codec) && HmacUtils.HexDigests(env.signer)
    ensures var o := SignedJson(payload, sessionId, key, env);
      && AuditLog.Written(payload, sessionId, key, env) == [env.codec.dump(o)]
      && LineReads(env.codec.dump(o), o, key.value, env)
  {
    ParsedDumped(AuditLog.SignedEntry(payload, sessionId, key, env).value, env.codec);
    HmacUtils.SignedEntryVerifies(payload, sessionId, key, env);
  }

  /** The backtester's line for a session, written under a key, reads back as the entry it signed. */
  lemma SessionLineReads(id: string, v: Backtester.RunValue, key: Option<string>, env: AuditLog.Env)
    requires AuditLog.Given(key) && ReadsBack(SessionEntry(id, v), None, key, env)
    requires Faithful(env.codec) && HmacUtils.DumpsOneLine(env.codec) && HmacUtils.HexDigests(env.signer)
    ensures var o := SignedJson(SessionEntry(id, v), None, key, env);
      RunLines(id, v, key, env) == [env.codec.dump(o)] && LineReads(env.codec.dump(o), o, key.value, env)
  {
    assert "hmac" !in SessionEntry(id, v);
    ReadBackVerifies(SessionEntry(id, v), None, key, env);
  }

  /** The end of run_sessions with a key: when the loop's lines read back as entries signed with the key
      and the simulator's own line reads back too, the re-verification passes and the report is returned. */
  lemma FinishVerifies(sim: BacktestSimulator, report: Report, before: seq<string>, lines: seq<string>, env: AuditLog.Env,
                       objs: seq<Json>)
    requires AuditLog.Given(sim.hmacKey) && HmacUtils.DumpsOneLine(env.codec) && Faithful(env.codec) && HmacUtils.HexDigests(env.signer)
    requires forall i :: 0 <= i < |before| ==> Text.NoBreak(Text.AllBoundaries, before[i])
    requires ReadsBack(SimEntry(report.aggregate, report.summaryPath), Some(MultiSession), sim.hmacKey, env)
    requires ReadsAs(lines, objs, sim.hmacKey.value, env)
    ensures Finish(sim, report, before, lines, env).result == Success(report)
  {
    var payload := SimEntry(report.aggregate, report.summaryPath);
    var key := sim.hmacKey;
    ReadBackVerifies(payload, Some(MultiSession), key, env);
    var o := SignedJson(payload, Some(MultiSession), key, env);
    ReadsAsSnoc(lines, objs, env.codec.dump(o), o, key.value, env);
    AppendedVerifies(before, lines + [env.codec.dump(o)], objs + [o], key.value, env);
  }

  /** The keyed end of run_sessions once every session has run: the report is returned. */
  lemma AfterRunsVerifies(sim: BacktestSimulator, ids: seq<string>, rs: seq<Result<Backtester.RunValue, string>>,
                          summaryName: string, before: seq<string>, env: AuditLog.Env)
    requires |rs| == |ids| && AuditLog.Given(sim.hmacKey)
    requires Faithful(env.codec) && HmacUtils.DumpsOneLine(env.codec) && HmacUtils.HexDigests(env.signer)
    requires forall i :: 0 <= i < |before| ==> Text.NoBreak(Text.AllBoundaries, before[i])
    requires forall i :: 0 <= i < |rs| ==> rs[i].Success? && ReadsBack(SessionEntry(ids[i], rs[i].value), None, sim.hmacKey, env)
    requires FoldRuns(rs).Success?
    requires var vs := FoldRuns(rs).value;
      var report := ReportOf(sim, ids, vs, Summaries(vs), summaryName);
      ReadsBack(SimEntry(report.aggregate, report.summaryPath), Some(MultiSession), sim.hmacKey, env)
    ensures var vs := FoldRuns(rs).value;
      AfterRuns(sim, ids, rs, summaryName, Some(before), env).result == Success(ReportOf(sim, ids, vs, Summaries(vs), summaryName))
  {
    var vs := FoldRuns(rs).value;
    var report := ReportOf(sim, ids, vs, Summaries(vs), summaryName);
    var objs := SessionsRead(rs, ids, sim.hmacKey, env);
    FinishVerifies(sim, report, before, FoldLines(rs, SessionLines(rs, ids, sim.hmacKey, env)), env, objs);
  }

  /** The loop's lines, when every session runs and each line reads back, read back as the entries the
      backtester signed. */
  lemma SessionsRead(rs: seq<Result<Backtester.RunValue, string>>, ids: seq<string>, key: Option<string>, env: AuditLog.Env)
    returns (objs: seq<Json>)
    requires |rs| == |ids| && AuditLog.Given(key)
    requires Faithful(env.codec) && HmacUtils.DumpsOneLine(env.codec) && HmacUtils.HexDigests(env.signer)
    requires forall i :: 0 <= i < |rs| ==> rs[i].Success? && ReadsBack(SessionEntry(ids[i], rs[i].value), None, key, env)
    ensures ReadsAs(FoldLines(rs, SessionLines(rs, ids, key, env)), objs, key.value, env)
  {
    var ls := SessionLines(rs, ids, key, env);
    objs := seq(|rs|, i requires 0 <= i < |rs| => SignedJson(SessionEntry(ids[i], rs[i].value), None, key, env));
    forall i | 0 <= i < |rs|
      ensures rs[i].Success? && |ls[i]| == 1 && LineReads(ls[i][0], objs[i], key.value, env)
    {
      SessionLineReads(ids[i], rs[i].value, key, env);
      assert ls[i] == RunLines(ids[i], rs[i].value, key, env);
    }
    FoldLinesRead(rs, ls, objs, key.value, env);
  }

  /** With an audit log and a key that the backtester is given too, run_sessions returns its report
      whenever every session runs: every entry appended during the call is signed with that key, so the
      re-verification finds no failure. This holds when the log's earlier lines and the new lines hold no
      line boundary and the logged numbers are doubles. */
  lemma KeyedRunVerifies(sim: BacktestSimulator, specs: seq<SessionSpec>, factory: Factory, summaryName: string,
                         before: seq<string>, env: AuditLog.Env)
    requires sim.backtester.initialCapital > 0.0 && AuditLog.Given(sim.hmacKey) && specs != []
    requires Faithful(env.codec) && HmacUtils.DumpsOneLine(env.codec) && HmacUtils.HexDigests(env.signer)
    requires forall i :: 0 <= i < |before| ==> Text.NoBreak(Text.AllBoundaries, before[i])
    requires FoldRuns(Results(sim.backtester, specs, factory)).Success?
    requires var vs := FoldRuns(Results(sim.backtester, specs, factory)).value;
      forall i :: 0 <= i < |vs| ==> ReadsBack(SessionEntry(specs[i].sessionId, vs[i]), None, sim.hmacKey, env)
    requires var vs := FoldRuns(Results(sim.backtester, specs, factory)).value;
      var report := ReportOf(sim, Ids(specs), vs, Summaries(vs), summaryName);
      ReadsBack(SimEntry(report.aggregate, report.summaryPath), Some(MultiSession), sim.hmacKey, env)
    ensures var vs := FoldRuns(Results(sim.backtester, specs, factory)).value;
      Outcome(sim, specs, factory, summaryName, Some(before), env).result
        == Success(ReportOf(sim, Ids(specs), vs, Summaries(vs), summaryName))
  {
    var rs := Results(sim.backtester, specs, factory);
    var ids := Ids(specs);
    FoldMeaning(rs);
    forall i | 0 <= i < |rs|
      ensures rs[i].Success? && ReadsBack(SessionEntry(ids[i], rs[i].value), None, sim.hmacKey, env)
    {
      assert rs[i].value == FoldRuns(rs).value[i];
    }
    AfterRunsVerifies(sim, ids, rs, summaryName, before, env);
  }
}

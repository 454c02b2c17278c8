/** The continuous reinforcement agent: a replay buffer of the most recent experiences that survives
    between runs, replayed through an OptimizerRL at the end of each episode. */
module RLContinuous {
  import opened Wrappers
  import opened Json
  import Seqs
  import AuditLog
  import Files
  import Optimizer
  import RLAdaptive

  const BadInputSize: string := "input_size must be positive"
  const DefaultBatch: int := 32

  /** One remembered step: the features seen and the reward earned. */
  datatype Experience = Experience(state: seq<real>, reward: real)

  /** Experience.to_dict. */
  function ExperienceJson(e: Experience): (r: Json)
    ensures r.JObj? && r.o.Keys == {"state", "reward"}
    ensures r.o["state"] == JArr(Reals(e.state)) && r.o["reward"] == JNum(e.reward)
  {
    JObj(map["state" := JArr(Reals(e.state)), "reward" := JNum(e.reward)])
  }

  /** replay_snapshot: one dict per experience, oldest first. */
  function ReplayJson(buffer: seq<Experience>): (r: seq<Json>)
    ensures |r| == |buffer| && forall i :: 0 <= i < |buffer| ==> r[i] == ExperienceJson(buffer[i])
  {
    if buffer == [] then [] else [ExperienceJson(buffer[0])] + ReplayJson(buffer[1..])
  }

  /** Python's `s[-n:]`: the last n items for a positive n, everything for 0 (since -0 is 0), and
      everything but the first -n items for a negative n. */
  function FromEnd<T>(s: seq<T>, n: int): (r: seq<T>)
    ensures |r| <= |s| && r == s[|s| - |r|..]
    ensures n > 0 ==> |r| == if n < |s| then n else |s|
    ensures n == 0 ==> r == s
    ensures n < 0 ==> |r| == if -n < |s| then |s| + n else 0
  {
    if n > 0 then Seqs.Last(s, n)
    else if n == 0 then s
    else if -n < |s| then s[-n..]
    else []
  }

  /** _truncate_buffer: cut to `buffer[-max_buffer:]` only when the buffer is longer than max_buffer. */
  function Truncated(buffer: seq<Experience>, maxBuffer: int): seq<Experience> {
    if |buffer| > maxBuffer then FromEnd(buffer, maxBuffer) else buffer
  }

  /** What truncation keeps: a chronological suffix of the buffer, at most max_buffer long when
      max_buffer is positive, all of it when it already fits or max_buffer is 0. */
  lemma TruncatedSuffix(buffer: seq<Experience>, maxBuffer: int)
    ensures var t := Truncated(buffer, maxBuffer);
      && |t| <= |buffer| && t == buffer[|buffer| - |t|..]
      && (maxBuffer >= 1 ==> |t| == if |buffer| <= maxBuffer then |buffer| else maxBuffer)
      && ((0 <= maxBuffer && |buffer| <= maxBuffer) || maxBuffer == 0 ==> t == buffer)
  {
  }

  /** With a positive limit the newest experience always survives. */
  lemma NewestKept(buffer: seq<Experience>, e: Experience, maxBuffer: int)
    requires maxBuffer >= 1
    ensures var t := Truncated(buffer + [e], maxBuffer);
      t != [] && t[|t| - 1] == e
  {
    var s := buffer + [e];
    var t := Truncated(s, maxBuffer);
    assert t == s[|s| - |t|..];
    assert t[|t| - 1] == s[|s| - 1];
  }

  /** `float(trade.get(...))` of the three trade figures gives [entry, exit - entry, pnl] (exit
      defaulting to entry, the others to 0). */
  function TradeFeatures(trade: map<string, real>): (r: seq<real>)
    ensures |r| == 3
  {
    RLAdaptive.TradeFeatures(trade)
  }

  /** JSON numbers as Python floats; anything else is refused. */
  function Number(v: Json): (r: Option<real>)
    ensures v.JNum? ==> r == Some(v.r)
    ensures !(v.JNum? || v.JInt?) ==> r.None?
  {
    match v
    case JNum(x) => Some(x)
    case JInt(i) => Some(i as real)
    case _ => None
  }

  /** One item of the replay file: a dict whose "state" goes through list() and whose "reward" goes
      through float(); a missing key raises. */
  function ExperienceOf(item: Json, codec: Codec): (r: Option<Experience>)
    ensures r.Some? ==> item.JObj? && "state" in item.o && "reward" in item.o
  {
    if !item.JObj? || "state" !in item.o || "reward" !in item.o then None
    else
      var elems := RLAdaptive.ListOf(item.o["state"]);
      var state := if elems.Some? then FloatList(elems.value, codec) else None;
      var reward := ToFloat(item.o["reward"], codec);
      if state.Some? && reward.Some? then Some(Experience(state.value, reward.value)) else None
  }

  /** The comprehension over the replay file's items: every item converts, or none is kept. */
  function Experiences(items: seq<Json>, codec: Codec): (r: Option<seq<Experience>>)
    ensures r.Some? ==> |r.value| == |items|
    ensures r.Some? ==> forall i :: 0 <= i < |items| ==> ExperienceOf(items[i], codec) == Some(r.value[i])
  {
    if items == [] then Some([])
    else
      var h := ExperienceOf(items[0], codec);
      var t := Experiences(items[1..], codec);
      if h.None? || t.None? then None
      else
        var r := [h.value] + t.value;
        assert forall i :: 1 <= i < |items| ==> items[i] == items[1..][i - 1] && r[i] == t.value[i - 1];
        Some(r)
  }

  /** The replay buffer _load_state leaves (before truncation): the current one when there is no
      replay file, the file's experiences when it parses and every item converts, otherwise empty. */
  function LoadedReplay(content: Option<string>, current: seq<Experience>, codec: Codec): (r: seq<Experience>)
    ensures content.None? ==> r == current
  {
    if content.None? then current
    else
      var parsed := codec.parse(content.value);
      if parsed.Failure? then []
      else
        var items := RLAdaptive.Items(parsed.value);
        if items.None? then []
        else
          var loaded := Experiences(items.value, codec);
          if loaded.Some? then loaded.value else []
  }

  /** The epsilon and weights a parsed state file gives, each defaulting to the current value;
      None when the file is not a dict or a value is not numeric. */
  function StateFields(data: Json, epsilon: real, weights: seq<real>, codec: Codec): (r: Option<(real, seq<real>)>)
    ensures r.Some? ==> data.JObj?
    ensures data.JObj? && "epsilon" !in data.o && "weights" !in data.o ==> r == Some((epsilon, weights))
  {
    FloatListOfReals(weights, codec);
    if !data.JObj? then None
    else
      var e := if "epsilon" in data.o then Number(data.o["epsilon"]) else Some(epsilon);
      var elems := if "weights" in data.o then RLAdaptive.ListOf(data.o["weights"]) else Some(Reals(weights));
      var w := if elems.Some? then FloatList(elems.value, codec) else None;
      if e.None? || w.None? then None else Some((e.value, w.value))
  }

  /** The epsilon and weights _load_state restores from the state file, if any. */
  function LoadedState(content: Option<string>, epsilon: real, weights: seq<real>, codec: Codec): (r: Option<(real, seq<real>)>)
    ensures content.None? ==> r.None?
  {
    if content.None? then None
    else
      var parsed := codec.parse(content.value);
      if parsed.Failure? then None else StateFields(parsed.value, epsilon, weights, codec)
  }

  /** The payload save_state writes to the state file. */
  function StateJson(epsilon: real, weights: seq<real>): Json {
    JObj(map["epsilon" := JNum(epsilon), "weights" := JArr(Reals(weights))])
  }

  lemma ExperienceRoundTrip(e: Experience, codec: Codec)
    ensures ExperienceOf(ExperienceJson(e), codec) == Some(e)
  {
    var o := ExperienceJson(e).o;
    assert RLAdaptive.ListOf(o["state"]) == Some(Reals(e.state));
    FloatListOfReals(e.state, codec);
  }

  lemma {:induction false} ExperiencesRoundTrip(buffer: seq<Experience>, codec: Codec)
    ensures Experiences(ReplayJson(buffer), codec) == Some(buffer)
  {
    if buffer != [] {
      var items := ReplayJson(buffer);
      assert items[0] == ExperienceJson(buffer[0]) && items[1..] == ReplayJson(buffer[1..]);
      ExperiencesRoundTrip(buffer[1..], codec);
      ExperienceRoundTrip(buffer[0], codec);
      assert Experiences(items, codec) == Some([buffer[0]] + buffer[1..]);
      assert [buffer[0]] + buffer[1..] == buffer;
    }
  }

  /** Every number of the experience is a double, as Python floats are. */
  ghost predicate Doubles(e: Experience) {
    IsDouble(e.reward) && forall j :: 0 <= j < |e.state| ==> IsDouble(e.state[j])
  }

  lemma ReplayRepresentable(buffer: seq<Experience>)
    requires forall i :: 0 <= i < |buffer| ==> Doubles(buffer[i])
    ensures Representable(JArr(ReplayJson(buffer)))
  {
    var js := ReplayJson(buffer);
    forall i | 0 <= i < |js|
      ensures Representable(js[i])
    {
      var e := buffer[i];
      RealsRepresentable(e.state);
      ExperienceRepresentable(e);
    }
  }

  lemma ExperienceRepresentable(e: Experience)
    requires Doubles(e) && Representable(JArr(Reals(e.state)))
    ensures Representable(ExperienceJson(e))
  {
    var o := ExperienceJson(e).o;
    assert forall k :: k in o ==> k == "state" || k == "reward";
  }

  /** save_state followed by _load_state, with a JSON codec that reads back what it writes, restores
      epsilon, the weights and the replay buffer whatever the agent held before, their numbers being
      doubles. */
  lemma SaveLoadRoundTrip(epsilon: real, weights: seq<real>, buffer: seq<Experience>,
                          epsilon0: real, weights0: seq<real>, buffer0: seq<Experience>, codec: Codec)
    requires Faithful(codec) && IsDouble(epsilon) && (forall i :: 0 <= i < |weights| ==> IsDouble(weights[i]))
    requires forall i :: 0 <= i < |buffer| ==> Doubles(buffer[i])
    ensures LoadedState(Some(codec.dumpIndented(StateJson(epsilon, weights))), epsilon0, weights0, codec) == Some((epsilon, weights))
    ensures LoadedReplay(Some(codec.dumpIndented(JArr(ReplayJson(buffer)))), buffer0, codec) == buffer
  {
    StateRoundTrip(epsilon, weights, epsilon0, weights0, codec);
    ReplayRoundTrip(buffer, buffer0, codec);
  }

  lemma StateRoundTrip(epsilon: real, weights: seq<real>, epsilon0: real, weights0: seq<real>, codec: Codec)
    requires Faithful(codec) && IsDouble(epsilon) && (forall i :: 0 <= i < |weights| ==> IsDouble(weights[i]))
    ensures LoadedState(Some(codec.dumpIndented(StateJson(epsilon, weights))), epsilon0, weights0, codec) == Some((epsilon, weights))
  {
    RealsRepresentable(weights);
    var o := StateJson(epsilon, weights).o;
    assert forall k :: k in o ==> k == "epsilon" || k == "weights";
    assert Representable(StateJson(epsilon, weights));
    assert codec.parse(codec.dumpIndented(StateJson(epsilon, weights))) == Success(StateJson(epsilon, weights));
    assert Number(o["epsilon"]) == Some(epsilon);
    assert RLAdaptive.ListOf(o["weights"]) == Some(Reals(weights));
    FloatListOfReals(weights, codec);
  }

  lemma ReplayRoundTrip(buffer: seq<Experience>, buffer0: seq<Experience>, codec: Codec)
    requires Faithful(codec) && forall i :: 0 <= i < |buffer| ==> Doubles(buffer[i])
    ensures LoadedReplay(Some(codec.dumpIndented(JArr(ReplayJson(buffer)))), buffer0, codec) == buffer
  {
    ReplayParses(buffer, codec);
    LoadedList(codec.dumpIndented(JArr(ReplayJson(buffer))), ReplayJson(buffer), buffer0, codec);
    ExperiencesRoundTrip(buffer, codec);
  }

  /** A replay file that parses to a list loads as that list's experiences, or as nothing. */
  lemma LoadedList(text: string, items: seq<Json>, buffer0: seq<Experience>, codec: Codec)
    requires codec.parse(text) == Success(JArr(items))
    ensures LoadedReplay(Some(text), buffer0, codec)
            == if Experiences(items, codec).Some? then Experiences(items, codec).value else []
  {
  }

  /** The replay file's text parses back to the snapshot. */
  lemma ReplayParses(buffer: seq<Experience>, codec: Codec)
    requires Faithful(codec) && forall i :: 0 <= i < |buffer| ==> Doubles(buffer[i])
    ensures codec.parse(codec.dumpIndented(JArr(ReplayJson(buffer)))) == Success(JArr(ReplayJson(buffer)))
  {
    ReplayRepresentable(buffer);
  }

  /** A state file that does not parse leaves epsilon and the weights alone, and a replay file that
      does not parse empties the buffer. */
  lemma CorruptFiles(text: string, epsilon: real, weights: seq<real>, buffer: seq<Experience>, codec: Codec)
    requires codec.parse(text).Failure?
    ensures LoadedState(Some(text), epsilon, weights, codec).None?
    ensures LoadedReplay(Some(text), buffer, codec) == []
  {
  }

  /** The weights after train_step over a batch in order, oldest first, from the given weights. */
  function Replayed(weights: seq<real>, rate: real, batch: seq<Experience>): seq<real>
    decreases |batch|
  {
    if batch == [] then weights
    else
      var before := Replayed(weights, rate, batch[..|batch| - 1]);
      var e := batch[|batch| - 1];
      Optimizer.Shifted(before, e.state, Optimizer.Step(rate, e.reward, Optimizer.Dot(before, e.state)))
  }

  /** Epsilon after n decays. */
  function DecayedTimes(epsilon: real, n: nat): real {
    if n == 0 then epsilon else Optimizer.Decayed(DecayedTimes(epsilon, n - 1))
  }

  /** Training on one batch and then another gives the same weights as training on both at once. */
  lemma {:induction false} ReplayedAppend(weights: seq<real>, rate: real, a: seq<Experience>, b: seq<Experience>)
    ensures Replayed(weights, rate, a + b) == Replayed(Replayed(weights, rate, a), rate, b)
    decreases |b|
  {
    if b != [] {
      Seqs.DropLastOfAppend(a, b);
      ReplayedAppend(weights, rate, a, b[..|b| - 1]);
    } else {
      assert a + b == a;
    }
  }

  /** The weights never grow longer than they were (zip stops at the shorter side). */
  lemma {:induction false} ReplayedLength(weights: seq<real>, rate: real, batch: seq<Experience>)
    ensures |Replayed(weights, rate, batch)| <= |weights|
    decreases |batch|
  {
    if batch != [] {
      ReplayedLength(weights, rate, batch[..|batch| - 1]);
    }
  }

  /** After at least one step epsilon is at its floor or above, and it never rises above where it
      started (or the floor). */
  lemma {:induction false} DecayedTimesBounds(epsilon: real, n: nat)
    ensures n >= 1 ==> DecayedTimes(epsilon, n) >= Optimizer.EpsilonFloor
    ensures DecayedTimes(epsilon, n) <= if epsilon >= Optimizer.EpsilonFloor then epsilon else Optimizer.EpsilonFloor
  {
    if n > 0 {
      DecayedTimesBounds(epsilon, n - 1);
      var e := DecayedTimes(epsilon, n - 1);
      if e > 0.0 {
        assert e * Optimizer.EpsilonDecay <= e;
      }
    }
  }

  /** The result of train: the update count, and the new epsilon unless the buffer was empty. */
  datatype Report = Report(updates: nat, epsilon: Option<real>)

  function ReportJson(r: Report): (j: Json)
    ensures j.JObj? && "updates" in j.o && j.o["updates"] == JInt(r.updates)
    ensures "epsilon" in j.o <==> r.epsilon.Some?
  {
    if r.epsilon.None? then JObj(map["updates" := JInt(r.updates)])
    else JObj(map["updates" := JInt(r.updates), "epsilon" := JNum(r.epsilon.value)])
  }

  function InitEntry(sessionId: Option<string>, bufferSize: nat, epsilon: real): AuditLog.Entry {
    map["module" := JStr("qai.rl"), "event" := JStr("continuous_init"),
        "session_id" := (if sessionId.Some? then JStr(sessionId.value) else JNull),
        "buffer_size" := JInt(bufferSize), "epsilon" := JNum(epsilon)]
  }

  function UpdateEntry(sessionId: Option<string>, report: Report, bufferSize: nat): AuditLog.Entry {
    map["module" := JStr("qai.rl"), "event" := JStr("continuous_update"),
        "session_id" := (if sessionId.Some? then JStr(sessionId.value) else JNull),
        "metrics" := ReportJson(report), "buffer_size" := JInt(bufferSize)]
  }

  /** RLContinuousAgent with its RLState (`epsilon`, `weights`); the state and replay files are
      `stateFile` and `replayFile`. */
  class RLContinuousAgent {
    const maxBuffer: int
    var replayBuffer: seq<Experience>
    var epsilon: real
    var weights: seq<real>
    var optimizer: Optimizer.OptimizerRL
    const stateFile: Files.TextFile
    const replayFile: Files.TextFile
    const audit: AuditLog.AuditFile?
    const sessionId: Option<string>
    const hmacKey: Option<string>
    const env: AuditLog.Env

    /** A positive max_buffer bounds the replay buffer. */
    predicate Bounded()
      reads this
    {
      maxBuffer >= 1 ==> |replayBuffer| <= maxBuffer
    }

    constructor (maxBuffer: int, optimizer: Optimizer.OptimizerRL, stateFile: Files.TextFile, replayFile: Files.TextFile,
                 audit: AuditLog.AuditFile?, sessionId: Option<string>, hmacKey: Option<string>, env: AuditLog.Env)
      ensures this.maxBuffer == maxBuffer && this.optimizer == optimizer && replayBuffer == []
      ensures epsilon == optimizer.epsilon && weights == optimizer.weights
      ensures this.stateFile == stateFile && this.replayFile == replayFile && this.audit == audit
      ensures this.sessionId == sessionId && this.hmacKey == hmacKey && this.env == env
    {
      this.maxBuffer := maxBuffer;
      this.optimizer := optimizer;
      this.replayBuffer := [];
      this.epsilon := optimizer.epsilon;
      this.weights := optimizer.weights;
      this.stateFile := stateFile;
      this.replayFile := replayFile;
      this.audit := audit;
      this.sessionId := sessionId;
      this.hmacKey := hmacKey;
      this.env := env;
    }

    /** _truncate_buffer. */
    method Truncate()
      modifies this
      ensures replayBuffer == Truncated(old(replayBuffer), maxBuffer) && Bounded()
      ensures epsilon == old(epsilon) && weights == old(weights) && optimizer == old(optimizer)
    {
      if |replayBuffer| > maxBuffer {
        replayBuffer := FromEnd(replayBuffer, maxBuffer);
      }
    }

    /** append_experience. */
    method AppendExperience(state: seq<real>, reward: real)
      modifies this
      ensures replayBuffer == Truncated(old(replayBuffer) + [Experience(state, reward)], maxBuffer) && Bounded()
      ensures epsilon == old(epsilon) && weights == old(weights) && optimizer == old(optimizer)
    {
      replayBuffer := replayBuffer + [Experience(state, reward)];
      Truncate();
    }

    /** observe_trade: records the trade as an experience rewarded by its pnl, and trains nothing. */
    method ObserveTrade(trade: map<string, real>)
      modifies this
      ensures var f := TradeFeatures(trade);
        replayBuffer == Truncated(old(replayBuffer) + [Experience(f, f[2])], maxBuffer) && Bounded()
      ensures epsilon == old(epsilon) && weights == old(weights) && optimizer == old(optimizer)
      ensures maxBuffer >= 1 ==> replayBuffer[|replayBuffer| - 1] == Experience(TradeFeatures(trade), TradeFeatures(trade)[2])
    {
      var features := TradeFeatures(trade);
      AppendExperience(features, features[2]);
      if maxBuffer >= 1 {
        NewestKept(old(replayBuffer), Experience(features, features[2]), maxBuffer);
      }
    }

    /** train: nothing on an empty buffer; otherwise one train_step per experience of the last
        batch_size, oldest first, after which the RLState copies the optimizer's epsilon and weights.
        The replay buffer itself is left as it is. */
    method Train(batchSize: int) returns (report: Report)
      modifies this, optimizer
      ensures replayBuffer == old(replayBuffer) && optimizer == old(optimizer)
      ensures optimizer.learningRate == old(optimizer.learningRate) && optimizer.gamma == old(optimizer.gamma)
      ensures old(replayBuffer) == [] ==>
        report == Report(0, None) && epsilon == old(epsilon) && weights == old(weights)
        && optimizer.weights == old(optimizer.weights) && optimizer.epsilon == old(optimizer.epsilon)
      ensures old(replayBuffer) != [] ==>
        var batch := FromEnd(old(replayBuffer), batchSize);
        && report == Report(|batch|, Some(optimizer.epsilon))
        && optimizer.weights == Replayed(old(optimizer.weights), optimizer.learningRate, batch)
        && optimizer.epsilon == DecayedTimes(old(optimizer.epsilon), |batch|)
        && epsilon == optimizer.epsilon && weights == optimizer.weights
    {
      if replayBuffer == [] {
        return Report(0, None);
      }
      var batch := FromEnd(replayBuffer, batchSize);
      var opt := optimizer;
      var updates := 0;
      while updates < |batch|
        invariant 0 <= updates <= |batch|
        invariant optimizer == opt && replayBuffer == old(replayBuffer)
        invariant epsilon == old(epsilon) && weights == old(weights)
        invariant opt.learningRate == old(opt.learningRate) && opt.gamma == old(opt.gamma)
        invariant opt.weights == Replayed(old(opt.weights), opt.learningRate, batch[..updates])
        invariant opt.epsilon == DecayedTimes(old(opt.epsilon), updates)
      {
        var e := batch[updates];
        Seqs.TakeOneMore(batch, updates);
        var _ := opt.TrainStep(e.state, e.reward);
        updates := updates + 1;
      }
      assert batch[..updates] == batch;
      epsilon := opt.epsilon;
      weights := opt.weights;
      report := Report(updates, Some(epsilon));
    }

    /** save_state: epsilon and weights from the optimizer, the replay buffer as dicts. */
    method SaveState()
      modifies stateFile, replayFile
      ensures stateFile != replayFile ==>
        stateFile.content == Some(env.codec.dumpIndented(StateJson(optimizer.epsilon, optimizer.weights)))
      ensures replayFile.content == Some(env.codec.dumpIndented(JArr(ReplayJson(replayBuffer))))
    {
      stateFile.Write(env.codec.dumpIndented(StateJson(optimizer.epsilon, optimizer.weights)));
      replayFile.Write(env.codec.dumpIndented(JArr(ReplayJson(replayBuffer))));
    }

    /** end_episode: train on the default batch, save both files, and audit only when some update
        happened, auditing is asked for and there is an audit log. */
    method EndEpisode(auditing: bool) returns (report: Report)
      modifies this, optimizer, stateFile, replayFile, audit
      ensures optimizer == old(optimizer) && replayBuffer == old(replayBuffer)
      ensures old(replayBuffer) == [] ==> report == Report(0, None) && optimizer.weights == old(optimizer.weights)
      ensures old(replayBuffer) != [] ==>
        report.updates == |FromEnd(old(replayBuffer), DefaultBatch)|
        && optimizer.weights == Replayed(old(optimizer.weights), optimizer.learningRate, FromEnd(old(replayBuffer), DefaultBatch))
        && optimizer.epsilon == DecayedTimes(old(optimizer.epsilon), report.updates)
        && epsilon == optimizer.epsilon && weights == optimizer.weights
      ensures old(replayBuffer) == [] ==> optimizer.epsilon == old(optimizer.epsilon)
      ensures stateFile != replayFile ==>
        stateFile.content == Some(env.codec.dumpIndented(StateJson(optimizer.epsilon, optimizer.weights)))
      ensures replayFile.content == Some(env.codec.dumpIndented(JArr(ReplayJson(replayBuffer))))
      ensures audit != null ==>
        audit.lines == old(audit.lines) +
          (if auditing && report.updates > 0
           then AuditLog.Written(UpdateEntry(sessionId, report, |replayBuffer|), sessionId, hmacKey, env)
           else [])
    {
      report := Train(DefaultBatch);
      Conclude(auditing, report);
    }

    /** The end of end_episode, once training is done. */
    method Conclude(auditing: bool, report: Report)
      modifies stateFile, replayFile, audit
      ensures stateFile != replayFile ==>
        stateFile.content == Some(env.codec.dumpIndented(StateJson(optimizer.epsilon, optimizer.weights)))
      ensures replayFile.content == Some(env.codec.dumpIndented(JArr(ReplayJson(replayBuffer))))
      ensures audit != null ==>
        audit.lines == old(audit.lines) +
          (if auditing && report.updates > 0
           then AuditLog.Written(UpdateEntry(sessionId, report, |replayBuffer|), sessionId, hmacKey, env)
           else [])
    {
      SaveState();
      if auditing && audit != null && report.updates > 0 {
        var _, _ := audit.AppendSigned(UpdateEntry(sessionId, report, |replayBuffer|), sessionId, hmacKey, env);
      }
    }

    /** _load_state: a state file that parses to a dict with numeric values replaces epsilon and the
        weights, in the RLState and in the optimizer; a replay file replaces the buffer, by nothing
        when it is corrupt; the buffer is then truncated. */
    method LoadState()
      modifies this, optimizer
      ensures optimizer == old(optimizer)
      ensures var s := LoadedState(stateFile.content, old(epsilon), old(weights), env.codec);
        if s.Some? then
          && epsilon == s.value.0 && weights == s.value.1
          && optimizer.epsilon == s.value.0 && optimizer.weights == s.value.1
        else
          && epsilon == old(epsilon) && weights == old(weights)
          && optimizer.epsilon == old(optimizer.epsilon) && optimizer.weights == old(optimizer.weights)
      ensures optimizer.learningRate == old(optimizer.learningRate) && optimizer.gamma == old(optimizer.gamma)
      ensures replayBuffer == Truncated(LoadedReplay(replayFile.content, old(replayBuffer), env.codec), maxBuffer)
      ensures Bounded()
    {
      var s := LoadedState(stateFile.content, epsilon, weights, env.codec);
      if s.Some? {
        epsilon := s.value.0;
        weights := s.value.1;
        optimizer.weights := weights;
        optimizer.epsilon := epsilon;
      }
      replayBuffer := LoadedReplay(replayFile.content, replayBuffer, env.codec);
      Truncate();
    }

    /** attach_optimizer: the new optimizer takes the stored weights unless there are none, and
        always the stored epsilon. */
    method AttachOptimizer(opt: Optimizer.OptimizerRL)
      modifies this, opt
      ensures optimizer == opt
      ensures opt.weights == if weights != [] then weights else old(opt.weights)
      ensures opt.epsilon == epsilon
      ensures opt.learningRate == old(opt.learningRate) && opt.gamma == old(opt.gamma)
      ensures epsilon == old(epsilon) && weights == old(weights) && replayBuffer == old(replayBuffer)
    {
      optimizer := opt;
      if weights != [] {
        opt.weights := weights;
      }
      opt.epsilon := epsilon;
    }
  }

  /** RLContinuousAgent.__init__: a ValueError for a non-positive input size; otherwise the given
      optimizer (a fresh one, which writes its own init entry, when missing), the RLState copied from
      it, then the state file's epsilon and weights (in the RLState and the optimizer) and the replay
      file's buffer loaded, and one continuous_init entry. */
  method Create(inputSize: int, maxBuffer: int, optimizer: Optimizer.OptimizerRL?, stateFile: Files.TextFile,
                replayFile: Files.TextFile, audit: AuditLog.AuditFile?, sessionId: Option<string>,
                hmacKey: Option<string>, env: AuditLog.Env)
    returns (r: Result<RLContinuousAgent, string>)
    modifies optimizer, audit
    ensures r.Failure? <==> inputSize <= 0
    ensures r.Failure? ==> r.error == BadInputSize
    ensures r.Success? ==>
      var a := r.value;
      && fresh(a) && a.maxBuffer == maxBuffer && a.Bounded()
      && a.stateFile == stateFile && a.replayFile == replayFile && a.audit == audit
      && (if optimizer != null then a.optimizer == optimizer else fresh(a.optimizer))
      && a.replayBuffer == Truncated(LoadedReplay(replayFile.content, [], env.codec), maxBuffer)
    ensures r.Success? ==>
      var a := r.value;
      var initial := if optimizer != null then (old(optimizer.epsilon), old(optimizer.weights)) else (0.1, Optimizer.Zeros(inputSize));
      var s := LoadedState(stateFile.content, initial.0, initial.1, env.codec);
      var loaded := if s.Some? then s.value else initial;
      && a.epsilon == loaded.0 && a.weights == loaded.1
      && a.optimizer.epsilon == loaded.0 && a.optimizer.weights == loaded.1
    ensures audit != null && r.Failure? ==> audit.lines == old(audit.lines)
    ensures audit != null && r.Success? ==>
      audit.lines == old(audit.lines)
        + (if optimizer == null
           then AuditLog.Written(Optimizer.InitPayload(sessionId, 0.1, 0.95, 0.1), sessionId, hmacKey, env)
           else [])
        + AuditLog.Written(InitEntry(sessionId, |r.value.replayBuffer|, r.value.epsilon), sessionId, hmacKey, env)
  {
    if inputSize <= 0 {
      return Failure(BadInputSize);
    }
    var opt: Optimizer.OptimizerRL;
    if optimizer != null {
      opt := optimizer;
    } else {
      var made := Optimizer.Create(inputSize, 0.1, 0.95, 0.1, audit, sessionId, hmacKey, env);
      opt := made.value;
    }
    var a := new RLContinuousAgent(maxBuffer, opt, stateFile, replayFile, audit, sessionId, hmacKey, env);
    a.LoadState();
    if audit != null {
      var _, _ := audit.AppendSigned(InitEntry(sessionId, |a.replayBuffer|, a.epsilon), sessionId, hmacKey, env);
    }
    r := Success(a);
  }
}

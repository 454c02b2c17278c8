/** Version 1 of the bridge's trade signal: validation of an incoming dict and its JSON form. */
module SignalSchema {
  import opened Wrappers
  import opened Json

  const CurrentVersion := "1"

  /** SignalV1. `id` keeps whatever truthy value the input carried. */
  datatype Signal = Signal(version: string, symbol: string, side: string, volume: real, price: Option<real>,
                           slPts: Option<int>, tpPts: Option<int>, ts: string, id: Json,
                           meta: Option<map<string, Json>>)

  /** What validation needs besides the dict: the clock's isoformat() text, a fresh uuid4 hex, whether a
      timestamp passes fromisoformat or the strptime fallback, and the JSON codec. */
  datatype Context = Context(now: string, uuid: string, isIso: string -> bool, codec: Codec)

  /** The clock and uuid give usable values: a timestamp that parses back and a non-empty id. */
  ghost predicate Sane(ctx: Context) {
    ctx.now != "" && ctx.isIso(ctx.now) && ctx.uuid != ""
  }

  /** _maybe_int: None or "" is absent; otherwise int() of it, which must not be negative. */
  function MaybeInt(d: map<string, Json>, k: string): (r: Result<Option<int>, string>)
    ensures r.Success? && r.value.Some? ==> r.value.value >= 0
    ensures Get(d, k) == JNull || Get(d, k) == JStr("") ==> r == Success(None)
    ensures Get(d, k).JInt? && Get(d, k).i >= 0 ==> r == Success(Some(Get(d, k).i))
  {
    var v := Get(d, k);
    if v == JNull || v == JStr("") then Success(None)
    else
      match ToInt(v)
      case None => Failure("'" + k + "' must be an integer if provided")
      case Some(iv) => if iv < 0 then Failure("'" + k + "' must be >= 0") else Success(Some(iv))
  }

  /** _ensure_iso_ts: a given timestamp is kept if it parses; a missing one is the clock's. */
  function EnsureIsoTs(ts: Json, ctx: Context): (r: Result<string, string>)
    ensures !Truthy(ts) ==> r == Success(ctx.now)
    ensures Truthy(ts) ==> (r.Success? <==> ts.JStr? && ctx.isIso(ts.s))
    ensures Truthy(ts) && r.Success? ==> r.value == ts.s
  {
    if !Truthy(ts) then Success(ctx.now)
    else if ts.JStr? && ctx.isIso(ts.s) then Success(ts.s)
    else Failure("Invalid ISO timestamp: " + Str(ts, ctx.codec))
  }

  /** The fields checked first, in order: version, symbol, side and volume. */
  datatype Head = Head(version: string, symbol: string, side: string, volume: real)

  function CheckHead(d: map<string, Json>, ctx: Context): (r: Result<Head, string>)
    ensures r.Success? ==>
      && r.value.version == CurrentVersion && r.value.symbol != ""
      && Get(d, "symbol") == JStr(r.value.symbol)
      && (r.value.side == "BUY" || r.value.side == "SELL") && Get(d, "side") == JStr(r.value.side)
      && r.value.volume > 0.0 && ToFloat(Get(d, "volume"), ctx.codec) == Some(r.value.volume)
  {
    var version := Str(GetOr(d, "version", JStr(CurrentVersion)), ctx.codec);
    if version != "1" then Failure("Unsupported signal version: " + version)
    else
      var symbol := Get(d, "symbol");
      if !Truthy(symbol) || !symbol.JStr? then Failure("'symbol' is required and must be a non-empty string")
      else
        var side := Get(d, "side");
        if side != JStr("BUY") && side != JStr("SELL") then Failure("'side' must be 'BUY' or 'SELL'")
        else
          match ToFloat(Get(d, "volume"), ctx.codec)
          case None => Failure("'volume' must be a number")
          case Some(volume) =>
            if volume <= 0.0 then Failure("'volume' must be > 0")
            else Success(Head(version, symbol.s, side.s, volume))
  }

  /** The optional numbers and the timestamp, checked after the head. */
  datatype Tail = Tail(price: Option<real>, slPts: Option<int>, tpPts: Option<int>, ts: string)

  /** The price: None or "" is absent, anything else must convert with float(). */
  function CheckPrice(d: map<string, Json>, ctx: Context): (r: Result<Option<real>, string>)
    ensures Get(d, "price") == JNull || Get(d, "price") == JStr("") ==> r == Success(None)
    ensures Get(d, "price").JNum? ==> r == Success(Some(Get(d, "price").r))
  {
    var p := Get(d, "price");
    if p == JNull || p == JStr("") then Success(None)
    else
      match ToFloat(p, ctx.codec)
      case None => Failure("'price' must be a number if provided")
      case Some(x) => Success(Some(x))
  }

  function CheckTail(d: map<string, Json>, ctx: Context): (r: Result<Tail, string>)
    ensures r.Success? ==>
      && (r.value.ts == ctx.now || (r.value.ts != "" && ctx.isIso(r.value.ts)))
      && (r.value.slPts.Some? ==> r.value.slPts.value >= 0)
      && (r.value.tpPts.Some? ==> r.value.tpPts.value >= 0)
  {
    var price := CheckPrice(d, ctx);
    if price.Failure? then Failure(price.error)
    else
      var sl := MaybeInt(d, "sl_pts");
      if sl.Failure? then Failure(sl.error)
      else
        var tp := MaybeInt(d, "tp_pts");
        if tp.Failure? then Failure(tp.error)
        else
          var ts := EnsureIsoTs(Get(d, "ts"), ctx);
          if ts.Failure? then Failure(ts.error)
          else Success(Tail(price.value, sl.value, tp.value, ts.value))
  }

  /** validate_signal_dict; the first failing check gives the ValueError. */
  function Validate(v: Json, ctx: Context): (r: Result<Signal, string>)
    ensures !v.JObj? ==> r == Failure("signal must be a dict")
    ensures r.Success? ==>
      && r.value.version == CurrentVersion
      && r.value.symbol != ""
      && (r.value.side == "BUY" || r.value.side == "SELL")
      && r.value.volume > 0.0
      && (r.value.slPts.Some? ==> r.value.slPts.value >= 0)
      && (r.value.tpPts.Some? ==> r.value.tpPts.value >= 0)
      && (ctx.uuid != "" ==> Truthy(r.value.id))
      && (r.value.ts == ctx.now || (r.value.ts != "" && ctx.isIso(r.value.ts)))
  {
    if !v.JObj? then Failure("signal must be a dict")
    else
      var d := v.o;
      var head := CheckHead(d, ctx);
      if head.Failure? then Failure(head.error)
      else
        var tail := CheckTail(d, ctx);
        if tail.Failure? then Failure(tail.error)
        else
          var id := if Truthy(Get(d, "id")) then d["id"] else JStr(ctx.uuid);
          var meta := Get(d, "meta");
          if meta != JNull && !meta.JObj? then Failure("'meta' must be an object/dict if provided")
          else
            var h, t := head.value, tail.value;
            Success(Signal(h.version, h.symbol, h.side, h.volume, t.price, t.slPts, t.tpPts, t.ts, id,
                           if meta.JObj? then Some(meta.o) else None))
  }

  /** `asdict(signal)` as JSON. */
  function SignalJson(s: Signal): (j: Json)
    ensures j.JObj? && j.o.Keys == {"version", "symbol", "side", "volume", "price", "sl_pts", "tp_pts", "ts", "id", "meta"}
    ensures j.o["version"] == JStr(s.version) && j.o["symbol"] == JStr(s.symbol) && j.o["side"] == JStr(s.side)
    ensures j.o["volume"] == JNum(s.volume) && j.o["ts"] == JStr(s.ts) && j.o["id"] == s.id
    ensures j.o["price"] == JNull <==> s.price.None?
    ensures s.price.Some? ==> j.o["price"] == JNum(s.price.value)
    ensures j.o["sl_pts"] == JNull <==> s.slPts.None?
    ensures s.slPts.Some? ==> j.o["sl_pts"] == JInt(s.slPts.value)
    ensures j.o["tp_pts"] == JNull <==> s.tpPts.None?
    ensures s.tpPts.Some? ==> j.o["tp_pts"] == JInt(s.tpPts.value)
    ensures j.o["meta"] == JNull <==> s.meta.None?
    ensures s.meta.Some? ==> j.o["meta"] == JObj(s.meta.value)
  {
    JObj(map[
      "version" := JStr(s.version), "symbol" := JStr(s.symbol), "side" := JStr(s.side),
      "volume" := JNum(s.volume),
      "price" := (if s.price.Some? then JNum(s.price.value) else JNull),
      "sl_pts" := (if s.slPts.Some? then JInt(s.slPts.value) else JNull),
      "tp_pts" := (if s.tpPts.Some? then JInt(s.tpPts.value) else JNull),
      "ts" := JStr(s.ts), "id" := s.id,
      "meta" := (if s.meta.Some? then JObj(s.meta.value) else JNull)])
  }

  /** SignalV1.to_json and dumps: the compact dump with its default ensure_ascii=True, so non-ASCII text
      in the signal is written as \u escapes. json.loads reads a storable signal's dict back from it. */
  function Dumps(s: Signal, codec: Codec): (r: string)
    ensures Faithful(codec) && Storable(s) ==> codec.parse(r) == Success(SignalJson(s))
  {
    StorableWhen(s);
    codec.dumpCompact(SignalJson(s))
  }

  /** loads: a JSON error becomes "invalid json: ...", then the dict is validated. */
  function Loads(text: string, ctx: Context): (r: Result<Signal, string>)
    ensures ctx.codec.parse(text).Failure? ==> r == Failure("invalid json: " + ctx.codec.parse(text).error)
    ensures ctx.codec.parse(text).Success? ==> r == Validate(ctx.codec.parse(text).value, ctx)
  {
    match ctx.codec.parse(text)
    case Failure(e) => Failure("invalid json: " + e)
    case Success(v) => Validate(v, ctx)
  }

  /** A validated signal's own dict validates to the same signal: nothing is re-defaulted. */
  lemma Revalidate(v: Json, ctx: Context)
    requires Sane(ctx)
    requires Validate(v, ctx).Success?
    ensures Validate(SignalJson(Validate(v, ctx).value), ctx) == Validate(v, ctx)
  {
    Stable(Validate(v, ctx).value, ctx);
  }

  /** A signal that meets the schema, with a timestamp and an id of its own, is a fixed point of
      validation under any context: the reader's clock and uuid are never consulted. */
  lemma Stable(s: Signal, ctx: Context)
    requires s.version == CurrentVersion && s.symbol != "" && (s.side == "BUY" || s.side == "SELL") && s.volume > 0.0
    requires (s.slPts.Some? ==> s.slPts.value >= 0) && (s.tpPts.Some? ==> s.tpPts.value >= 0)
    requires s.ts != "" && ctx.isIso(s.ts) && Truthy(s.id)
    ensures Validate(SignalJson(s), ctx) == Success(s)
  {
    var d := SignalJson(s).o;
    HeadOfFields(d, Head(s.version, s.symbol, s.side, s.volume), ctx);
    TailOfFields(d, Tail(s.price, s.slPts, s.tpPts, s.ts), ctx);
    assert Truthy(Get(d, "id")) && d["id"] == s.id;
    assert Get(d, "meta") == if s.meta.Some? then JObj(s.meta.value) else JNull;
  }

  /** CheckHead on a dict whose head fields are already of the right JSON types. */
  lemma HeadOfFields(d: map<string, Json>, h: Head, ctx: Context)
    requires h.version == CurrentVersion
    requires "version" in d && d["version"] == JStr(h.version)
    requires "symbol" in d && d["symbol"] == JStr(h.symbol)
    requires "side" in d && d["side"] == JStr(h.side)
    requires "volume" in d && d["volume"] == JNum(h.volume)
    ensures CheckHead(d, ctx).Success? <==> h.symbol != "" && (h.side == "BUY" || h.side == "SELL") && h.volume > 0.0
    ensures CheckHead(d, ctx).Success? ==> CheckHead(d, ctx).value == h
  {
    assert Str(GetOr(d, "version", JStr(CurrentVersion)), ctx.codec) == "1";
    assert ToFloat(Get(d, "volume"), ctx.codec) == Some(h.volume);
  }

  /** CheckTail on a dict whose optional fields are JSON numbers or null and whose ts is a string. */
  lemma TailOfFields(d: map<string, Json>, t: Tail, ctx: Context)
    requires "price" in d && d["price"] == (if t.price.Some? then JNum(t.price.value) else JNull)
    requires "sl_pts" in d && d["sl_pts"] == (if t.slPts.Some? then JInt(t.slPts.value) else JNull)
    requires "tp_pts" in d && d["tp_pts"] == (if t.tpPts.Some? then JInt(t.tpPts.value) else JNull)
    requires "ts" in d && d["ts"] == JStr(t.ts)
    ensures CheckTail(d, ctx).Success? <==>
      && (t.slPts.Some? ==> t.slPts.value >= 0)
      && (t.tpPts.Some? ==> t.tpPts.value >= 0)
      && (t.ts == "" || ctx.isIso(t.ts))
    ensures CheckTail(d, ctx).Success? ==>
      CheckTail(d, ctx).value == t.(ts := if t.ts == "" then ctx.now else t.ts)
  {
    assert CheckPrice(d, ctx) == Success(t.price);
    assert ToInt(Get(d, "sl_pts")) == if t.slPts.Some? then Some(t.slPts.value) else None;
    assert ToInt(Get(d, "tp_pts")) == if t.tpPts.Some? then Some(t.tpPts.value) else None;
  }

  /** validate_signal_dict on a dict of well-typed fields without id or meta: it accepts exactly the
      signals the schema allows and fills in the id and, for an empty ts, the clock. */
  lemma ValidateFresh(d: map<string, Json>, h: Head, t: Tail, ctx: Context)
    requires h.version == CurrentVersion
    requires "version" in d && d["version"] == JStr(h.version)
    requires "symbol" in d && d["symbol"] == JStr(h.symbol)
    requires "side" in d && d["side"] == JStr(h.side)
    requires "volume" in d && d["volume"] == JNum(h.volume)
    requires "price" in d && d["price"] == (if t.price.Some? then JNum(t.price.value) else JNull)
    requires "sl_pts" in d && d["sl_pts"] == (if t.slPts.Some? then JInt(t.slPts.value) else JNull)
    requires "tp_pts" in d && d["tp_pts"] == (if t.tpPts.Some? then JInt(t.tpPts.value) else JNull)
    requires "ts" in d && d["ts"] == JStr(t.ts)
    requires "id" !in d && "meta" !in d
    ensures Validate(JObj(d), ctx).Success? <==>
      && h.symbol != "" && (h.side == "BUY" || h.side == "SELL") && h.volume > 0.0
      && (t.slPts.Some? ==> t.slPts.value >= 0)
      && (t.tpPts.Some? ==> t.tpPts.value >= 0)
      && (t.ts == "" || ctx.isIso(t.ts))
    ensures Validate(JObj(d), ctx).Success? ==>
      Validate(JObj(d), ctx).value ==
        Signal(h.version, h.symbol, h.side, h.volume, t.price, t.slPts, t.tpPts,
               if t.ts == "" then ctx.now else t.ts, JStr(ctx.uuid), None)
  {
    HeadOfFields(d, h, ctx);
    TailOfFields(d, t, ctx);
    assert Get(d, "id") == JNull && Get(d, "meta") == JNull;
  }

  /** A dict with no id and no meta whose head and tail pass validates to them, with a fresh id. */
  lemma ValidateOfChecks(d: map<string, Json>, h: Head, t: Tail, ctx: Context)
    requires CheckHead(d, ctx) == Success(h) && CheckTail(d, ctx) == Success(t)
    requires "id" !in d && "meta" !in d
    ensures Validate(JObj(d), ctx) ==
      Success(Signal(h.version, h.symbol, h.side, h.volume, t.price, t.slPts, t.tpPts, t.ts, JStr(ctx.uuid), None))
  {
    assert Get(d, "id") == JNull && Get(d, "meta") == JNull;
  }

  /** A signal whose numbers are doubles, as a Python float always is, and whose id and meta hold only
      doubles too. */
  ghost predicate Storable(s: Signal) {
    && IsDouble(s.volume) && (s.price.Some? ==> IsDouble(s.price.value))
    && Representable(s.id) && (s.meta.Some? ==> Representable(JObj(s.meta.value)))
  }

  /** The dict of a storable signal is a value json.dumps writes and json.loads reads back. */
  lemma StorableJson(s: Signal)
    requires Storable(s)
    ensures Representable(SignalJson(s))
  {
    var o := SignalJson(s).o;
    forall k | k in o
      ensures Representable(o[k])
    {
      assert k in {"version", "symbol", "side", "volume", "price", "sl_pts", "tp_pts", "ts", "id", "meta"};
    }
  }

  /** StorableJson for any signal, as an implication. */
  lemma StorableWhen(s: Signal)
    ensures Storable(s) ==> Representable(SignalJson(s))
  {
    if Storable(s) {
      StorableJson(s);
    }
  }

  /** For every signal validate_signal_dict returns whose numbers are doubles, loads(dumps(s)) gives s
      back. */
  lemma RoundTrip(v: Json, ctx: Context)
    requires Sane(ctx) && Faithful(ctx.codec)
    requires Validate(v, ctx).Success? && Storable(Validate(v, ctx).value)
    ensures Loads(Dumps(Validate(v, ctx).value, ctx.codec), ctx) == Validate(v, ctx)
  {
    StorableJson(Validate(v, ctx).value);
    Revalidate(v, ctx);
  }

  /** A dict without a usable volume is refused with a message naming "volume", whatever its other
      fields. */
  lemma VolumeRequired(d: map<string, Json>, ctx: Context)
    requires "version" !in d && d["symbol" := JStr("EURUSD")]["side" := JStr("BUY")] == d
    requires "volume" !in d || ToFloat(d["volume"], ctx.codec).None?
    ensures Validate(JObj(d), ctx) == Failure("'volume' must be a number")
  {
    assert Get(d, "symbol") == JStr("EURUSD") && Get(d, "side") == JStr("BUY");
  }

  /** A side other than BUY or SELL is refused once version and symbol are acceptable. */
  lemma SideChecked(d: map<string, Json>, ctx: Context)
    requires "version" !in d && "symbol" in d && d["symbol"] == JStr("EURUSD")
    requires "side" in d && d["side"] != JStr("BUY") && d["side"] != JStr("SELL")
    ensures Validate(JObj(d), ctx) == Failure("'side' must be 'BUY' or 'SELL'")
  {
  }

  /** A valid signal without ts or id gets the clock's timestamp and a fresh id. */
  lemma Defaults(v: Json, ctx: Context)
    requires v.JObj? && "ts" !in v.o && "id" !in v.o
    requires Validate(v, ctx).Success?
    ensures Validate(v, ctx).value.ts == ctx.now && Validate(v, ctx).value.id == JStr(ctx.uuid)
  {
  }
}

/** The signal-file writer the MetaTrader 5 expert advisor reads: a legacy `key=value` text file or a
    JSON file in the version 1 schema. */
module Mt5Bridge {
  import opened Wrappers
  import opened Json
  import Text
  import SignalSchema
  import Files

  /** A datetime as the writer renders it: isoformat() and strftime("%Y%m%dT%H%M%SZ"). */
  datatype Moment = Moment(iso: string, stamp: string)

  /** The in-memory signal the writer is given. */
  datatype Signal = Signal(symbol: string, side: string, volume: real, price: Option<real>,
                           slPts: Option<int>, tpPts: Option<int>, ts: Option<Moment>)

  /** utcnow(), uuid4().hex, the schema's timestamp check and the JSON codec. */
  datatype Env = Env(now: Moment, uuid: string, isIso: string -> bool, codec: Codec)

  const BadFormat := "fmt must be 'text' or 'json'"

  /** `signal.ts or utcnow()`. */
  function When(s: Signal, env: Env): Moment {
    if s.ts.Some? then s.ts.value else env.now
  }

  function Extension(fmt: string): string {
    if fmt == "text" then ".sig" else ".sig.json"
  }

  /** The file name used when the caller gives none. */
  function DefaultName(s: Signal, fmt: string, env: Env): (name: string)
    ensures Text.IsPrefix(Text.ReplaceChar(s.symbol, '/', '_') + "_" + s.side + "_", name)
  {
    Text.ReplaceChar(s.symbol, '/', '_') + "_" + s.side + "_" + When(s, env).stamp + Extension(fmt)
  }

  /** A "/" in the symbol never makes the default name point into a sub-directory. */
  lemma NameStaysInFolder(s: Signal, fmt: string, env: Env)
    requires '/' !in s.side && '/' !in When(s, env).stamp
    ensures '/' !in DefaultName(s, fmt, env)
  {
    var safe := Text.ReplaceChar(s.symbol, '/', '_');
    assert '/' !in safe;
    var name := DefaultName(s, fmt, env);
    assert name == safe + "_" + s.side + "_" + When(s, env).stamp + Extension(fmt);
  }

  /** An optional number as the text format writes it: the empty string for None. */
  function OptInt(v: Option<int>): string {
    if v.Some? then Text.IntToString(v.value) else ""
  }

  function OptReal(v: Option<real>, codec: Codec): string {
    if v.Some? then codec.formatFloat(v.value) else ""
  }

  /** One `key=value` line. */
  function Line(key: string, value: string): string {
    key + "=" + value
  }

  /** The keys of the legacy text format, in the order the writer writes them. */
  const TextKeys: seq<string> := ["symbol", "side", "volume", "price", "sl_pts", "tp_pts", "ts"]

  /** The values the writer puts after each key: floats through str(), an absent price or count as
      an empty string. */
  function TextValues(s: Signal, env: Env): (vs: seq<string>)
    ensures |vs| == 7
  {
    [s.symbol, s.side, env.codec.formatFloat(s.volume), OptReal(s.price, env.codec),
     OptInt(s.slPts), OptInt(s.tpPts), When(s, env).iso]
  }

  /** One `key=value` line per key, in order. */
  function KeyLines(keys: seq<string>, values: seq<string>): (lines: seq<string>)
    requires |keys| == |values|
    ensures |lines| == |keys| && forall i :: 0 <= i < |keys| ==> lines[i] == Line(keys[i], values[i])
  {
    seq(|keys|, i requires 0 <= i < |keys| => Line(keys[i], values[i]))
  }

  /** The seven `key=value` lines of the legacy text format, in their fixed order. */
  function TextLines(s: Signal, env: Env): (lines: seq<string>)
    ensures |lines| == 7
  {
    KeyLines(TextKeys, TextValues(s, env))
  }

  /** The text file's body: the lines joined by "\n", with no final newline. */
  function TextBody(s: Signal, env: Env): string {
    Text.JoinLines(TextLines(s, env))
  }

  /** The dict handed to the schema validator; id and meta are left to it. */
  function Payload(s: Signal, env: Env): (d: map<string, Json>)
    ensures d.Keys == {"version", "symbol", "side", "volume", "price", "sl_pts", "tp_pts", "ts"}
    ensures "id" !in d && "meta" !in d
    ensures d["version"] == JStr(SignalSchema.CurrentVersion) && d["symbol"] == JStr(s.symbol)
    ensures d["side"] == JStr(s.side) && d["volume"] == JNum(s.volume) && d["ts"] == JStr(When(s, env).iso)
    ensures d["price"] == (if s.price.Some? then JNum(s.price.value) else JNull)
    ensures d["sl_pts"] == (if s.slPts.Some? then JInt(s.slPts.value) else JNull)
    ensures d["tp_pts"] == (if s.tpPts.Some? then JInt(s.tpPts.value) else JNull)
  {
    map["version" := JStr(SignalSchema.CurrentVersion), "symbol" := JStr(s.symbol), "side" := JStr(s.side),
        "volume" := JNum(s.volume),
        "price" := (if s.price.Some? then JNum(s.price.value) else JNull),
        "sl_pts" := (if s.slPts.Some? then JInt(s.slPts.value) else JNull),
        "tp_pts" := (if s.tpPts.Some? then JInt(s.tpPts.value) else JNull),
        "ts" := JStr(When(s, env).iso)]
  }

  function SchemaContext(env: Env): SignalSchema.Context {
    SignalSchema.Context(env.now.iso, env.uuid, env.isIso, env.codec)
  }

  /** The JSON file's body: the payload validated, then dumped; an invalid payload is the error. */
  function JsonBody(s: Signal, env: Env): (r: Result<string, string>)
    ensures r.Failure? <==> SignalSchema.Validate(JObj(Payload(s, env)), SchemaContext(env)).Failure?
  {
    match SignalSchema.Validate(JObj(Payload(s, env)), SchemaContext(env))
    case Failure(e) => Failure(e)
    case Success(v) => Success(SignalSchema.Dumps(v, env.codec))
  }

  /** What the schema demands of a signal the writer hands it. */
  predicate Acceptable(s: Signal, env: Env) {
    && s.symbol != ""
    && (s.side == "BUY" || s.side == "SELL")
    && s.volume > 0.0
    && (s.slPts.Some? ==> s.slPts.value >= 0)
    && (s.tpPts.Some? ==> s.tpPts.value >= 0)
    && (When(s, env).iso == "" || env.isIso(When(s, env).iso))
  }

  /** The schema signal a JSON file holds: an empty isoformat() would be replaced by the clock's. */
  function Stored(s: Signal, env: Env): SignalSchema.Signal {
    var ts := When(s, env).iso;
    SignalSchema.Signal(SignalSchema.CurrentVersion, s.symbol, s.side, s.volume, s.price, s.slPts, s.tpPts,
                        if ts == "" then env.now.iso else ts, JStr(env.uuid), None)
  }

  /** The JSON format accepts exactly the acceptable signals, and then holds its fields, the given
      timestamp and a fresh id. */
  lemma JsonBodyAccepts(s: Signal, env: Env)
    ensures JsonBody(s, env).Success? <==> Acceptable(s, env)
    ensures Acceptable(s, env) ==> SignalSchema.Validate(JObj(Payload(s, env)), SchemaContext(env)) == Success(Stored(s, env))
    ensures Acceptable(s, env) ==> JsonBody(s, env) == Success(SignalSchema.Dumps(Stored(s, env), env.codec))
  {
    var d := Payload(s, env);
    var ctx := SchemaContext(env);
    SignalSchema.ValidateFresh(d, SignalSchema.Head(SignalSchema.CurrentVersion, s.symbol, s.side, s.volume),
                               SignalSchema.Tail(s.price, s.slPts, s.tpPts, When(s, env).iso), ctx);
  }

  /** The volume and the price are doubles, as Python floats are. */
  ghost predicate Doubles(s: Signal) {
    IsDouble(s.volume) && (s.price.Some? ==> IsDouble(s.price.value))
  }

  /** A JSON file the writer produced loads back as the signal it stored. */
  lemma JsonFileLoads(s: Signal, env: Env)
    requires Acceptable(s, env) && Doubles(s) && Faithful(env.codec) && SignalSchema.Sane(SchemaContext(env))
    ensures JsonBody(s, env).Success?
    ensures SignalSchema.Loads(JsonBody(s, env).value, SchemaContext(env)) == Success(Stored(s, env))
  {
    JsonBodyAccepts(s, env);
    assert SignalSchema.Storable(Stored(s, env));
    SignalSchema.RoundTrip(JObj(Payload(s, env)), SchemaContext(env));
  }

  /** write_signal without the file: the format is checked first, then the name and the body. */
  function Render(s: Signal, name: Option<string>, fmt: string, env: Env): (r: Result<(string, string), string>)
    ensures fmt != "text" && fmt != "json" ==> r == Failure(BadFormat)
    ensures fmt == "text" ==> r.Success? && r.value.1 == TextBody(s, env)
    ensures fmt == "json" ==> (r.Success? <==> Acceptable(s, env))
    ensures r.Success? ==> r.value.0 == if name.Some? then name.value else DefaultName(s, fmt, env)
  {
    JsonBodyAccepts(s, env);
    if fmt != "text" && fmt != "json" then Failure(BadFormat)
    else
      var file := if name.Some? then name.value else DefaultName(s, fmt, env);
      if fmt == "text" then Success((file, TextBody(s, env)))
      else
        match JsonBody(s, env)
        case Failure(e) => Failure(e)
        case Success(text) => Success((file, text))
  }

  /** write_signal: the folder is created, and the file is written only once its body is known, so a
      refused signal leaves the folder's files as they were. */
  method WriteSignal(s: Signal, folder: Files.Folder, name: Option<string>, fmt: string, env: Env)
    returns (r: Result<string, string>)
    modifies folder
    ensures folder.present
    ensures Render(s, name, fmt, env).Failure? ==>
      r == Failure(Render(s, name, fmt, env).error) && folder.files == old(folder.files)
    ensures Render(s, name, fmt, env).Success? ==>
      var (file, text) := Render(s, name, fmt, env).value;
      r == Success(file) && folder.files == old(folder.files)[file := text]
  {
    folder.MakeDir();
    var rendered := Render(s, name, fmt, env);
    if rendered.Failure? {
      return Failure(rendered.error);
    }
    var (file, text) := rendered.value;
    folder.Write(file, text);
    r := Success(file);
  }
}

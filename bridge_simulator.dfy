/** The bridge simulator: one pass over a signal folder that reads every `.sig.json` and `.sig` file,
    validates it against the version 1 schema, records a simulated fill or an error, and moves the
    file to `archived/` or `failed/`. */
module BridgeSimulator {
  import opened Wrappers
  import opened Json
  import Text
  import Seqs
  import Ordering
  import SignalSchema
  import Mt5Bridge
  import Files

  // ---- The legacy text format ----

  /** The key and value a text line contributes: blank lines and lines without "=" contribute
      nothing; otherwise the line splits at its first "=" and both parts are stripped. */
  function Entry(line: string): (r: Option<(string, string)>)
    ensures r.None? <==> '=' !in line
  {
    if Text.Strip(line) == "" || '=' !in line then
      assert '=' in line ==> Text.Strip(line) != "" by {
        if '=' in line {
          var i :| 0 <= i < |line| && line[i] == '=';
          Text.StripEmptyIffBlank(line);
        }
      }
      None
    else
      var (k, v) := Text.SplitFirst(line, '=').value;
      Some((Text.Strip(k), Text.Strip(v)))
  }

  /** What each line contributes. */
  function Entries(lines: seq<string>): (es: seq<Option<(string, string)>>)
    ensures |es| == |lines| && forall i :: 0 <= i < |lines| ==> es[i] == Entry(lines[i])
  {
    seq(|lines|, i requires 0 <= i < |lines| => Entry(lines[i]))
  }

  /** The dict the entries fill, in order: a later entry with the same key overwrites an earlier one. */
  function Collect(es: seq<Option<(string, string)>>): map<string, Json>
  {
    if es == [] then map[]
    else
      var m := Collect(es[..|es| - 1]);
      var e := es[|es| - 1];
      if e.None? then m else m[e.value.0 := JStr(e.value.1)]
  }

  /** The dict _parse_text_signal builds from the lines of a file. */
  function Fields(lines: seq<string>): map<string, Json> {
    Collect(Entries(lines))
  }

  /** The entry sets key `k`. */
  predicate Sets(e: Option<(string, string)>, k: string) {
    e.Some? && e.value.0 == k
  }

  /** Entry `i` is the last one that sets `k`. */
  predicate LastSets(es: seq<Option<(string, string)>>, k: string, i: int) {
    0 <= i < |es| && Sets(es[i], k) && forall j :: i < j < |es| ==> !Sets(es[j], k)
  }

  /** A key is in the dict exactly when some entry sets it. */
  lemma {:induction false} CollectKeys(es: seq<Option<(string, string)>>, k: string)
    ensures k in Collect(es) <==> exists i :: 0 <= i < |es| && Sets(es[i], k)
  {
    if es != [] {
      var n := |es| - 1;
      var init := es[..n];
      CollectKeys(init, k);
      if !Sets(es[n], k) {
        if k in Collect(init) {
          var i :| 0 <= i < |init| && Sets(init[i], k);
          assert es[i] == init[i];
        }
        if exists i :: 0 <= i < |es| && Sets(es[i], k) {
          var i :| 0 <= i < |es| && Sets(es[i], k);
          assert init[i] == es[i];
        }
      }
    }
  }

  /** Its value is the one the last entry setting it gives. */
  lemma {:induction false} CollectValue(es: seq<Option<(string, string)>>, k: string, i: int)
    requires LastSets(es, k, i)
    ensures k in Collect(es) && Collect(es)[k] == JStr(es[i].value.1)
  {
    var n := |es| - 1;
    var init := es[..n];
    if i < n {
      assert LastSets(init, k, i) by {
        assert forall j :: i < j < |init| ==> init[j] == es[j];
      }
      CollectValue(init, k, i);
    }
  }

  lemma CollectStep(es: seq<Option<(string, string)>>, i: nat)
    requires i < |es|
    ensures Collect(es[..i + 1]) == if es[i].None? then Collect(es[..i]) else Collect(es[..i])[es[i].value.0 := JStr(es[i].value.1)]
  {
    Seqs.TakeOneMore(es, i);
  }

  /** _parse_text_signal, on the file's text. */
  method ParseTextSignal(text: string) returns (data: map<string, Json>)
    ensures data == Fields(Text.Lines(Text.AllBoundaries, text))
  {
    var lines := Text.Lines(Text.AllBoundaries, text);
    ghost var es := Entries(lines);
    data := map[];
    for i := 0 to |lines|
      invariant data == Collect(es[..i])
    {
      CollectStep(es, i);
      var e := Entry(lines[i]);
      if e.Some? {
        data := data[e.value.0 := JStr(e.value.1)];
      }
    }
    Seqs.TakeAll(es);
  }

  // ---- Which files a pass takes, and in which order ----

  predicate EndsWith(s: string, suffix: string) {
    |suffix| <= |s| && s[|s| - |suffix|..] == suffix
  }

  /** Matched by the glob "*.sig.json" in the folder itself. */
  predicate IsJsonName(name: string) {
    '/' !in name && EndsWith(name, ".sig.json")
  }

  /** Matched by the glob "*.sig" in the folder itself. */
  predicate IsTextName(name: string) {
    '/' !in name && EndsWith(name, ".sig")
  }

  /** No name matches both globs. */
  lemma GlobsDisjoint(name: string)
    ensures !(IsJsonName(name) && IsTextName(name))
  {
    if IsJsonName(name) {
      assert name[|name| - 1] == ".sig.json"[8];
    }
  }

  /** The files of one pass: the sorted `.sig.json` files, then the sorted `.sig` files. */
  function Pending(listing: seq<string>): (ps: seq<string>)
    ensures forall n :: n in ps <==> n in listing && (IsJsonName(n) || IsTextName(n))
    ensures forall i, j :: 0 <= i < j < |ps| ==> ps[i] != ps[j]
    ensures forall i :: 0 <= i < |ps| ==> '/' !in ps[i]
  {
    var json := Ordering.SortedSet(Seqs.Filter(listing, IsJsonName));
    var text := Ordering.SortedSet(Seqs.Filter(listing, IsTextName));
    Ordering.IncreasingDistinct(json);
    Ordering.IncreasingDistinct(text);
    forall i, j | 0 <= i < |json| && 0 <= j < |text|
      ensures json[i] != text[j]
    {
      GlobsDisjoint(json[i]);
    }
    var ps := json + text;
    assert forall i :: 0 <= i < |ps| ==> ps[i] in json || ps[i] in text;
    ps
  }

  /** Every `.sig.json` file comes before every `.sig` file, and each group is in sorted order. */
  lemma PendingOrder(listing: seq<string>)
    ensures var ps := Pending(listing);
      forall i, j :: 0 <= i < j < |ps| ==>
        (IsTextName(ps[i]) ==> IsTextName(ps[j])) &&
        ((IsJsonName(ps[i]) == IsJsonName(ps[j])) ==> Ordering.Below(ps[i], ps[j]))
  {
    var json := Ordering.SortedSet(Seqs.Filter(listing, IsJsonName));
    var text := Ordering.SortedSet(Seqs.Filter(listing, IsTextName));
    var ps := Pending(listing);
    assert ps == json + text;
    forall i, j | 0 <= i < j < |ps|
      ensures IsTextName(ps[i]) ==> IsTextName(ps[j])
      ensures (IsJsonName(ps[i]) == IsJsonName(ps[j])) ==> Ordering.Below(ps[i], ps[j])
    {
      assert ps[i] in json ==> IsJsonName(ps[i]);
      assert ps[j] in json ==> IsJsonName(ps[j]);
      assert ps[i] in text ==> IsTextName(ps[i]);
      assert ps[j] in text ==> IsTextName(ps[j]);
      GlobsDisjoint(ps[i]);
      GlobsDisjoint(ps[j]);
      if j < |json| {
        assert ps[i] == json[i] && ps[j] == json[j];
      } else if i >= |json| {
        assert ps[i] == text[i - |json|] && ps[j] == text[j - |json|];
      } else {
        assert ps[i] in json && ps[j] in text;
      }
    }
  }

  // ---- One file ----

  /** The simulated fill, or the error text of whatever was raised. */
  datatype Result_ = Filled(symbol: string, side: string, volume: real, execPrice: real) | Error(message: string)

  /** One processed file: where it was, where it went, the validated signal on success. */
  datatype Record = Record(path: string, archived: string, signal: Option<SignalSchema.Signal>, result: Result_)

  /** Parsing and validating one file; a JSON decoding error is reported with the decoder's message. */
  function Outcome(name: string, text: string, ctx: SignalSchema.Context): (r: Result<SignalSchema.Signal, string>)
    ensures r.Success? ==> (r.value.side == "BUY" || r.value.side == "SELL") && r.value.volume > 0.0 && r.value.symbol != ""
    ensures EndsWith(name, ".sig.json") && ctx.codec.parse(text).Failure? ==> r == Failure(ctx.codec.parse(text).error)
  {
    if EndsWith(name, ".sig.json") then
      match ctx.codec.parse(text)
      case Failure(e) => Failure(e)
      case Success(v) => SignalSchema.Validate(v, ctx)
    else SignalSchema.Validate(JObj(Fields(Text.Lines(Text.AllBoundaries, text))), ctx)
  }

  /** Where a file is moved: `archived/` after success, `failed/` after an error. */
  function Destination(name: string, ok: bool): (d: string)
    ensures '/' in d
  {
    assert (if ok then "archived/" else "failed/")[|if ok then "archived/" else "failed/"| - 1] == '/';
    (if ok then "archived/" else "failed/") + name
  }

  /** Distinct files go to distinct destinations. */
  lemma DestinationInjective(f: string, g: string, okF: bool, okG: bool)
    requires Destination(f, okF) == Destination(g, okG)
    ensures f == g
  {
    var d := Destination(f, okF);
    var p := if okF then "archived/" else "failed/";
    var q := if okG then "archived/" else "failed/";
    assert p[0] == d[0] == q[0];
    assert p == q;
    assert f == d[|p|..] == g;
  }

  /** The record of one file. */
  function RecordOf(name: string, text: string, ctx: SignalSchema.Context): (r: Record)
    ensures r.path == name
    ensures r.signal.Some? <==> r.result.Filled?
    ensures r.signal.Some? <==> Outcome(name, text, ctx).Success?
    ensures r.archived == Destination(name, r.signal.Some?)
    ensures r.signal.Some? ==> r.signal.value == Outcome(name, text, ctx).value
    ensures r.signal.Some? ==> r.result.execPrice == if r.signal.value.price.Some? then r.signal.value.price.value else 0.0
    ensures r.signal.None? ==> r.result == Error(Outcome(name, text, ctx).error)
  {
    match Outcome(name, text, ctx)
    case Success(sig) =>
      Record(name, Destination(name, true), Some(sig),
             Filled(sig.symbol, sig.side, sig.volume, if sig.price.Some? then sig.price.value else 0.0))
    case Failure(e) => Record(name, Destination(name, false), None, Error(e))
  }

  // ---- A whole pass ----

  /** The records of a pass, one per file, in order. */
  function Records(ps: seq<string>, files: map<string, string>, ctx: SignalSchema.Context): (rs: seq<Record>)
    requires forall i :: 0 <= i < |ps| ==> ps[i] in files
    ensures |rs| == |ps|
    ensures forall i :: 0 <= i < |ps| ==> rs[i].path == ps[i] && (rs[i].signal.Some? <==> Outcome(ps[i], files[ps[i]], ctx).Success?)
  {
    seq(|ps|, i requires 0 <= i < |ps| => RecordOf(ps[i], files[ps[i]], ctx))
  }

  /** The moves a pass makes, as (file, destination) pairs. */
  function Moves(rs: seq<Record>): (mv: seq<(string, string)>)
    ensures |mv| == |rs| && forall i :: 0 <= i < |rs| ==> mv[i] == (rs[i].path, rs[i].archived)
  {
    seq(|rs|, i requires 0 <= i < |rs| => (rs[i].path, rs[i].archived))
  }

  /** The folder after the moves, each carrying the text the file had at the start. */
  function Moved(orig: map<string, string>, mv: seq<(string, string)>): map<string, string>
    requires forall i :: 0 <= i < |mv| ==> mv[i].0 in orig
  {
    if mv == [] then orig
    else
      var (src, dst) := mv[|mv| - 1];
      (Moved(orig, mv[..|mv| - 1]) - {src})[dst := orig[src]]
  }

  /** Moves whose files are in the folder itself and whose destinations are in sub-directories. */
  predicate OutOfFolder(orig: map<string, string>, mv: seq<(string, string)>) {
    forall i :: 0 <= i < |mv| ==> mv[i].0 in orig && '/' !in mv[i].0 && '/' in mv[i].1
  }

  /** A file in the folder itself that is not moved stays as it was. */
  lemma {:induction false} MovedKeeps(orig: map<string, string>, mv: seq<(string, string)>, n: string)
    requires OutOfFolder(orig, mv)
    requires '/' !in n && forall i :: 0 <= i < |mv| ==> mv[i].0 != n
    ensures n in Moved(orig, mv) <==> n in orig
    ensures n in orig ==> Moved(orig, mv)[n] == orig[n]
  {
    if mv != [] {
      MovedKeeps(orig, mv[..|mv| - 1], n);
    }
  }

  /** Every moved file has left the folder. */
  lemma {:induction false} MovedRemoves(orig: map<string, string>, mv: seq<(string, string)>, i: nat)
    requires OutOfFolder(orig, mv) && i < |mv|
    ensures mv[i].0 !in Moved(orig, mv)
  {
    var n := |mv| - 1;
    if i < n {
      MovedRemoves(orig, mv[..n], i);
    }
  }

  /** With distinct destinations, each moved file sits at its destination with its original text. */
  lemma {:induction false} MovedLands(orig: map<string, string>, mv: seq<(string, string)>, i: nat)
    requires OutOfFolder(orig, mv) && i < |mv|
    requires forall j, k :: 0 <= j < k < |mv| ==> mv[j].1 != mv[k].1
    ensures mv[i].1 in Moved(orig, mv) && Moved(orig, mv)[mv[i].1] == orig[mv[i].0]
  {
    var n := |mv| - 1;
    if i < n {
      MovedLands(orig, mv[..n], i);
    }
  }

  /** The moves of a pass over distinct files in the folder itself go to distinct sub-directory paths. */
  lemma PassMoves(ps: seq<string>, orig: map<string, string>, ctx: SignalSchema.Context)
    requires forall i :: 0 <= i < |ps| ==> ps[i] in orig && '/' !in ps[i]
    requires forall i, j :: 0 <= i < j < |ps| ==> ps[i] != ps[j]
    ensures var mv := Moves(Records(ps, orig, ctx));
      OutOfFolder(orig, mv) && forall j, k :: 0 <= j < k < |mv| ==> mv[j].1 != mv[k].1
  {
    var rs := Records(ps, orig, ctx);
    forall j, k | 0 <= j < k < |rs|
      ensures rs[j].archived != rs[k].archived
    {
      if rs[j].archived == rs[k].archived {
        DestinationInjective(ps[j], ps[k], rs[j].signal.Some?, rs[k].signal.Some?);
      }
    }
  }

  /** process_once. `listing` is what the directory scan reports: the names in the folder itself. */
  method ProcessOnce(folder: Files.Folder, listing: seq<string>, ctx: SignalSchema.Context) returns (records: seq<Record>)
    requires folder.present ==> forall n :: n in listing <==> n in folder.files && '/' !in n
    modifies folder
    ensures !old(folder.present) ==> records == [] && folder.files == old(folder.files)
    ensures old(folder.present) ==>
      && records == Records(Pending(listing), old(folder.files), ctx)
      && folder.files == Moved(old(folder.files), Moves(records))
  {
    if !folder.present {
      return [];
    }
    var ps := Pending(listing);
    ghost var orig := folder.files;
    PassMoves(ps, orig, ctx);
    ghost var all := Records(ps, orig, ctx);
    records := [];
    for i := 0 to |ps|
      invariant records == all[..i]
      invariant folder.files == Moved(orig, Moves(records))
    {
      records := ProcessFile(folder, ps, i, orig, records, ctx);
    }
    assert records == all;
  }

  /** One turn of the loop: read the i-th file, record it and move it away. */
  method ProcessFile(folder: Files.Folder, ps: seq<string>, i: nat, ghost orig: map<string, string>,
                     done: seq<Record>, ctx: SignalSchema.Context) returns (records: seq<Record>)
    requires i < |ps|
    requires forall j :: 0 <= j < |ps| ==> ps[j] in orig && '/' !in ps[j]
    requires forall j, k :: 0 <= j < k < |ps| ==> ps[j] != ps[k]
    requires done == Records(ps, orig, ctx)[..i]
    requires folder.files == Moved(orig, Moves(done))
    modifies folder
    ensures records == Records(ps, orig, ctx)[..i + 1]
    ensures folder.files == Moved(orig, Moves(records))
  {
    var f := ps[i];
    ghost var mv := Moves(done);
    PrefixMoves(ps, orig, ctx, i);
    MovedKeeps(orig, mv, f);
    var rec := RecordOf(f, folder.files[f], ctx);
    folder.Move(f, rec.archived);
    records := done + [rec];
    Seqs.TakeOneMore(Records(ps, orig, ctx), i);
    MovedSnoc(orig, mv, (f, rec.archived));
    assert Moves(records) == mv + [(f, rec.archived)];
  }

  /** The moves made before the i-th file leave it where it was. */
  lemma PrefixMoves(ps: seq<string>, orig: map<string, string>, ctx: SignalSchema.Context, i: nat)
    requires i < |ps|
    requires forall j :: 0 <= j < |ps| ==> ps[j] in orig && '/' !in ps[j]
    requires forall j, k :: 0 <= j < k < |ps| ==> ps[j] != ps[k]
    ensures var mv := Moves(Records(ps, orig, ctx)[..i]);
      OutOfFolder(orig, mv) && forall j :: 0 <= j < |mv| ==> mv[j].0 != ps[i]
  {
    PassMoves(ps, orig, ctx);
  }

  lemma MovedSnoc(orig: map<string, string>, mv: seq<(string, string)>, m: (string, string))
    requires forall i :: 0 <= i < |mv| ==> mv[i].0 in orig
    requires m.0 in orig
    ensures Moved(orig, mv + [m]) == (Moved(orig, mv) - {m.0})[m.1 := orig[m.0]]
  {
    assert (mv + [m])[..|mv|] == mv;
  }

  /** After a pass every taken file has left the folder and sits, with its text, at the destination its
      record names, and every other file in the folder itself is untouched. */
  lemma PassMeaning(orig: map<string, string>, listing: seq<string>, ctx: SignalSchema.Context)
    requires forall n :: n in listing <==> n in orig && '/' !in n
    ensures var ps := Pending(listing); var rs := Records(ps, orig, ctx); var after := Moved(orig, Moves(rs));
      && (forall i :: 0 <= i < |rs| ==> rs[i].path !in after)
      && (forall i :: 0 <= i < |rs| ==> rs[i].archived in after && after[rs[i].archived] == orig[rs[i].path])
      && (forall n :: n in orig && '/' !in n && n !in ps ==> n in after && after[n] == orig[n])
  {
    var ps := Pending(listing);
    var rs := Records(ps, orig, ctx);
    var mv := Moves(rs);
    PassMoves(ps, orig, ctx);
    MovedMeaning(orig, mv);
    assert forall i :: 0 <= i < |rs| ==> rs[i].path == ps[i];
  }

  /** Moves out of the folder to distinct destinations: each moved file has left, each sits at its
      destination with its text, and every file of the folder itself that is not moved stays. */
  lemma MovedMeaning(orig: map<string, string>, mv: seq<(string, string)>)
    requires OutOfFolder(orig, mv)
    requires forall j, k :: 0 <= j < k < |mv| ==> mv[j].1 != mv[k].1
    ensures var after := Moved(orig, mv);
      && (forall i :: 0 <= i < |mv| ==> mv[i].0 !in after)
      && (forall i :: 0 <= i < |mv| ==> mv[i].1 in after && after[mv[i].1] == orig[mv[i].0])
      && (forall n :: n in orig && '/' !in n && (forall i :: 0 <= i < |mv| ==> mv[i].0 != n) ==>
            n in after && after[n] == orig[n])
  {
    forall i | 0 <= i < |mv|
      ensures mv[i].0 !in Moved(orig, mv)
      ensures mv[i].1 in Moved(orig, mv) && Moved(orig, mv)[mv[i].1] == orig[mv[i].0]
    {
      MovedRemoves(orig, mv, i);
      MovedLands(orig, mv, i);
    }
    forall n | n in orig && '/' !in n && (forall i :: 0 <= i < |mv| ==> mv[i].0 != n)
      ensures n in Moved(orig, mv) && Moved(orig, mv)[n] == orig[n]
    {
      MovedKeeps(orig, mv, n);
    }
  }

  // ---- What the writer writes, the simulator reads ----

  /** A `key=value` line with a plain key free of "=" gives back that key and value. */
  lemma EntryOf(key: string, value: string)
    requires key != "" && '=' !in key && Text.Plain(key) && Text.Plain(value)
    ensures Entry(Mt5Bridge.Line(key, value)) == Some((key, value))
  {
    var line := Mt5Bridge.Line(key, value);
    assert line[|key|] == '=';
    var (k, v) := Text.SplitFirst(line, '=').value;
    assert k == line[..|key|] == key;
    assert v == line[|key| + 1..] == value;
    Text.StripFixed(key);
    Text.StripFixed(value);
    assert Text.Strip(line) != "" by {
      Text.StripEmptyIffBlank(line);
    }
  }

  /** str(float) of any value is non-empty plain text. */
  ghost predicate PlainFloats(codec: Codec) {
    forall r :: codec.formatFloat(r) != "" && Text.Plain(codec.formatFloat(r))
  }

  /** The dict holds exactly the text format's keys, each with its value as a string. */
  ghost predicate Holds(d: map<string, Json>, values: seq<string>) {
    && |values| == 7
    && (forall k :: k in d <==> k in Mt5Bridge.TextKeys)
    && "symbol" in d && d["symbol"] == JStr(values[0])
    && "side" in d && d["side"] == JStr(values[1])
    && "volume" in d && d["volume"] == JStr(values[2])
    && "price" in d && d["price"] == JStr(values[3])
    && "sl_pts" in d && d["sl_pts"] == JStr(values[4])
    && "tp_pts" in d && d["tp_pts"] == JStr(values[5])
    && "ts" in d && d["ts"] == JStr(values[6])
  }

  /** Parsing the text the writer produced gives back each field as written, whether the lines are
      split by splitlines() or by the universal newlines of text-mode iteration. */
  lemma TextFileFields(mode: Text.Newlines, s: Mt5Bridge.Signal, env: Mt5Bridge.Env)
    requires mode == Text.AllBoundaries || mode == Text.Universal
    requires Text.Plain(s.symbol) && Text.Plain(s.side) && Text.Plain(Mt5Bridge.When(s, env).iso)
    requires PlainFloats(env.codec)
    ensures Holds(Fields(Text.Lines(mode, Mt5Bridge.TextBody(s, env))), Mt5Bridge.TextValues(s, env))
  {
    var values := Mt5Bridge.TextValues(s, env);
    TextLinesRead(mode, s, env);
    CollectSeven(values);
  }

  /** The entries `key=value` lines give when each reads back as its key and value. */
  function KeyEntries(keys: seq<string>, values: seq<string>): (es: seq<Option<(string, string)>>)
    requires |keys| == |values|
    ensures |es| == |keys| && forall i :: 0 <= i < |keys| ==> es[i] == Some((keys[i], values[i]))
  {
    seq(|keys|, i requires 0 <= i < |keys| => Some((keys[i], values[i])))
  }

  /** The writer's lines come back from the line split and each gives its key and value. */
  lemma TextLinesRead(mode: Text.Newlines, s: Mt5Bridge.Signal, env: Mt5Bridge.Env)
    requires mode == Text.AllBoundaries || mode == Text.Universal
    requires Text.Plain(s.symbol) && Text.Plain(s.side) && Text.Plain(Mt5Bridge.When(s, env).iso)
    requires PlainFloats(env.codec)
    ensures Entries(Text.Lines(mode, Mt5Bridge.TextBody(s, env))) ==
      KeyEntries(Mt5Bridge.TextKeys, Mt5Bridge.TextValues(s, env))
  {
    ValuesPlain(s, env);
    KeysPlain();
    LinesRead(mode, Mt5Bridge.TextKeys, Mt5Bridge.TextValues(s, env));
  }

  /** `key=value` lines joined by "\n", with plain keys free of "=" and plain values, split back into
      lines that each give their key and value. */
  lemma LinesRead(mode: Text.Newlines, keys: seq<string>, values: seq<string>)
    requires mode == Text.AllBoundaries || mode == Text.Universal
    requires |keys| == |values| > 0
    requires forall i :: 0 <= i < |keys| ==> keys[i] != "" && '=' !in keys[i] && Text.Plain(keys[i])
    requires forall i :: 0 <= i < |values| ==> Text.Plain(values[i])
    ensures Entries(Text.Lines(mode, Text.JoinLines(Mt5Bridge.KeyLines(keys, values)))) ==
      KeyEntries(keys, values)
  {
    var lines := Mt5Bridge.KeyLines(keys, values);
    LinesEach(mode, keys, values);
    Text.LinesOfJoined(mode, lines);
    EntriesOf(lines, KeyEntries(keys, values));
  }

  /** Lines that each give the matching entry give those entries. */
  lemma EntriesOf(lines: seq<string>, es: seq<Option<(string, string)>>)
    requires |lines| == |es| && forall i :: 0 <= i < |lines| ==> Entry(lines[i]) == es[i]
    ensures Entries(lines) == es
  {
    var got := Entries(lines);
    forall i | 0 <= i < |es|
      ensures got[i] == es[i]
    {
    }
    assert got == es;
  }

  /** Each written line is free of breaks and reads back as its key and value. */
  lemma LinesEach(mode: Text.Newlines, keys: seq<string>, values: seq<string>)
    requires mode == Text.AllBoundaries || mode == Text.Universal
    requires |keys| == |values|
    requires forall i :: 0 <= i < |keys| ==> keys[i] != "" && '=' !in keys[i] && Text.Plain(keys[i])
    requires forall i :: 0 <= i < |values| ==> Text.Plain(values[i])
    ensures forall i :: 0 <= i < |keys| ==>
      Text.NoBreak(mode, Mt5Bridge.KeyLines(keys, values)[i]) && Entry(Mt5Bridge.KeyLines(keys, values)[i]) == KeyEntries(keys, values)[i]
  {
    var lines := Mt5Bridge.KeyLines(keys, values);
    forall i | 0 <= i < |keys|
      ensures Text.NoBreak(mode, lines[i]) && Entry(lines[i]) == KeyEntries(keys, values)[i]
    {
      LineRead(keys[i], values[i]);
      Text.NoBreakUniversal(lines[i]);
    }
  }

  lemma ValuesPlain(s: Mt5Bridge.Signal, env: Mt5Bridge.Env)
    requires Text.Plain(s.symbol) && Text.Plain(s.side) && Text.Plain(Mt5Bridge.When(s, env).iso)
    requires PlainFloats(env.codec)
    ensures forall i :: 0 <= i < 7 ==> Text.Plain(Mt5Bridge.TextValues(s, env)[i])
  {
    var values := Mt5Bridge.TextValues(s, env);
    assert Text.Plain(values[2]);
    assert Text.Plain(values[3]) by {
      if s.price.Some? {
        var x := s.price.value;
        assert Text.Plain(env.codec.formatFloat(x));
      } else {
        assert values[3] == "";
      }
    }
  }

  /** The text format's keys are non-empty plain text free of "=". */
  lemma KeysPlain()
    ensures forall i :: 0 <= i < 7 ==> Mt5Bridge.TextKeys[i] != "" && '=' !in Mt5Bridge.TextKeys[i] && Text.Plain(Mt5Bridge.TextKeys[i])
  {
  }

  /** One written line is free of line breaks and reads back as its key and value. */
  lemma LineRead(key: string, value: string)
    requires key != "" && '=' !in key && Text.Plain(key) && Text.Plain(value)
    ensures NoBreak(Mt5Bridge.Line(key, value)) && Entry(Mt5Bridge.Line(key, value)) == Some((key, value))
  {
    Text.NoBreakAppend(Text.AllBoundaries, key + "=", value);
    EntryOf(key, value);
  }

  predicate NoBreak(line: string) {
    Text.NoBreak(Text.AllBoundaries, line)
  }

  /** Seven entries with the text format's keys fill the dict with exactly those keys and values. */
  lemma CollectSeven(values: seq<string>)
    requires |values| == 7
    ensures Holds(Collect(KeyEntries(Mt5Bridge.TextKeys, values)), values)
  {
    var es := KeyEntries(Mt5Bridge.TextKeys, values);
    forall j | 0 <= j < 7
      ensures Mt5Bridge.TextKeys[j] in Collect(es) && Collect(es)[Mt5Bridge.TextKeys[j]] == JStr(values[j])
    {
      assert LastSets(es, Mt5Bridge.TextKeys[j], j);
      CollectValue(es, Mt5Bridge.TextKeys[j], j);
    }
    assert Mt5Bridge.TextKeys[0] == "symbol" && Mt5Bridge.TextKeys[1] == "side" && Mt5Bridge.TextKeys[2] == "volume" && Mt5Bridge.TextKeys[3] == "price";
    assert Mt5Bridge.TextKeys[4] == "sl_pts" && Mt5Bridge.TextKeys[5] == "tp_pts" && Mt5Bridge.TextKeys[6] == "ts";
    forall k
      ensures k in Collect(es) <==> k in Mt5Bridge.TextKeys
    {
      CollectKeys(es, k);
      if k in Collect(es) {
        var i :| 0 <= i < |es| && Sets(es[i], k);
        assert k == Mt5Bridge.TextKeys[i];
      }
    }
  }

  /** A text file from the writer validates to the writer's signal, with a fresh id and, for an empty
      timestamp, the reader's clock. */
  lemma TextFileValidates(d: map<string, Json>, s: Mt5Bridge.Signal, env: Mt5Bridge.Env, ctx: SignalSchema.Context)
    requires Holds(d, Mt5Bridge.TextValues(s, env))
    requires Mt5Bridge.Acceptable(s, env) && Mt5Bridge.Doubles(s) && ctx.codec == env.codec && ctx.isIso == env.isIso
    requires Faithful(ctx.codec) && PlainFloats(ctx.codec)
    ensures SignalSchema.Validate(JObj(d), ctx) == Success(Read(s, env, ctx))
  {
    assert "id" !in Mt5Bridge.TextKeys && "meta" !in Mt5Bridge.TextKeys;
    HeadFromText(d, s, env, ctx);
    TailFromText(d, s, env, ctx);
    var iso := Mt5Bridge.When(s, env).iso;
    SignalSchema.ValidateOfChecks(d, SignalSchema.Head(SignalSchema.CurrentVersion, s.symbol, s.side, s.volume),
      SignalSchema.Tail(s.price, s.slPts, s.tpPts, if iso == "" then ctx.now else iso), ctx);
  }

  lemma HeadFromText(d: map<string, Json>, s: Mt5Bridge.Signal, env: Mt5Bridge.Env, ctx: SignalSchema.Context)
    requires Holds(d, Mt5Bridge.TextValues(s, env))
    requires Mt5Bridge.Acceptable(s, env) && Mt5Bridge.Doubles(s) && ctx.codec == env.codec
    requires Faithful(ctx.codec) && PlainFloats(ctx.codec)
    ensures SignalSchema.CheckHead(d, ctx) == Success(SignalSchema.Head(SignalSchema.CurrentVersion, s.symbol, s.side, s.volume))
  {
    assert "version" !in Mt5Bridge.TextKeys;
    assert "version" !in d;
    assert Str(GetOr(d, "version", JStr(SignalSchema.CurrentVersion)), ctx.codec) == "1";
    var x := s.volume;
    assert Get(d, "volume") == JStr(ctx.codec.formatFloat(x));
    assert ctx.codec.formatFloat(x) != "";
    assert ctx.codec.parseFloat(ctx.codec.formatFloat(x)) == Some(x);
    assert ToFloat(Get(d, "volume"), ctx.codec) == Some(s.volume);
    assert Get(d, "symbol") == JStr(s.symbol) && Truthy(Get(d, "symbol"));
    assert Get(d, "side") == JStr(s.side);
  }

  lemma TailFromText(d: map<string, Json>, s: Mt5Bridge.Signal, env: Mt5Bridge.Env, ctx: SignalSchema.Context)
    requires Holds(d, Mt5Bridge.TextValues(s, env))
    requires Mt5Bridge.Acceptable(s, env) && Mt5Bridge.Doubles(s) && ctx.codec == env.codec && ctx.isIso == env.isIso
    requires Faithful(ctx.codec) && PlainFloats(ctx.codec)
    ensures var iso := Mt5Bridge.When(s, env).iso;
      SignalSchema.CheckTail(d, ctx) == Success(SignalSchema.Tail(s.price, s.slPts, s.tpPts, if iso == "" then ctx.now else iso))
  {
    PriceOfText(d, s.price, ctx);
    MaybeIntOfText(d, "sl_pts", s.slPts);
    MaybeIntOfText(d, "tp_pts", s.tpPts);
  }

  /** An optional price written as text reads back as itself. */
  lemma PriceOfText(d: map<string, Json>, p: Option<real>, ctx: SignalSchema.Context)
    requires "price" in d && d["price"] == JStr(Mt5Bridge.OptReal(p, ctx.codec)) && (p.Some? ==> IsDouble(p.value))
    requires Faithful(ctx.codec) && PlainFloats(ctx.codec)
    ensures SignalSchema.CheckPrice(d, ctx) == Success(p)
  {
    if p.Some? {
      var x := p.value;
      assert ctx.codec.formatFloat(x) != "";
      assert ctx.codec.parseFloat(ctx.codec.formatFloat(x)) == Some(x);
    }
  }

  /** An optional count written as text reads back as itself. */
  lemma MaybeIntOfText(d: map<string, Json>, k: string, v: Option<int>)
    requires k in d && d[k] == JStr(Mt5Bridge.OptInt(v)) && (v.Some? ==> v.value >= 0)
    ensures SignalSchema.MaybeInt(d, k) == Success(v)
  {
    if v.Some? {
      Text.IntStringRoundTrip(v.value);
    }
  }

  /** The schema signal a reader gets from a text file: the writer's fields, the reader's fresh id. */
  function Read(s: Mt5Bridge.Signal, env: Mt5Bridge.Env, ctx: SignalSchema.Context): SignalSchema.Signal {
    var iso := Mt5Bridge.When(s, env).iso;
    SignalSchema.Signal(SignalSchema.CurrentVersion, s.symbol, s.side, s.volume, s.price, s.slPts, s.tpPts,
                        if iso == "" then ctx.now else iso, JStr(ctx.uuid), None)
  }

  /** A text file the writer wrote, read back by the simulator, validates to the writer's signal with
      the reader's fresh id and, when the writer left the timestamp empty, the reader's clock. */
  lemma TextFileRead(s: Mt5Bridge.Signal, env: Mt5Bridge.Env, name: string, ctx: SignalSchema.Context)
    requires !EndsWith(name, ".sig.json")
    requires Mt5Bridge.Acceptable(s, env) && Text.Plain(s.symbol) && Text.Plain(Mt5Bridge.When(s, env).iso)
    requires ctx.codec == env.codec && ctx.isIso == env.isIso
    requires Mt5Bridge.Doubles(s) && Faithful(env.codec) && PlainFloats(env.codec)
    ensures Outcome(name, Mt5Bridge.TextBody(s, env), ctx) == Success(Read(s, env, ctx))
  {
    assert Text.Plain(s.side);
    TextFileFields(Text.AllBoundaries, s, env);
    TextFileValidates(Fields(Text.Lines(Text.AllBoundaries, Mt5Bridge.TextBody(s, env))), s, env, ctx);
  }

  /** A JSON file the writer wrote, read back by the simulator under its own clock and uuid, validates
      to exactly the signal the writer stored. */
  lemma JsonFileRead(s: Mt5Bridge.Signal, env: Mt5Bridge.Env, name: string, ctx: SignalSchema.Context)
    requires EndsWith(name, ".sig.json")
    requires Mt5Bridge.Acceptable(s, env) && Mt5Bridge.Doubles(s)
    requires Faithful(env.codec) && SignalSchema.Sane(Mt5Bridge.SchemaContext(env))
    requires ctx.codec == env.codec && ctx.isIso == env.isIso
    ensures Mt5Bridge.JsonBody(s, env).Success?
    ensures Outcome(name, Mt5Bridge.JsonBody(s, env).value, ctx) == Success(Mt5Bridge.Stored(s, env))
  {
    Mt5Bridge.JsonBodyAccepts(s, env);
    var st := Mt5Bridge.Stored(s, env);
    var j := SignalSchema.SignalJson(st);
    SignalSchema.StorableJson(st);
    assert ctx.codec.parse(ctx.codec.dumpCompact(j)) == Success(j);
    SignalSchema.Stable(st, ctx);
  }

  /** The writer's default names are the ones the simulator's globs pick up: `.sig` for text and
      `.sig.json` for JSON, both in the folder itself. */
  lemma DefaultNamesMatched(s: Mt5Bridge.Signal, env: Mt5Bridge.Env)
    requires '/' !in s.side && '/' !in Mt5Bridge.When(s, env).stamp
    ensures IsTextName(Mt5Bridge.DefaultName(s, "text", env))
    ensures IsJsonName(Mt5Bridge.DefaultName(s, "json", env))
  {
    Mt5Bridge.NameStaysInFolder(s, "text", env);
    Mt5Bridge.NameStaysInFolder(s, "json", env);
    var base := Text.ReplaceChar(s.symbol, '/', '_') + "_" + s.side + "_" + Mt5Bridge.When(s, env).stamp;
    var t := Mt5Bridge.DefaultName(s, "text", env);
    var j := Mt5Bridge.DefaultName(s, "json", env);
    assert t == base + ".sig" && t[|t| - 4..] == ".sig";
    assert j == base + ".sig.json" && j[|j| - 9..] == ".sig.json";
  }
}

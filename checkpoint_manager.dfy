/** The project checkpoint file `.qai_state.json`: its default contents, how it is loaded, how a
    script run and a checkpoint are recorded in it, and the git status it records. Reading and
    writing the file, the clock and the git subprocesses are the caller's: the file's text (or its
    absence), the time stamp and the finished subprocesses are parameters. */
module CheckpointManager {
  import opened Wrappers
  import opened Json
  import Text
  import Seqs

  const DefaultFilename: string := ".qai_state.json"

  /** The keys of a fresh state. */
  const StateKeys: set<string> := {"version", "project", "sprint", "completed_tasks", "last_commit",
    "modified_files", "last_script", "last_args", "last_run_ts", "checkpoints", "notes"}

  /** The keys that hold lists in a fresh state. */
  const ListKeys: set<string> := {"completed_tasks", "modified_files", "checkpoints"}

  /** `default_state`, for a project directory named `project`. */
  function DefaultState(project: string): (st: map<string, Json>)
    ensures st.Keys == StateKeys
    ensures st["version"] == JInt(1) && st["project"] == JStr(project)
    ensures forall k :: k in ListKeys ==> st[k] == JArr([])
    ensures forall k :: k in StateKeys - ListKeys - {"version", "project"} ==> st[k] == JNull
  {
    map["version" := JInt(1), "project" := JStr(project), "sprint" := JNull, "completed_tasks" := JArr([]),
        "last_commit" := JNull, "modified_files" := JArr([]), "last_script" := JNull, "last_args" := JNull,
        "last_run_ts" := JNull, "checkpoints" := JArr([]), "notes" := JNull]
  }

  /** `load_state`: the default state when the file is missing (`None`) or does not parse, and
      otherwise whatever JSON value the file holds, which need not be an object. */
  function LoadState(file: Option<string>, project: string, codec: Codec): (st: Json)
    ensures file.None? ==> st == JObj(DefaultState(project))
    ensures file.Some? ==> st == match codec.parse(file.value)
                                 case Success(v) => v
                                 case Failure(_) => JObj(DefaultState(project))
  {
    match file
    case None => JObj(DefaultState(project))
    case Some(text) =>
      match codec.parse(text)
      case Success(v) => v
      case Failure(_) => JObj(DefaultState(project))
  }

  /** `save_state` writes json.dump of the state (indent=2, the codec's dumpIndented), and loading that
      file gives the state back when its numbers are doubles. */
  lemma SaveLoadRoundTrip(st: map<string, Json>, project: string, codec: Codec)
    requires Faithful(codec) && Representable(JObj(st))
    ensures LoadState(Some(codec.dumpIndented(JObj(st))), project, codec) == JObj(st)
  {
    assert codec.parse(codec.dumpIndented(JObj(st))) == Success(JObj(st));
  }

  /** A missing file and a corrupt one both load as the default state. */
  lemma LoadFallsBack(file: Option<string>, project: string, codec: Codec)
    requires file.None? || codec.parse(file.value).Failure?
    ensures LoadState(file, project, codec).JObj? && LoadState(file, project, codec).o.Keys == StateKeys
    ensures LoadState(file, project, codec).o["completed_tasks"] == JArr([])
    ensures LoadState(file, project, codec).o["checkpoints"] == JArr([])
  {
  }

  // ---- Git status ----

  /** A finished subprocess: its return code and captured stdout. */
  datatype Completed = Completed(code: int, stdout: string)

  /** The index of the first whitespace character, if any. */
  function FirstSpace(s: string): (r: Option<nat>)
    ensures r.Some? ==> r.value < |s| && Text.IsSpace(s[r.value])
    ensures forall j :: 0 <= j < |s| && (r.None? || j < r.value) ==> !Text.IsSpace(s[j])
  {
    if s == [] then None
    else if Text.IsSpace(s[0]) then Some(0)
    else match FirstSpace(s[1..])
      case None => None
      case Some(i) => Some(i + 1)
  }

  /** Python's `s.split(maxsplit=1)`: leading whitespace is skipped, the first word is split off at
      the next whitespace run, and the rest is kept with its leading whitespace removed. */
  function SplitOnce(s: string): (parts: seq<string>)
    ensures |parts| <= 2
  {
    var t := Text.TrimLeft(s);
    if t == [] then []
    else match FirstSpace(t)
      case None => [t]
      case Some(i) =>
        var rest := Text.TrimLeft(t[i..]);
        if rest == [] then [t[..i]] else [t[..i], rest]
  }

  /** The porcelain lines the parser looks at: each line stripped, blank ones dropped. */
  function Kept(raw: seq<string>): (lines: seq<string>)
    ensures |lines| <= |raw|
  {
    if raw == [] then []
    else
      var init := Kept(raw[..|raw| - 1]);
      var ln := Text.Strip(raw[|raw| - 1]);
      if ln == [] then init else init + [ln]
  }

  /** The kept lines are non-empty and stripped. */
  lemma {:induction false} KeptStripped(raw: seq<string>)
    ensures forall i :: 0 <= i < |Kept(raw)| ==> Kept(raw)[i] != [] && Text.Strip(Kept(raw)[i]) == Kept(raw)[i]
  {
    if raw != [] {
      var n := |raw| - 1;
      KeptStripped(raw[..n]);
      Text.StripIdempotent(raw[n]);
    }
  }

  /** The path a porcelain line `XY <path>` names: the part after the status code; a line of one
      word names none. */
  function PathOf(ln: string): Option<string> {
    var parts := SplitOnce(ln);
    if |parts| == 2 then Some(parts[1]) else None
  }

  /** The paths the loop collects, in order. */
  function Paths(lines: seq<string>): (paths: seq<string>)
    ensures |paths| <= |lines|
  {
    if lines == [] then []
    else
      var init := Paths(lines[..|lines| - 1]);
      match PathOf(lines[|lines| - 1])
      case None => init
      case Some(p) => init + [p]
  }

  /** The porcelain loop of `_git_info`, on the stdout of `git status --porcelain`. */
  method ParsePorcelain(stdout: string) returns (paths: seq<string>)
    ensures paths == Paths(Kept(Text.Lines(Text.AllBoundaries, stdout)))
  {
    var lines := Kept(Text.Lines(Text.AllBoundaries, stdout));
    paths := [];
    for i := 0 to |lines|
      invariant paths == Paths(lines[..i])
    {
      Seqs.TakeOneMore(lines, i);
      var parts := SplitOnce(lines[i]);
      if |parts| == 2 {
        paths := paths + [parts[1]];
      }
    }
    Seqs.TakeAll(lines);
  }

  /** The paths of all lines: those of all lines but the last, then the last line's path if any. */
  lemma PathsSnoc(lines: seq<string>)
    requires lines != []
    ensures Paths(lines) == Paths(lines[..|lines| - 1]) + (match PathOf(lines[|lines| - 1])
                                                              case None => []
                                                              case Some(p) => [p])
  {
  }

  /** Every path taken from a stripped line is non-empty and has no whitespace at either end. */
  lemma {:induction false} PathsTrimmed(lines: seq<string>)
    requires forall i :: 0 <= i < |lines| ==> Text.Strip(lines[i]) == lines[i]
    ensures forall i :: 0 <= i < |Paths(lines)| ==> Trimmed(Paths(lines)[i])
  {
    if lines != [] {
      var n := |lines| - 1;
      var init := lines[..n];
      assert forall i :: 0 <= i < n ==> init[i] == lines[i];
      PathsTrimmed(init);
      PathsSnoc(lines);
      var ps := Paths(init);
      var tail: seq<string> := match PathOf(lines[n]) case None => [] case Some(p) => [p];
      if PathOf(lines[n]).Some? {
        PathTrimmed(lines[n]);
      }
      assert forall i :: 0 <= i < |tail| ==> Trimmed(tail[i]);
      forall i | 0 <= i < |ps + tail|
        ensures Trimmed((ps + tail)[i])
      {
        if i < |ps| {
          assert (ps + tail)[i] == ps[i];
        } else {
          assert (ps + tail)[i] == tail[i - |ps|];
        }
      }
    }
  }

  /** Non-empty, with no whitespace at either end. */
  predicate Trimmed(p: string) {
    p != [] && !Text.IsSpace(p[0]) && !Text.IsSpace(p[|p| - 1])
  }

  lemma PathTrimmed(ln: string)
    requires Text.Strip(ln) == ln && PathOf(ln).Some?
    ensures Trimmed(PathOf(ln).value)
  {
    var t := Text.TrimLeft(ln);
    var i := FirstSpace(t).value;
    var rest := Text.TrimLeft(t[i..]);
    assert t == ln[|ln| - |t|..];
    assert rest == t[i..][|t[i..]| - |rest|..];
    assert rest[|rest| - 1] == ln[|ln| - 1];
  }

  /** The paths git reports are non-empty and have no whitespace at either end. */
  lemma PorcelainTrimmed(stdout: string)
    ensures forall i :: 0 <= i < |Paths(Kept(Text.Lines(Text.AllBoundaries, stdout)))| ==>
      Trimmed(Paths(Kept(Text.Lines(Text.AllBoundaries, stdout)))[i])
  {
    KeptStripped(Text.Lines(Text.AllBoundaries, stdout));
    PathsTrimmed(Kept(Text.Lines(Text.AllBoundaries, stdout)));
  }

  /** A status line: a status code without whitespace, one space and the path. */
  function StatusLine(code: string, path: string): string {
    code + " " + path
  }

  /** A status line with a word for a code and a plain path gives back its path. */
  lemma PathOfStatusLine(code: string, path: string)
    requires code != [] && forall j :: 0 <= j < |code| ==> !Text.IsSpace(code[j])
    requires path != [] && Text.Plain(path)
    ensures Text.Strip(StatusLine(code, path)) == StatusLine(code, path)
    ensures PathOf(StatusLine(code, path)) == Some(path)
  {
    var ln := StatusLine(code, path);
    StatusLineShape(code, path);
    Text.StripFixed(ln);
    SplitStatusLine(ln, |code|, path);
  }

  /** The characters of a status line: the code's, a space, then the path's. */
  lemma StatusLineShape(code: string, path: string)
    requires code != [] && path != []
    ensures var ln := StatusLine(code, path);
      && ln[0] == code[0] && ln[|ln| - 1] == path[|path| - 1]
      && (forall j :: 0 <= j < |code| ==> ln[j] == code[j])
      && ln[|code|..] == " " + path
  {
  }

  /** A line made of a word of n characters, then whitespace, then a trimmed path splits into the
      word and the path. */
  lemma SplitStatusLine(ln: string, n: nat, path: string)
    requires 0 < n < |ln| && forall j :: 0 <= j < n ==> !Text.IsSpace(ln[j])
    requires ln[n..] == " " + path && path != [] && !Text.IsSpace(path[0])
    ensures SplitOnce(ln) == [ln[..n], path]
  {
    assert Text.TrimLeft(ln) == ln;
    FirstSpaceAt(ln, n);
    assert Text.TrimLeft(" " + path) == path by {
      assert (" " + path)[1..] == path;
    }
  }

  lemma {:induction false} FirstSpaceAt(s: string, n: nat)
    requires n < |s| && Text.IsSpace(s[n]) && forall j :: 0 <= j < n ==> !Text.IsSpace(s[j])
    ensures FirstSpace(s) == Some(n)
  {
    if n > 0 {
      FirstSpaceAt(s[1..], n - 1);
    }
  }

  /** The status lines for a list of changes. */
  function StatusLines(codes: seq<string>, paths: seq<string>): (lines: seq<string>)
    requires |codes| == |paths|
    ensures |lines| == |codes| && forall i :: 0 <= i < |codes| ==> lines[i] == StatusLine(codes[i], paths[i])
  {
    seq(|codes|, i requires 0 <= i < |codes| => StatusLine(codes[i], paths[i]))
  }

  /** Git's porcelain output for a list of changes parses back as their paths, in order. */
  lemma PorcelainRoundTrip(codes: seq<string>, paths: seq<string>)
    requires |codes| == |paths| > 0
    requires forall i :: 0 <= i < |codes| ==>
      codes[i] != [] && Text.NoBreak(Text.AllBoundaries, codes[i]) && forall j :: 0 <= j < |codes[i]| ==> !Text.IsSpace(codes[i][j])
    requires forall i :: 0 <= i < |paths| ==> paths[i] != [] && Text.Plain(paths[i])
    ensures Paths(Kept(Text.Lines(Text.AllBoundaries, Text.JoinLines(StatusLines(codes, paths))))) == paths
  {
    var lines := StatusLines(codes, paths);
    forall i | 0 <= i < |lines|
      ensures Text.NoBreak(Text.AllBoundaries, lines[i])
      ensures Text.Strip(lines[i]) == lines[i] && PathOf(lines[i]) == Some(paths[i])
    {
      Text.NoBreakAppend(Text.AllBoundaries, codes[i], " ");
      Text.NoBreakAppend(Text.AllBoundaries, codes[i] + " ", paths[i]);
      PathOfStatusLine(codes[i], paths[i]);
    }
    Text.LinesOfJoined(Text.AllBoundaries, lines);
    KeptPaths(lines, paths);
  }

  /** Stripped non-empty lines are all kept, and lines that each name a path give those paths. */
  lemma {:induction false} KeptPaths(lines: seq<string>, paths: seq<string>)
    requires |lines| == |paths|
    requires forall i :: 0 <= i < |lines| ==> lines[i] != [] && Text.Strip(lines[i]) == lines[i] && PathOf(lines[i]) == Some(paths[i])
    ensures Kept(lines) == lines && Paths(lines) == paths
  {
    if lines != [] {
      var n := |lines| - 1;
      KeptPaths(lines[..n], paths[..n]);
      Seqs.TakeOneMore(lines, n);
      Seqs.TakeOneMore(paths, n);
      Seqs.TakeAll(lines);
      Seqs.TakeAll(paths);
    }
  }

  /** `_git_info`: the commit and the changed paths. `revParse` and `status` are the finished
      `git rev-parse HEAD` and `git status --porcelain`, None when running git raised; when the
      first raised the second is never run. */
  function GitInfo(revParse: Option<Completed>, status: Option<Completed>): (info: map<string, Json>)
    ensures info.Keys == {"last_commit", "modified_files"}
    ensures revParse.None? ==> info["last_commit"] == JNull && info["modified_files"] == JArr([])
    ensures info["last_commit"] != JNull <==> revParse.Some? && revParse.value.code == 0
  {
    match revParse
    case None => map["last_commit" := JNull, "modified_files" := JArr([])]
    case Some(r) =>
      var commit := if r.code == 0 then JStr(Text.Strip(r.stdout)) else JNull;
      var files :=
        if status.Some? && status.value.code == 0 && status.value.stdout != "" then
          JArr(Strs(Paths(Kept(Text.Lines(Text.AllBoundaries, status.value.stdout)))))
        else JArr([]);
      map["last_commit" := commit, "modified_files" := files]
  }

  // ---- Recording a script run ----

  /** No value occurs twice. */
  predicate NoDup(s: seq<Json>) {
    forall i, j :: 0 <= i < j < |s| ==> s[i] != s[j]
  }

  /** `list(dict.fromkeys(s))`: the first occurrence of each value, in order. */
  function Dedup(s: seq<Json>): (r: seq<Json>)
    ensures NoDup(r) && |r| <= |s|
    ensures forall x :: x in r <==> x in s
  {
    if s == [] then []
    else
      var n := |s| - 1;
      var d := Dedup(s[..n]);
      assert s == s[..n] + [s[n]];
      if s[n] in d then d else d + [s[n]]
  }

  /** The values of a list without repeats keep their places. */
  lemma {:induction false} DedupNoDup(s: seq<Json>)
    requires NoDup(s)
    ensures Dedup(s) == s
  {
    if s != [] {
      var n := |s| - 1;
      DedupNoDup(s[..n]);
      assert s[n] !in s[..n];
      assert s == s[..n] + [s[n]];
    }
  }

  /** What the first occurrences in `a` are, they stay, in the same places, when more values follow. */
  lemma {:induction false} DedupPrefix(a: seq<Json>, b: seq<Json>)
    ensures |Dedup(a)| <= |Dedup(a + b)| && Dedup(a + b)[..|Dedup(a)|] == Dedup(a)
  {
    if b == [] {
      assert a + b == a;
    } else {
      var m := |b| - 1;
      DedupPrefix(a, b[..m]);
      Seqs.DropLastOfAppend(a, b);
    }
  }

  /** The merge of completed tasks: `list(dict.fromkeys(existing + completed_tasks))`. The stored value
      must be a list (anything else raises TypeError on `+`) of hashable values. */
  function MergeTasks(existing: Json, tasks: seq<string>): (r: Result<seq<Json>, string>)
    ensures r.Success? <==> existing.JArr? && forall i :: 0 <= i < |existing.a| ==> Hashable(existing.a[i])
  {
    if !existing.JArr? then Failure("TypeError: can only concatenate list to list")
    else if exists i :: 0 <= i < |existing.a| && !Hashable(existing.a[i]) then Failure("TypeError: unhashable type")
    else Success(Dedup(existing.a + Strs(tasks)))
  }

  /** The merged list has no repeats, holds every stored and every new task, and keeps the stored
      tasks first, in their order, when they had no repeats. */
  lemma TasksMerged(existing: Json, tasks: seq<string>)
    requires MergeTasks(existing, tasks).Success?
    ensures var m := MergeTasks(existing, tasks).value;
      && NoDup(m)
      && (forall x :: x in m <==> x in existing.a || exists t :: t in tasks && x == JStr(t))
      && (NoDup(existing.a) ==> |existing.a| <= |m| && m[..|existing.a|] == existing.a)
  {
    var a := existing.a;
    var m := MergeTasks(existing, tasks).value;
    forall x ensures x in m <==> x in a || exists t :: t in tasks && x == JStr(t) {
      if x in Strs(tasks) {
        var i :| 0 <= i < |tasks| && Strs(tasks)[i] == x;
        assert tasks[i] in tasks;
      }
      if exists t :: t in tasks && x == JStr(t) {
        var t :| t in tasks && x == JStr(t);
        var i :| 0 <= i < |tasks| && tasks[i] == t;
        assert Strs(tasks)[i] == x;
      }
    }
    if NoDup(a) {
      DedupPrefix(a, Strs(tasks));
      DedupNoDup(a);
    }
  }

  /** A checkpoint as stored: a copy of the given dict with `ts` set to now unless it has one. */
  function WithTs(ck: map<string, Json>, now: string): (e: map<string, Json>)
    ensures "ts" in e && e.Keys == ck.Keys + {"ts"}
    ensures "ts" in ck ==> e == ck
    ensures forall k :: k in ck && k != "ts" ==> e[k] == ck[k]
  {
    if "ts" in ck then ck else ck["ts" := JStr(now)]
  }

  function Stamped(cks: seq<map<string, Json>>, now: string): (es: seq<Json>)
    ensures |es| == |cks| && forall i :: 0 <= i < |cks| ==> es[i] == JObj(WithTs(cks[i], now))
  {
    seq(|cks|, i requires 0 <= i < |cks| => JObj(WithTs(cks[i], now)))
  }

  lemma StampedSnoc(cks: seq<map<string, Json>>, i: nat, now: string)
    requires i < |cks|
    ensures Stamped(cks[..i + 1], now) == Stamped(cks[..i], now) + [JObj(WithTs(cks[i], now))]
  {
    var a := Stamped(cks[..i + 1], now);
    var b := Stamped(cks[..i], now) + [JObj(WithTs(cks[i], now))];
    assert forall j :: 0 <= j < |a| ==> a[j] == b[j];
  }

  /** The arguments of `record_script_run`: the script, its arguments (None and {} both record {}),
      the checkpoints (None and [] both add none), the sprint and the completed tasks. */
  datatype Run = Run(script: string, args: Option<map<string, Json>>, checkpoints: seq<map<string, Json>>,
                     sprint: Option<int>, tasks: Option<seq<string>>)

  /** The keys a run writes in any case. */
  const RunKeys: set<string> := {"last_script", "last_args", "last_run_ts", "last_commit", "modified_files"}

  /** The simple fields of a run: script, arguments, time, and the sprint when one is given. */
  function Simple(st: map<string, Json>, run: Run, now: string): (m: map<string, Json>)
    ensures m.Keys == st.Keys + {"last_script", "last_args", "last_run_ts"} + (if run.sprint.Some? then {"sprint"} else {})
    ensures m["last_script"] == JStr(run.script) && m["last_run_ts"] == JStr(now)
    ensures m["last_args"] == JObj(if run.args.Some? then run.args.value else map[])
    ensures run.sprint.Some? ==> m["sprint"] == JInt(run.sprint.value)
    ensures forall k :: k in st && k !in {"last_script", "last_args", "last_run_ts"} && (k != "sprint" || run.sprint.None?) ==> m[k] == st[k]
  {
    var m := st["last_script" := JStr(run.script)]
              ["last_args" := JObj(if run.args.Some? then run.args.value else map[])]
              ["last_run_ts" := JStr(now)];
    if run.sprint.Some? then m["sprint" := JInt(run.sprint.value)] else m
  }

  /** The task merge, when tasks are given. */
  function Merged(m: map<string, Json>, tasks: Option<seq<string>>): (r: Result<map<string, Json>, string>)
    ensures r.Success? ==> r.value.Keys == m.Keys + (if tasks.Some? then {"completed_tasks"} else {})
    ensures r.Success? ==> forall k :: k in m && k != "completed_tasks" ==> r.value[k] == m[k]
    ensures tasks.None? ==> r == Success(m)
  {
    if tasks.None? then Success(m)
    else match MergeTasks(GetOr(m, "completed_tasks", JArr([])), tasks.value)
      case Failure(e) => Failure(e)
      case Success(l) => Success(m["completed_tasks" := JArr(l)])
  }

  /** git's commit and changed files, always written. */
  function WithGit(m: map<string, Json>, git: map<string, Json>): (r: map<string, Json>)
    requires git.Keys == {"last_commit", "modified_files"}
    ensures r.Keys == m.Keys + git.Keys && forall k :: k in git ==> r[k] == git[k]
    ensures forall k :: k in m && k !in git ==> r[k] == m[k]
  {
    m["last_commit" := git["last_commit"]]["modified_files" := git["modified_files"]]
  }

  /** Appending the checkpoints to the stored list, which `setdefault` creates when it is missing; a
      stored value that is not a list has no `append`. Nothing happens without checkpoints. */
  function AddCheckpoints(st: map<string, Json>, cks: seq<map<string, Json>>, now: string): (r: Result<map<string, Json>, string>)
    ensures r.Success? ==> r.value.Keys == st.Keys + (if cks == [] then {} else {"checkpoints"})
    ensures r.Success? ==> forall k :: k in st && k != "checkpoints" ==> r.value[k] == st[k]
    ensures r.Failure? <==> cks != [] && !GetOr(st, "checkpoints", JArr([])).JArr?
    ensures r.Success? && cks != [] ==>
      r.value["checkpoints"] == JArr(GetOr(st, "checkpoints", JArr([])).a + Stamped(cks, now))
  {
    if cks == [] then Success(st)
    else match GetOr(st, "checkpoints", JArr([]))
      case JArr(a) => Success(st["checkpoints" := JArr(a + Stamped(cks, now))])
      case _ => Failure("AttributeError: object has no attribute 'append'")
  }

  /** `record_script_run` on the loaded state: the state it saves, or the exception it raises (a
      loaded value that is not an object cannot be assigned to). */
  function Recorded(st: Json, run: Run, git: map<string, Json>, now: string): (r: Result<map<string, Json>, string>)
    requires git.Keys == {"last_commit", "modified_files"}
    ensures !st.JObj? ==> r.Failure?
    ensures r.Success? ==> st.JObj? && st.o.Keys + {"last_script", "last_args", "last_run_ts", "last_commit", "modified_files"} <= r.value.Keys
  {
    if !st.JObj? then Failure("TypeError: the state is not a dict")
    else match Merged(Simple(st.o, run, now), run.tasks)
      case Failure(e) => Failure(e)
      case Success(m) => AddCheckpoints(WithGit(m, git), run.checkpoints, now)
  }

  /** A run fails at the first step that fails. */
  lemma RecordedFailure(st: Json, run: Run, git: map<string, Json>, now: string)
    requires git.Keys == {"last_commit", "modified_files"}
    ensures Recorded(st, run, git, now).Failure? <==>
      || !st.JObj?
      || Merged(Simple(st.o, run, now), run.tasks).Failure?
      || AddCheckpoints(WithGit(Merged(Simple(st.o, run, now), run.tasks).value, git), run.checkpoints, now).Failure?
  {
  }

  /** A key the simple fields do not name keeps its value. */
  lemma SimpleKeeps(st: map<string, Json>, run: Run, now: string, k: string, d: Json)
    requires k != "last_script" && k != "last_args" && k != "last_run_ts" && k != "sprint"
    ensures GetOr(Simple(st, run, now), k, d) == GetOr(st, k, d)
  {
  }

  /** A key other than completed_tasks keeps its value through the task merge. */
  lemma MergedKeeps(m: map<string, Json>, tasks: Option<seq<string>>, k: string, d: Json)
    requires k != "completed_tasks" && Merged(m, tasks).Success?
    ensures GetOr(Merged(m, tasks).value, k, d) == GetOr(m, k, d)
  {
  }

  /** A key git does not write keeps its value. */
  lemma WithGitKeeps(m: map<string, Json>, git: map<string, Json>, k: string, d: Json)
    requires git.Keys == {"last_commit", "modified_files"} && k != "last_commit" && k != "modified_files"
    ensures GetOr(WithGit(m, git), k, d) == GetOr(m, k, d)
  {
  }

  /** A recorded run is the three steps composed. */
  lemma RecordedSteps(st: Json, run: Run, git: map<string, Json>, now: string)
    requires git.Keys == {"last_commit", "modified_files"}
    requires Recorded(st, run, git, now).Success?
    ensures st.JObj? && Merged(Simple(st.o, run, now), run.tasks).Success?
    ensures Recorded(st, run, git, now)
            == AddCheckpoints(WithGit(Merged(Simple(st.o, run, now), run.tasks).value, git), run.checkpoints, now)
  {
  }

  /** `record_script_run`, from the loaded state to the state it saves. */
  method RecordScriptRun(st: Json, run: Run, git: map<string, Json>, now: string)
    returns (r: Result<map<string, Json>, string>)
    requires git.Keys == {"last_commit", "modified_files"}
    ensures r == Recorded(st, run, git, now)
  {
    if !st.JObj? {
      return Failure("TypeError: the state is not a dict");
    }
    var merged := Merged(Simple(st.o, run, now), run.tasks);
    if merged.Failure? {
      return Failure(merged.error);
    }
    var m := WithGit(merged.value, git);
    if run.checkpoints != [] {
      var stored := GetOr(m, "checkpoints", JArr([]));
      if !stored.JArr? {
        return Failure("AttributeError: object has no attribute 'append'");
      }
      var list := stored.a;
      for i := 0 to |run.checkpoints|
        invariant list == stored.a + Stamped(run.checkpoints[..i], now)
      {
        var entry := run.checkpoints[i];
        if "ts" !in entry {
          entry := entry["ts" := JStr(now)];
        }
        assert entry == WithTs(run.checkpoints[i], now);
        StampedSnoc(run.checkpoints, i, now);
        Seqs.AppendAssoc(stored.a, Stamped(run.checkpoints[..i], now), [JObj(entry)]);
        list := list + [JObj(entry)];
      }
      Seqs.TakeAll(run.checkpoints);
      m := m["checkpoints" := JArr(list)];
    }
    r := Success(m);
  }

  /** The keys a recorded run leaves: the old ones, those it always writes, and the sprint, the
      tasks and the checkpoints when given. */
  lemma RecordedKeys(st: Json, run: Run, git: map<string, Json>, now: string)
    requires git.Keys == {"last_commit", "modified_files"}
    requires Recorded(st, run, git, now).Success?
    ensures st.JObj?
    ensures Recorded(st, run, git, now).value.Keys ==
      st.o.Keys + RunKeys + (if run.sprint.Some? then {"sprint"} else {})
      + (if run.tasks.Some? then {"completed_tasks"} else {})
      + (if run.checkpoints != [] then {"checkpoints"} else {})
  {
    RecordedSteps(st, run, git, now);
  }

  /** What a recorded run sets: the script, its arguments, the time, the sprint only when one is
      given, git's commit and files. */
  lemma RecordedFields(st: Json, run: Run, git: map<string, Json>, now: string)
    requires git.Keys == {"last_commit", "modified_files"}
    requires Recorded(st, run, git, now).Success?
    ensures st.JObj?
    ensures var m := Recorded(st, run, git, now).value;
      && "last_script" in m && m["last_script"] == JStr(run.script)
      && "last_run_ts" in m && m["last_run_ts"] == JStr(now)
      && "last_args" in m && m["last_args"] == JObj(if run.args.Some? then run.args.value else map[])
      && "last_commit" in m && m["last_commit"] == git["last_commit"]
      && "modified_files" in m && m["modified_files"] == git["modified_files"]
      && (run.sprint.Some? ==> "sprint" in m && m["sprint"] == JInt(run.sprint.value))
  {
    RecordedSteps(st, run, git, now);
  }

  /** Every key a run does not write keeps its value, and so does the sprint when none is given. */
  lemma RecordedKeeps(st: Json, run: Run, git: map<string, Json>, now: string)
    requires git.Keys == {"last_commit", "modified_files"}
    requires Recorded(st, run, git, now).Success?
    ensures st.JObj?
    ensures var m := Recorded(st, run, git, now).value;
      forall k :: (k in st.o && k !in RunKeys && k != "completed_tasks" && k != "checkpoints"
                   && (k != "sprint" || run.sprint.None?)) ==> k in m && m[k] == st.o[k]
  {
    RecordedSteps(st, run, git, now);
  }

  /** A run fails exactly when the state is not an object, when the tasks are merged into a stored
      value that is not a list of hashable values, or when checkpoints are appended to a stored
      value that is not a list. */
  lemma RecordedFailsIff(st: Json, run: Run, git: map<string, Json>, now: string)
    requires git.Keys == {"last_commit", "modified_files"}
    ensures Recorded(st, run, git, now).Failure? <==>
      || !st.JObj?
      || (run.tasks.Some? && MergeTasks(GetOr(st.o, "completed_tasks", JArr([])), run.tasks.value).Failure?)
      || (run.checkpoints != [] && !GetOr(st.o, "checkpoints", JArr([])).JArr?)
  {
    RecordedFailure(st, run, git, now);
    if st.JObj? {
      SimpleKeeps(st.o, run, now, "completed_tasks", JArr([]));
      if Merged(Simple(st.o, run, now), run.tasks).Success? {
        StoredCheckpoints(st.o, run, git, now);
      }
    }
  }

  /** The checkpoints of a run follow the stored ones in the given order; each has a time stamp, and
      one it already had is kept. */
  lemma CheckpointsAppended(st: Json, run: Run, git: map<string, Json>, now: string)
    requires git.Keys == {"last_commit", "modified_files"}
    requires Recorded(st, run, git, now).Success? && run.checkpoints != []
    ensures st.JObj? && GetOr(st.o, "checkpoints", JArr([])).JArr?
    ensures var stored := GetOr(st.o, "checkpoints", JArr([])).a;
      var list := Recorded(st, run, git, now).value["checkpoints"];
      && list.JArr? && |list.a| == |stored| + |run.checkpoints| && list.a[..|stored|] == stored
      && forall i :: 0 <= i < |run.checkpoints| ==>
           var e := list.a[|stored| + i];
           e.JObj? && "ts" in e.o && ("ts" in run.checkpoints[i] ==> e.o == run.checkpoints[i])
           && (forall k :: k in run.checkpoints[i] ==> k in e.o)
  {
    RecordedSteps(st, run, git, now);
    StoredCheckpoints(st.o, run, git, now);
  }

  /** The steps before the checkpoints leave the stored checkpoint list alone. */
  lemma StoredCheckpoints(st: map<string, Json>, run: Run, git: map<string, Json>, now: string)
    requires git.Keys == {"last_commit", "modified_files"}
    requires Merged(Simple(st, run, now), run.tasks).Success?
    ensures GetOr(WithGit(Merged(Simple(st, run, now), run.tasks).value, git), "checkpoints", JArr([]))
            == GetOr(st, "checkpoints", JArr([]))
  {
    var s := Simple(st, run, now);
    SimpleKeeps(st, run, now, "checkpoints", JArr([]));
    MergedKeeps(s, run.tasks, "checkpoints", JArr([]));
    WithGitKeeps(Merged(s, run.tasks).value, git, "checkpoints", JArr([]));
  }

  // ---- Adding one checkpoint ----

  /** The entry `add_checkpoint` appends: `typ or "unknown"`, `meta or {}`, and the time. */
  function Checkpoint(path: string, typ: Option<string>, meta: Option<map<string, Json>>, now: string): map<string, Json> {
    map["path" := JStr(path),
        "type" := JStr(if typ.Some? && typ.value != "" then typ.value else "unknown"),
        "meta" := JObj(if meta.Some? then meta.value else map[]),
        "ts" := JStr(now)]
  }

  /** `add_checkpoint` on the loaded state: appends one entry to the checkpoint list, created when
      missing. A state that is not an object, or a stored value that is not a list, raises. */
  function AddCheckpoint(st: Json, path: string, typ: Option<string>, meta: Option<map<string, Json>>, now: string)
    : (r: Result<map<string, Json>, string>)
    ensures r.Failure? <==> !st.JObj? || !GetOr(st.o, "checkpoints", JArr([])).JArr?
    ensures r.Success? ==> r.value.Keys == st.o.Keys + {"checkpoints"}
  {
    if !st.JObj? then Failure("AttributeError: object has no attribute 'setdefault'")
    else AddCheckpoints(st.o, [map["path" := JStr(path)]["type" := JStr(if typ.Some? && typ.value != "" then typ.value else "unknown")]
                                  ["meta" := JObj(if meta.Some? then meta.value else map[])]["ts" := JStr(now)]], now)
  }

  /** Adding a checkpoint appends exactly one entry, with the type defaulting to "unknown" and the meta
      to {}, and changes nothing else. */
  lemma OneCheckpointAdded(st: Json, path: string, typ: Option<string>, meta: Option<map<string, Json>>, now: string)
    requires AddCheckpoint(st, path, typ, meta, now).Success?
    ensures st.JObj? && GetOr(st.o, "checkpoints", JArr([])).JArr?
    ensures var m := AddCheckpoint(st, path, typ, meta, now).value;
      && m.Keys == st.o.Keys + {"checkpoints"}
      && m["checkpoints"] == JArr(GetOr(st.o, "checkpoints", JArr([])).a + [JObj(Checkpoint(path, typ, meta, now))])
      && (forall k :: k in st.o && k != "checkpoints" ==> m[k] == st.o[k])
  {
    var e := map["path" := JStr(path)]["type" := JStr(if typ.Some? && typ.value != "" then typ.value else "unknown")]
               ["meta" := JObj(if meta.Some? then meta.value else map[])]["ts" := JStr(now)];
    assert e == Checkpoint(path, typ, meta, now);
    assert Stamped([e], now) == [JObj(e)];
  }

  /** A fresh project accepts a checkpoint: the default state has an empty list for it. */
  lemma FirstCheckpoint(project: string, path: string, typ: Option<string>, meta: Option<map<string, Json>>, now: string)
    ensures AddCheckpoint(JObj(DefaultState(project)), path, typ, meta, now).Success?
    ensures AddCheckpoint(JObj(DefaultState(project)), path, typ, meta, now).value["checkpoints"] ==
      JArr([JObj(Checkpoint(path, typ, meta, now))])
  {
    OneCheckpointAdded(JObj(DefaultState(project)), path, typ, meta, now);
  }
}

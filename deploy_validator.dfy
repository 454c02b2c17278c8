/** The pre-release check of a deployment manifest: every artifact must exist, match its checksum and
    have passed the required checks; the failures make up a rollback plan. */
module DeployValidator {
  import opened Wrappers
  import opened Json
  import Seqs
  import Ordering
  import AuditLog

  const RequiredChecks: seq<string> := ["ci"]
  const Error := "error"
  const DefaultTarget := "previous-stable"

  /** ValidationIssue. */
  datatype Issue = Issue(artifact: string, message: string, check: Option<string>, severity: string)

  /** ValidationReport. */
  datatype Report = Report(release: string, passed: bool, checked: seq<string>, issues: seq<Issue>,
                           rollbackPlan: seq<string>, manifestPath: Option<string>)

  /** The file system as validate sees it: whether a path exists, and the SHA-256 hex digest of a file. */
  datatype Disk = Disk(present: string -> bool, sha256: string -> string)

  /** validate's manifest argument: a dict, or a path whose text is read (None when reading raises). */
  datatype Manifest = Given(dict: map<string, Json>) | Stored(path: string, text: Option<string>)

  function NoGet(v: Json): string {
    "AttributeError: '" + TypeName(v) + "' object has no attribute 'get'"
  }

  /** _load_manifest, followed by the first `.get`, which needs a dict. */
  function Load(manifest: Manifest, codec: Codec): (r: Result<(map<string, Json>, Option<string>), string>)
    ensures manifest.Given? ==> r == Success((manifest.dict, None))
    ensures manifest.Stored? && r.Success? ==>
      r.value.1 == Some(manifest.path) && manifest.text.Some? && codec.parse(manifest.text.value) == Success(JObj(r.value.0))
  {
    match manifest
    case Given(d) => Success((d, None))
    case Stored(p, None) => Failure("FileNotFoundError: " + p)
    case Stored(p, Some(t)) =>
      match codec.parse(t)
      case Failure(e) => Failure(e)
      case Success(JObj(o)) => Success((o, Some(p)))
      case Success(v) => Failure(NoGet(v))
  }

  /** `str(manifest.get("release") or manifest.get("version") or "unknown")`. */
  function Release(m: map<string, Json>, codec: Codec): string {
    Str(if Truthy(Get(m, "release")) then m["release"]
        else if Truthy(Get(m, "version")) then m["version"]
        else JStr("unknown"), codec)
  }

  /** What `for item in manifest.get("artifacts", [])` iterates over, or what it raises: iterating a
      non-empty dict or str hands `.get` a str. */
  function ArtifactItems(v: Json): (r: Result<seq<Json>, string>)
    ensures v.JArr? ==> r == Success(v.a)
    ensures r.Success? ==> v.JArr? || r.value == []
  {
    match v
    case JArr(a) => Success(a)
    case JObj(o) => if o == map[] then Success([]) else Failure(NoGet(JStr("")))
    case JStr(s) => if s == "" then Success([]) else Failure(NoGet(JStr("")))
    case _ => Failure("TypeError: '" + TypeName(v) + "' object is not iterable")
  }

  /** `str(item.get("name") or item.get("path") or "unknown")`. */
  function NameOf(o: map<string, Json>, codec: Codec): string {
    Str(if Truthy(Get(o, "name")) then o["name"]
        else if Truthy(Get(o, "path")) then o["path"]
        else JStr("unknown"), codec)
  }

  /** The required checks an artifact's "checks" dict does not mark as passed, in their order. */
  function Missing(required: seq<string>, checks: map<string, Json>): (r: seq<string>)
    ensures forall c :: c in r <==> c in required && !Truthy(GetOr(checks, c, JBool(false)))
    ensures Seqs.Subseq(r, required)
    decreases |required|
  {
    if required == [] then []
    else
      var rest := Missing(required[..|required| - 1], checks);
      var c := required[|required| - 1];
      assert required == required[..|required| - 1] + [c];
      assert (rest + [c])[..|rest|] == rest;
      Seqs.SubseqMembers(rest, required[..|required| - 1]);
      if Truthy(GetOr(checks, c, JBool(false))) then rest else rest + [c]
  }

  /** One issue per missing check, naming the check. */
  function MissingIssues(name: string, missing: seq<string>): (r: seq<Issue>)
    ensures |r| == |missing|
    ensures forall i :: 0 <= i < |r| ==>
      r[i] == Issue(name, "required check '" + missing[i] + "' not passed", Some(missing[i]), Error)
  {
    seq(|missing|, i requires 0 <= i < |missing| =>
      Issue(name, "required check '" + missing[i] + "' not passed", Some(missing[i]), Error))
  }

  /** What one artifact contributes: its name, whether it went into checked_artifacts, and its issues; it
      goes into the rollback list exactly when it has issues. */
  datatype Verdict = Verdict(name: string, checked: bool, issues: seq<Issue>)

  /** A path to a file that exists. */
  predicate Present(o: map<string, Json>, disk: Disk) {
    "path" in o && o["path"].JStr? && o["path"].s != "" && disk.present(o["path"].s)
  }

  /** The checksum is absent, empty or right. */
  predicate ChecksumOk(o: map<string, Json>, disk: Disk)
    requires Present(o, disk)
  {
    !Truthy(Get(o, "checksum")) || o["checksum"] == JStr(disk.sha256(o["path"].s))
  }

  /** The body of validate's loop for one artifact. */
  function Judge(item: Json, disk: Disk, required: seq<string>, codec: Codec): (r: Result<Verdict, string>)
    ensures !item.JObj? ==> r.Failure?
    ensures r.Success? ==> r.value.name == NameOf(item.o, codec)
    ensures r.Success? ==> (r.value.checked <==> Present(item.o, disk))
    ensures r.Success? && !r.value.checked ==> |r.value.issues| == 1
    ensures r.Success? && r.value.checked && !ChecksumOk(item.o, disk) ==>
      r.value.issues == [Issue(r.value.name, "checksum mismatch", Some("checksum"), Error)]
    ensures r.Success? && r.value.checked && ChecksumOk(item.o, disk) ==>
      |r.value.issues| == |Missing(required, Checks(item.o))|
      && forall c :: c in required ==>
           (Issue(r.value.name, "required check '" + c + "' not passed", Some(c), Error) in r.value.issues
            <==> !Truthy(GetOr(Checks(item.o), c, JBool(false))))
  {
    if !item.JObj? then Failure(NoGet(item))
    else
      var o := item.o;
      var name := NameOf(o, codec);
      var pv := Get(o, "path");
      if !Truthy(pv) then Success(Verdict(name, false, [Issue(name, "missing artifact path", None, Error)]))
      else if !pv.JStr? then Failure("TypeError: expected str, bytes or os.PathLike object, not " + TypeName(pv))
      else if !disk.present(pv.s) then Success(Verdict(name, false, [Issue(name, "artifact not found at " + pv.s, None, Error)]))
      else if !ChecksumOk(o, disk) then Success(Verdict(name, true, [Issue(name, "checksum mismatch", Some("checksum"), Error)]))
      else
        var checks := GetOr(o, "checks", JObj(map[]));
        if required != [] && !checks.JObj? then Failure(NoGet(checks))
        else
          var missing := Missing(required, Checks(o));
          var issues := MissingIssues(name, missing);
          assert forall c :: c in missing ==> Issue(name, "required check '" + c + "' not passed", Some(c), Error) in issues by {
            forall c | c in missing
              ensures Issue(name, "required check '" + c + "' not passed", Some(c), Error) in issues
            {
              var i :| 0 <= i < |missing| && missing[i] == c;
              assert issues[i] == Issue(name, "required check '" + c + "' not passed", Some(c), Error);
            }
          }
          Success(Verdict(name, true, issues))
  }

  /** The artifact's "checks" dict; an absent or non-dict entry reads as empty (a non-dict one raises
      unless there are no required checks). */
  function Checks(o: map<string, Json>): map<string, Json> {
    var checks := GetOr(o, "checks", JObj(map[]));
    if checks.JObj? then checks.o else map[]
  }

  /** The verdicts on the artifacts in order, or the first exception. */
  function Verdicts(items: seq<Json>, disk: Disk, required: seq<string>, codec: Codec): (r: Result<seq<Verdict>, string>)
    ensures r.Success? ==> |r.value| == |items|
    ensures r.Success? ==> forall i :: 0 <= i < |items| ==> Judge(items[i], disk, required, codec) == Success(r.value[i])
    decreases |items|
  {
    if items == [] then Success([])
    else
      var n := |items| - 1;
      match Verdicts(items[..n], disk, required, codec)
      case Failure(e) => Failure(e)
      case Success(vs) =>
        match Judge(items[n], disk, required, codec)
        case Failure(e) => Failure(e)
        case Success(v) =>
          assert items == items[..n] + [items[n]];
          assert forall i :: 0 <= i < n ==> (vs + [v])[i] == vs[i];
          Success(vs + [v])
  }

  /** An exception part-way through is the exception of the whole loop. */
  lemma {:induction false} VerdictsFailEarly(items: seq<Json>, k: nat, disk: Disk, required: seq<string>, codec: Codec)
    requires k <= |items|
    requires Verdicts(items[..k], disk, required, codec).Failure?
    ensures Verdicts(items, disk, required, codec) == Verdicts(items[..k], disk, required, codec)
    decreases |items| - k
  {
    if k < |items| {
      Seqs.TakeOneMore(items, k);
      assert items[..k + 1][..k] == items[..k];
      VerdictsFailEarly(items, k + 1, disk, required, codec);
    } else {
      assert items[..k] == items;
    }
  }

  lemma VerdictsStep(items: seq<Json>, k: nat, vs: seq<Verdict>, disk: Disk, required: seq<string>, codec: Codec)
    requires k < |items| && Verdicts(items[..k], disk, required, codec) == Success(vs)
    ensures Verdicts(items[..k + 1], disk, required, codec) ==
      match Judge(items[k], disk, required, codec)
      case Failure(e) => Failure(e)
      case Success(v) => Success(vs + [v])
  {
    Seqs.TakeOneMore(items, k);
    assert items[..k + 1][..k] == items[..k];
  }

  /** The three lists validate accumulates. */
  datatype Tally = Tally(checked: seq<string>, issues: seq<Issue>, rollback: seq<string>)

  /** The lists after one more artifact. */
  function Add(t: Tally, v: Verdict): Tally {
    Tally(t.checked + (if v.checked then [v.name] else []),
          t.issues + v.issues,
          t.rollback + (if v.issues != [] then [v.name] else []))
  }

  /** The lists after a sequence of verdicts. */
  function Tallied(vs: seq<Verdict>): Tally
    decreases |vs|
  {
    if vs == [] then Tally([], [], []) else Add(Tallied(vs[..|vs| - 1]), vs[|vs| - 1])
  }

  lemma TalliedStep(vs: seq<Verdict>, v: Verdict)
    ensures Tallied(vs + [v]) == Add(Tallied(vs), v)
  {
    assert (vs + [v])[..|vs|] == vs;
  }

  /** An artifact is listed as checked, or as to roll back, exactly when its verdict says so; there are
      no issues exactly when no verdict has any. */
  lemma {:induction false} TalliedMeaning(vs: seq<Verdict>)
    ensures forall x :: x in Tallied(vs).checked <==> exists i :: 0 <= i < |vs| && vs[i].checked && vs[i].name == x
    ensures forall x :: x in Tallied(vs).rollback <==> exists i :: 0 <= i < |vs| && vs[i].issues != [] && vs[i].name == x
    ensures Tallied(vs).issues == [] <==> forall i :: 0 <= i < |vs| ==> vs[i].issues == []
    ensures |Tallied(vs).checked| <= |vs| && |Tallied(vs).rollback| <= |vs|
    decreases |vs|
  {
    if vs != [] {
      var n := |vs| - 1;
      var p := vs[..n];
      TalliedMeaning(p);
      assert forall i :: 0 <= i < n ==> p[i] == vs[i];
      forall x | x in Tallied(vs).checked
        ensures exists i :: 0 <= i < |vs| && vs[i].checked && vs[i].name == x
      {
        if x !in Tallied(p).checked {
          assert vs[n].checked && vs[n].name == x;
        } else {
          var i :| 0 <= i < n && p[i].checked && p[i].name == x;
          assert vs[i].checked && vs[i].name == x;
        }
      }
      forall x | x in Tallied(vs).rollback
        ensures exists i :: 0 <= i < |vs| && vs[i].issues != [] && vs[i].name == x
      {
        if x !in Tallied(p).rollback {
          assert vs[n].issues != [] && vs[n].name == x;
        } else {
          var i :| 0 <= i < n && p[i].issues != [] && p[i].name == x;
          assert vs[i].issues != [] && vs[i].name == x;
        }
      }
      forall x, i | 0 <= i < |vs| && vs[i].checked && vs[i].name == x
        ensures x in Tallied(vs).checked
      {
        if i < n {
          assert p[i].checked && p[i].name == x;
        }
      }
      forall x, i | 0 <= i < |vs| && vs[i].issues != [] && vs[i].name == x
        ensures x in Tallied(vs).rollback
      {
        if i < n {
          assert p[i].issues != [] && p[i].name == x;
        }
      }
    }
  }

  /** ValidationReport as validate builds it: passed iff there are no issues, and the rollback plan is
      `sorted(set(rollback))`. */
  function ReportOf(release: string, t: Tally, manifestPath: Option<string>): (r: Report)
    ensures r.passed <==> t.issues == []
    ensures Ordering.Increasing(r.rollbackPlan)
    ensures forall x :: x in r.rollbackPlan <==> x in t.rollback
  {
    Report(release, t.issues == [], t.checked, t.issues, Ordering.SortedSet(t.rollback), manifestPath)
  }

  /** The report validate builds, or the exception it raises before deciding. */
  function Validation(manifest: Manifest, disk: Disk, required: seq<string>, codec: Codec): Result<Report, string> {
    match Load(manifest, codec)
    case Failure(e) => Failure(e)
    case Success((m, path)) =>
      match ArtifactItems(GetOr(m, "artifacts", JArr([])))
      case Failure(e) => Failure(e)
      case Success(items) =>
        match Verdicts(items, disk, required, codec)
        case Failure(e) => Failure(e)
        case Success(vs) => Success(ReportOf(Release(m, codec), Tallied(vs), path))
  }

  /** What a report says about the artifacts: an artifact is checked iff its path exists, it is rolled
      back iff it has an issue, the validation passes iff no artifact has one, and the rollback plan is
      sorted without duplicates. */
  lemma ValidationMeaning(manifest: Manifest, disk: Disk, required: seq<string>, codec: Codec)
    requires Validation(manifest, disk, required, codec).Success?
    ensures var rep := Validation(manifest, disk, required, codec).value;
      var items := ArtifactItems(GetOr(Load(manifest, codec).value.0, "artifacts", JArr([]))).value;
      && (forall i :: 0 <= i < |items| ==> items[i].JObj?)
      && (forall x :: x in rep.checked <==>
            exists i :: 0 <= i < |items| && Present(items[i].o, disk) && NameOf(items[i].o, codec) == x)
      && (forall x :: x in rep.rollbackPlan <==>
            exists i :: 0 <= i < |items| && Judge(items[i], disk, required, codec).value.issues != []
                        && NameOf(items[i].o, codec) == x)
      && (rep.passed <==> forall i :: 0 <= i < |items| ==> Judge(items[i], disk, required, codec).value.issues == [])
      && Ordering.Increasing(rep.rollbackPlan)
  {
    var (m, path) := Load(manifest, codec).value;
    var items := ArtifactItems(GetOr(m, "artifacts", JArr([]))).value;
    ReportMeaning(items, Verdicts(items, disk, required, codec).value, Release(m, codec), path, disk, required, codec);
  }

  lemma ReportMeaning(items: seq<Json>, vs: seq<Verdict>, release: string, path: Option<string>, disk: Disk,
                      required: seq<string>, codec: Codec)
    requires Verdicts(items, disk, required, codec) == Success(vs)
    ensures var rep := ReportOf(release, Tallied(vs), path);
      && (forall i :: 0 <= i < |items| ==> items[i].JObj?)
      && (forall x :: x in rep.checked <==>
            exists i :: 0 <= i < |items| && Present(items[i].o, disk) && NameOf(items[i].o, codec) == x)
      && (forall x :: x in rep.rollbackPlan <==>
            exists i :: 0 <= i < |items| && Judge(items[i], disk, required, codec).value.issues != []
                        && NameOf(items[i].o, codec) == x)
      && (rep.passed <==> forall i :: 0 <= i < |items| ==> Judge(items[i], disk, required, codec).value.issues == [])
  {
    TalliedMeaning(vs);
    CheckedMeaning(items, vs, disk, required, codec);
    RolledBackMeaning(items, vs, disk, required, codec);
  }

  lemma CheckedMeaning(items: seq<Json>, vs: seq<Verdict>, disk: Disk, required: seq<string>, codec: Codec)
    requires Verdicts(items, disk, required, codec) == Success(vs)
    requires forall x :: x in Tallied(vs).checked <==> exists i :: 0 <= i < |vs| && vs[i].checked && vs[i].name == x
    ensures forall x :: x in Tallied(vs).checked <==>
      exists i :: 0 <= i < |items| && Present(items[i].o, disk) && NameOf(items[i].o, codec) == x
  {
    forall x | x in Tallied(vs).checked
      ensures exists i :: 0 <= i < |items| && Present(items[i].o, disk) && NameOf(items[i].o, codec) == x
    {
      var i :| 0 <= i < |vs| && vs[i].checked && vs[i].name == x;
      assert Judge(items[i], disk, required, codec) == Success(vs[i]);
    }
  }

  lemma RolledBackMeaning(items: seq<Json>, vs: seq<Verdict>, disk: Disk, required: seq<string>, codec: Codec)
    requires Verdicts(items, disk, required, codec) == Success(vs)
    requires forall x :: x in Tallied(vs).rollback <==> exists i :: 0 <= i < |vs| && vs[i].issues != [] && vs[i].name == x
    ensures forall x :: x in Tallied(vs).rollback <==>
      exists i :: 0 <= i < |items| && Judge(items[i], disk, required, codec).value.issues != []
                  && NameOf(items[i].o, codec) == x
  {
    forall x | x in Tallied(vs).rollback
      ensures exists i :: 0 <= i < |items| && Judge(items[i], disk, required, codec).value.issues != []
                          && NameOf(items[i].o, codec) == x
    {
      var i :| 0 <= i < |vs| && vs[i].issues != [] && vs[i].name == x;
      assert Judge(items[i], disk, required, codec) == Success(vs[i]);
    }
  }

  /** The same artifacts in the same state always give the same rollback plan, whatever order their
      failures were met in. */
  lemma RollbackPlanCanonical(t: Tally, u: Tally, release: string, path: Option<string>)
    requires forall x :: x in t.rollback <==> x in u.rollback
    ensures ReportOf(release, t, path).rollbackPlan == ReportOf(release, u, path).rollbackPlan
  {
    Ordering.SortedSetCanonical(t.rollback, u.rollback);
  }

  function Join(sep: string, parts: seq<string>): string
    decreases |parts|
  {
    if parts == [] then "" else if |parts| == 1 then parts[0] else parts[0] + sep + Join(sep, parts[1..])
  }

  function IssueTexts(issues: seq<Issue>): (r: seq<string>)
    ensures |r| == |issues| && forall i :: 0 <= i < |r| ==> r[i] == issues[i].artifact + ": " + issues[i].message
  {
    seq(|issues|, i requires 0 <= i < |issues| => issues[i].artifact + ": " + issues[i].message)
  }

  /** ValidationReport.raise_on_failure: the RuntimeError lists every issue. */
  function RaiseOnFailure(report: Report): (r: Result<(), string>)
    ensures r.Failure? <==> !report.passed
    ensures r.Failure? ==> r.error == "Deployment validation failed: " + Join(", ", IssueTexts(report.issues))
  {
    if report.passed then Success(()) else Failure("Deployment validation failed: " + Join(", ", IssueTexts(report.issues)))
  }

  /** The experimental_validation_complete entry. */
  function SuccessEntry(report: Report, manifest: map<string, Json>, required: seq<string>): AuditLog.Entry {
    map["module" := JStr("qai.deploy"), "event" := JStr("experimental_validation_complete"),
        "release" := JStr(report.release), "artifact_count" := JInt(|report.checked|),
        "manifest" := (if report.manifestPath.Some? then JStr(report.manifestPath.value) else JNull),
        "required_checks" := JArr(Strs(required))]
    + (if Truthy(Get(manifest, "pipeline")) then map["pipeline" := manifest["pipeline"]] else map[])
  }

  /** One entry of build_rollback_plan's "artifacts". */
  function RollbackEntry(artifact: string, target: string): Json {
    JObj(map["artifact" := JStr(artifact), "action" := JStr("restore_from_baseline"), "target_tag" := JStr(target)])
  }

  /** `baseline_tag or "previous-stable"`. */
  function Target(baseline: Option<string>): (t: string)
    ensures t != ""
  {
    if baseline.Some? && baseline.value != "" then baseline.value else DefaultTarget
  }

  /** DeployValidator; `audit` is the file audit_log names, or the default audit log. */
  class DeployValidator {
    const audit: AuditLog.AuditFile
    const sessionId: Option<string>
    const hmacKey: Option<string>
    const env: AuditLog.Env
    const requiredChecks: seq<string>
    const disk: Disk

    constructor (audit: AuditLog.AuditFile, sessionId: Option<string>, hmacKey: Option<string>, env: AuditLog.Env,
                 requiredChecks: seq<string>, disk: Disk)
      ensures this.audit == audit && this.sessionId == sessionId && this.hmacKey == hmacKey && this.env == env
      ensures this.requiredChecks == requiredChecks && this.disk == disk
    {
      this.audit := audit;
      this.sessionId := sessionId;
      this.hmacKey := hmacKey;
      this.env := env;
      this.requiredChecks := requiredChecks;
      this.disk := disk;
    }

    /** validate: the report, the RuntimeError when asked to raise on failure, and one signed entry
        exactly when the validation passed. */
    method Validate(manifest: Manifest, raiseOnFailure: bool) returns (r: Result<Report, string>)
      modifies audit
      ensures var v := Validation(manifest, disk, requiredChecks, env.codec);
        && (v.Failure? ==> r == v)
        && (v.Success? && v.value.passed ==> r == v)
        && (v.Success? && !v.value.passed ==> r == if raiseOnFailure then Failure(RaiseOnFailure(v.value).error) else v)
      ensures var v := Validation(manifest, disk, requiredChecks, env.codec);
        audit.lines == old(audit.lines)
          + if v.Success? && v.value.passed then
              AuditLog.Written(SuccessEntry(v.value, Load(manifest, env.codec).value.0, requiredChecks), sessionId, hmacKey, env)
            else []
    {
      var loaded := Load(manifest, env.codec);
      if loaded.Failure? {
        return Failure(loaded.error);
      }
      var (m, path) := loaded.value;
      var release := Release(m, env.codec);
      var listed := ArtifactItems(GetOr(m, "artifacts", JArr([])));
      if listed.Failure? {
        return Failure(listed.error);
      }
      var items := listed.value;
      var t := Collect(items);
      if t.Failure? {
        return Failure(t.error);
      }
      var report := ReportOf(release, t.value, path);
      if report.passed {
        var _, _ := audit.AppendSigned(SuccessEntry(report, m, requiredChecks), sessionId, hmacKey, env);
      } else if raiseOnFailure {
        return Failure(RaiseOnFailure(report).error);
      }
      r := Success(report);
    }

    /** validate's loop: each artifact's verdict appended to checked, issues and rollback. */
    method Collect(items: seq<Json>) returns (r: Result<Tally, string>)
      ensures r == match Verdicts(items, disk, requiredChecks, env.codec)
                   case Failure(e) => Failure(e)
                   case Success(vs) => Success(Tallied(vs))
    {
      var checked: seq<string> := [];
      var issues: seq<Issue> := [];
      var rollback: seq<string> := [];
      ghost var vs: seq<Verdict> := [];
      var k := 0;
      while k < |items|
        invariant 0 <= k <= |items|
        invariant Verdicts(items[..k], disk, requiredChecks, env.codec) == Success(vs)
        invariant Tally(checked, issues, rollback) == Tallied(vs)
      {
        var judged := Judge(items[k], disk, requiredChecks, env.codec);
        if judged.Failure? {
          VerdictsStep(items, k, vs, disk, requiredChecks, env.codec);
          VerdictsFailEarly(items, k + 1, disk, requiredChecks, env.codec);
          return Failure(judged.error);
        }
        var v := judged.value;
        if v.checked {
          checked := checked + [v.name];
        }
        issues := issues + v.issues;
        if v.issues != [] {
          rollback := rollback + [v.name];
        }
        VerdictsStep(items, k, vs, disk, requiredChecks, env.codec);
        TalliedStep(vs, v);
        vs := vs + [v];
        k := k + 1;
      }
      assert items[..k] == items;
      r := Success(Tally(checked, issues, rollback));
    }

    /** build_rollback_plan: one restore entry per artifact of the plan, in order. */
    method BuildRollbackPlan(report: Report, baseline: Option<string>) returns (plan: map<string, Json>)
      ensures plan.Keys == {"release", "baseline", "artifacts"}
      ensures plan["release"] == JStr(report.release)
      ensures plan["baseline"] == if baseline.Some? then JStr(baseline.value) else JNull
      ensures plan["artifacts"].JArr? && |plan["artifacts"].a| == |report.rollbackPlan|
      ensures forall i :: 0 <= i < |report.rollbackPlan| ==>
        plan["artifacts"].a[i] == RollbackEntry(report.rollbackPlan[i], Target(baseline))
    {
      var entries: seq<Json> := [];
      var k := 0;
      while k < |report.rollbackPlan|
        invariant 0 <= k <= |report.rollbackPlan|
        invariant |entries| == k
        invariant forall i :: 0 <= i < k ==> entries[i] == RollbackEntry(report.rollbackPlan[i], Target(baseline))
      {
        entries := entries + [RollbackEntry(report.rollbackPlan[k], Target(baseline))];
        k := k + 1;
      }
      plan := map["release" := JStr(report.release),
                  "baseline" := (if baseline.Some? then JStr(baseline.value) else JNull),
                  "artifacts" := JArr(entries)];
    }
  }

  /** validate_artifacts: a validator built from the arguments validates the manifest without raising on
      failure. */
  method ValidateArtifacts(manifest: Manifest, audit: AuditLog.AuditFile, sessionId: Option<string>,
                           hmacKey: Option<string>, env: AuditLog.Env, requiredChecks: seq<string>, disk: Disk)
    returns (r: Result<Report, string>)
    modifies audit
    ensures r == Validation(manifest, disk, requiredChecks, env.codec)
    ensures var v := Validation(manifest, disk, requiredChecks, env.codec);
      audit.lines == old(audit.lines)
        + if v.Success? && v.value.passed then
            AuditLog.Written(SuccessEntry(v.value, Load(manifest, env.codec).value.0, requiredChecks), sessionId, hmacKey, env)
          else []
  {
    var validator := new DeployValidator(audit, sessionId, hmacKey, env, requiredChecks, disk);
    r := validator.Validate(manifest, false);
  }
}

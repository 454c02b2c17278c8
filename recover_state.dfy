/** The recovery script's standalone audit-log checker (verify_audit_log) and the command that
    resume_script builds from the saved project state. */
module RecoverState {
  import opened Wrappers
  import opened Json
  import opened Text
  import opened AuditLog
  import opened HmacUtils
  import Seqs

  /** One failure as verify_audit_log reports it: the 1-based physical line number, the reason and the
      first 200 characters of the line or of the entry without its signature. */
  datatype LogFailure = LogFailure(line: nat, reason: string, preview: string)

  /** (total, verified, failed, failures). */
  datatype LogReport = LogReport(total: nat, verified: nat, failed: nat, failures: seq<LogFailure>)

  /** The audit log as verify_audit_log finds it: absent, or present with the text it reads before the end
      of the file, where `readError` says that reading then raises (a decoding or I/O error). */
  datatype AuditSource = Missing | Present(text: string, readError: bool)

  /** What one physical line contributes: nothing (blank), a verified entry, a failure, or an exception
      that escapes the inner handlers (the line holds JSON that is not an object). */
  datatype Outcome = Blank | Good | Bad(reason: string, preview: string) | Crash

  const PreviewLength: nat := 200

  /** The loop body of verify_audit_log for one line. */
  function LineOutcome(line: string, key: string, signer: Signer, codec: Codec): (o: Outcome)
    ensures o.Blank? <==> Strip(line) == ""
  {
    var s := Strip(line);
    if s == "" then Blank
    else match codec.parse(s)
      case Failure(_) => Bad("INVALID JSON", Take(s, PreviewLength))
      case Success(v) =>
        if !v.JObj? then Crash
        else
          var rest := NormalizeEntry(v.o);
          var preview := Take(codec.dumpAscii(JObj(rest)), PreviewLength);
          var sig := Get(v.o, "hmac");
          if !Truthy(sig) then Bad("MISSING_HMAC", preview)
          else match CompareDigest(JStr(signer.hmac(key, signer.canon(rest))), sig)
            case Failure(e) => Bad("VERIFICATION_ERROR: " + e, preview)
            case Success(same) => if same then Good else Bad("HMAC_MISMATCH", preview)
  }

  /** A line that does not parse is INVALID JSON, with the stripped line as preview; one that parses to a
      value other than an object escapes the loop. */
  lemma LineOutcomeMeaning(line: string, key: string, signer: Signer, codec: Codec)
    requires Strip(line) != ""
    ensures var o := LineOutcome(line, key, signer, codec);
      && (codec.parse(Strip(line)).Failure? <==> o == Bad("INVALID JSON", Take(Strip(line), PreviewLength)))
      && (o.Crash? <==> codec.parse(Strip(line)).Success? && !codec.parse(Strip(line)).value.JObj?)
  {
  }

  /** For a line holding an object, the verdict agrees with verify_audit_stream's verdict on the same
      entry: verified, MISSING_HMAC or HMAC_MISMATCH. */
  lemma LineOutcomeAgrees(line: string, m: Entry, key: string, signer: Signer, codec: Codec)
    requires Strip(line) != "" && codec.parse(Strip(line)) == Success(JObj(m))
    ensures var o := LineOutcome(line, key, signer, codec);
      var verdict := CheckEntry(JObj(m), key, signer);
      && (o.Good? <==> verdict.Verified?)
      && (o.Bad? && o.reason == "MISSING_HMAC" <==> verdict.MissingHmac?)
      && (o.Bad? && o.reason == "HMAC_MISMATCH" <==> verdict.HmacMismatch?)
  {
    var sig := Get(m, "hmac");
    var digest := JStr(signer.hmac(key, signer.canon(NormalizeEntry(m))));
    assert JStr(Digest(m, key, signer)) == digest;
    if Truthy(sig) {
      var c := CompareDigest(digest, sig);
      assert c.Success? == CompareDigest(sig, digest).Success?;
    }
  }

  /** For a line holding an object, the failure is a VERIFICATION_ERROR exactly where verify_audit_stream
      raises, and the preview of a failure is the entry without its signature, dumped with ASCII escapes. */
  lemma LineOutcomeErrors(line: string, m: Entry, key: string, signer: Signer, codec: Codec)
    requires Strip(line) != "" && codec.parse(Strip(line)) == Success(JObj(m))
    ensures var o := LineOutcome(line, key, signer, codec);
      && (o.Bad? && IsPrefix("VERIFICATION_ERROR: ", o.reason) <==> CheckEntry(JObj(m), key, signer).Raises?)
      && (o.Bad? ==> o.preview == Take(codec.dumpAscii(JObj(NormalizeEntry(m))), PreviewLength))
  {
    var sig := Get(m, "hmac");
    var digest := JStr(signer.hmac(key, signer.canon(NormalizeEntry(m))));
    assert JStr(Digest(m, key, signer)) == digest;
    if Truthy(sig) {
      var c := CompareDigest(digest, sig);
      assert c.Success? == CompareDigest(sig, digest).Success?;
      if c.Failure? {
        assert ("VERIFICATION_ERROR: " + c.error)[..20] == "VERIFICATION_ERROR: ";
      }
    }
  }

  /** The outcome of each physical line, in order. */
  function Outcomes(lines: seq<string>, key: string, signer: Signer, codec: Codec): (os: seq<Outcome>)
    ensures |os| == |lines| && forall i :: 0 <= i < |lines| ==> os[i] == LineOutcome(lines[i], key, signer, codec)
  {
    if lines == [] then []
    else
      var n := |lines| - 1;
      var init := Outcomes(lines[..n], key, signer, codec);
      var os := init + [LineOutcome(lines[n], key, signer, codec)];
      assert forall i :: 0 <= i < |lines| ==> os[i] == LineOutcome(lines[i], key, signer, codec) by {
        forall i | 0 <= i < |lines|
          ensures os[i] == LineOutcome(lines[i], key, signer, codec)
        {
          if i < n {
            assert os[i] == init[i] && lines[..n][i] == lines[i];
          }
        }
      }
      os
  }

  /** The counters after the lines with these outcomes, or the failures so far when a line escapes. */
  function Scan(os: seq<Outcome>): (r: Result<LogReport, seq<LogFailure>>)
    ensures r.Success? ==> r.value.total == r.value.verified + r.value.failed <= |os|
    ensures r.Success? ==> r.value.failed == |r.value.failures|
  {
    if os == [] then Success(LogReport(0, 0, 0, []))
    else Advance(Scan(os[..|os| - 1]), |os|, os[|os| - 1])
  }

  /** One more physical line, numbered `lineNo` from 1. */
  function Advance(so: Result<LogReport, seq<LogFailure>>, lineNo: nat, o: Outcome): Result<LogReport, seq<LogFailure>>
  {
    if so.Failure? then so
    else
      var r := so.value;
      match o
      case Blank => so
      case Good => Success(LogReport(r.total + 1, r.verified + 1, r.failed, r.failures))
      case Bad(reason, preview) =>
        Success(LogReport(r.total + 1, r.verified, r.failed + 1, r.failures + [LogFailure(lineNo, reason, preview)]))
      case Crash => Failure(r.failures)
  }

  /** How many lines are not blank. */
  function NonBlank(os: seq<Outcome>): (n: nat)
    ensures n <= |os|
  {
    if os == [] then 0 else NonBlank(os[..|os| - 1]) + (if os[|os| - 1].Blank? then 0 else 1)
  }

  /** verify_audit_log as a specification: a missing file gives (0, 0, 0, []); an exception escaping the
      loop (a non-object line, or a read error) gives (0, 0, 1, failures so far). */
  function AuditLogReport(source: AuditSource, key: string, signer: Signer, codec: Codec): (r: LogReport)
    ensures source.Missing? ==> r == LogReport(0, 0, 0, [])
    ensures r.total == r.verified + r.failed || (r.total == 0 && r.verified == 0 && r.failed == 1)
    ensures source.Present? && source.readError ==> r.total == 0 && r.verified == 0 && r.failed == 1
  {
    match source
    case Missing => LogReport(0, 0, 0, [])
    case Present(text, readError) =>
      var os := Outcomes(Lines(Universal, text), key, signer, codec);
      ScanCounts(os);
      match Scan(os)
      case Failure(fs) => LogReport(0, 0, 1, fs)
      case Success(r) => if readError then LogReport(0, 0, 1, r.failures) else r
  }

  /** The counting step of the loop once the line's outcome is known. */
  method CountLine(total: nat, verified: nat, failed: nat, failures: seq<LogFailure>, lineNo: nat, o: Outcome)
    returns (r: Result<LogReport, seq<LogFailure>>)
    ensures r == Advance(Success(LogReport(total, verified, failed, failures)), lineNo, o)
  {
    if o.Blank? {
      return Success(LogReport(total, verified, failed, failures));
    }
    var total' := total + 1;
    if o.Crash? {
      return Failure(failures);
    }
    if o.Good? {
      r := Success(LogReport(total', verified + 1, failed, failures));
    } else {
      r := Success(LogReport(total', verified, failed + 1, failures + [LogFailure(lineNo, o.reason, o.preview)]));
    }
  }

  /** verify_audit_log. */
  method VerifyAuditLog(source: AuditSource, key: string, signer: Signer, codec: Codec) returns (r: LogReport)
    ensures r == AuditLogReport(source, key, signer, codec)
  {
    if source.Missing? {
      return LogReport(0, 0, 0, []);
    }
    var lines := Lines(Universal, source.text);
    ghost var os := Outcomes(lines, key, signer, codec);
    var total, verified, failed := 0, 0, 0;
    var failures: seq<LogFailure> := [];
    var i := 0;
    while i < |lines|
      invariant i <= |lines|
      invariant Scan(os[..i]) == Success(LogReport(total, verified, failed, failures))
    {
      ScanOneMore(os, i);
      var outcome := LineOutcome(lines[i], key, signer, codec);
      assert outcome == os[i];
      var next := CountLine(total, verified, failed, failures, i + 1, outcome);
      if next.Failure? {
        ScanFailureSticks(os, i + 1);
        return LogReport(0, 0, 1, next.error);
      }
      total, verified, failed, failures := next.value.total, next.value.verified, next.value.failed, next.value.failures;
      i := i + 1;
    }
    Seqs.TakeAll(os);
    if source.readError {
      return LogReport(0, 0, 1, failures);
    }
    r := LogReport(total, verified, failed, failures);
  }

  lemma ScanOneMore(os: seq<Outcome>, i: nat)
    requires i < |os|
    ensures Scan(os[..i + 1]) == Advance(Scan(os[..i]), i + 1, os[i])
  {
    Seqs.TakeOneMore(os, i);
  }

  /** Once a line escapes, the rest of the file is not read. */
  lemma {:induction false} ScanFailureSticks(os: seq<Outcome>, i: nat)
    requires i <= |os| && Scan(os[..i]).Failure?
    ensures Scan(os) == Scan(os[..i])
  {
    if i < |os| {
      var n := |os| - 1;
      assert os[..n][..i] == os[..i];
      ScanFailureSticks(os[..n], i);
    } else {
      Seqs.TakeAll(os);
    }
  }

  /** A successful scan is the scan of all but the last line, extended by the last one. */
  lemma ScanLast(os: seq<Outcome>)
    requires os != [] && Scan(os).Success?
    ensures var n := |os| - 1;
      && Scan(os[..n]).Success?
      && !os[n].Crash?
      && var p := Scan(os[..n]).value;
      && var r := Scan(os).value;
      && r.total == p.total + (if os[n].Blank? then 0 else 1)
      && r.verified == p.verified + (if os[n].Good? then 1 else 0)
      && r.failed == p.failed + (if os[n].Bad? then 1 else 0)
      && r.failures == if os[n].Bad? then p.failures + [LogFailure(n + 1, os[n].reason, os[n].preview)] else p.failures
  {
  }

  /** Every non-blank line is counted once in total and exactly once as verified or as failed, and each
      failed line has one failure record. */
  lemma {:induction false} ScanCounts(os: seq<Outcome>)
    ensures Scan(os).Success? ==>
      var r := Scan(os).value;
      && r.total == NonBlank(os)
      && r.total == r.verified + r.failed
      && r.failed == |r.failures|
  {
    if os != [] && Scan(os).Success? {
      ScanLast(os);
      ScanCounts(os[..|os| - 1]);
    }
  }

  /** The scan escapes exactly when some line escapes. */
  lemma {:induction false} ScanFailsIff(os: seq<Outcome>)
    ensures Scan(os).Failure? <==> exists i :: 0 <= i < |os| && os[i].Crash?
  {
    if os != [] {
      var n := |os| - 1;
      ScanFailsIff(os[..n]);
      assert forall i :: 0 <= i < n ==> os[..n][i] == os[i];
    }
  }

  /** Each failure names the physical line (from 1) whose outcome is that failure, in line order. */
  lemma {:induction false} ScanFailuresSound(os: seq<Outcome>)
    ensures Scan(os).Success? ==>
      var r := Scan(os).value;
      && (forall j :: 0 <= j < |r.failures| ==>
            && 1 <= r.failures[j].line <= |os|
            && os[r.failures[j].line - 1] == Bad(r.failures[j].reason, r.failures[j].preview))
      && (forall j, j' :: 0 <= j < j' < |r.failures| ==> r.failures[j].line < r.failures[j'].line)
  {
    if os != [] && Scan(os).Success? {
      var n := |os| - 1;
      ScanLast(os);
      ScanFailuresSound(os[..n]);
      var p := Scan(os[..n]).value;
      var r := Scan(os).value;
      forall j | 0 <= j < |r.failures|
        ensures 1 <= r.failures[j].line <= |os|
        ensures os[r.failures[j].line - 1] == Bad(r.failures[j].reason, r.failures[j].preview)
      {
        if j < |p.failures| {
          assert r.failures[j] == p.failures[j];
          assert os[..n][p.failures[j].line - 1] == os[p.failures[j].line - 1];
        }
      }
    }
  }

  /** Every line whose outcome is a failure is reported. */
  lemma {:induction false} ScanFailuresComplete(os: seq<Outcome>)
    ensures Scan(os).Success? ==>
      var r := Scan(os).value;
      forall i :: 0 <= i < |os| && os[i].Bad? ==> exists j :: 0 <= j < |r.failures| && r.failures[j].line == i + 1
  {
    if os != [] && Scan(os).Success? {
      var n := |os| - 1;
      ScanLast(os);
      ScanFailuresComplete(os[..n]);
      var p := Scan(os[..n]).value;
      var r := Scan(os).value;
      forall i | 0 <= i < |os| && os[i].Bad?
        ensures exists j :: 0 <= j < |r.failures| && r.failures[j].line == i + 1
      {
        if i < n {
          assert os[..n][i] == os[i];
          var j :| 0 <= j < |p.failures| && p.failures[j].line == i + 1;
          assert r.failures[j] == p.failures[j];
        } else {
          assert r.failures[|p.failures|].line == n + 1;
        }
      }
    }
  }

  /** The four facts about a scan that does not escape, together. */
  lemma ScanAccounting(os: seq<Outcome>)
    requires forall i :: 0 <= i < |os| ==> !os[i].Crash?
    ensures Scan(os).Success?
    ensures var r := Scan(os).value;
      && r.total == NonBlank(os)
      && r.total == r.verified + r.failed && r.failed == |r.failures|
      && (forall j :: 0 <= j < |r.failures| ==>
            1 <= r.failures[j].line <= |os| && os[r.failures[j].line - 1] == Bad(r.failures[j].reason, r.failures[j].preview))
      && (forall j, j' :: 0 <= j < j' < |r.failures| ==> r.failures[j].line < r.failures[j'].line)
      && (forall i :: 0 <= i < |os| && os[i].Bad? ==> exists j :: 0 <= j < |r.failures| && r.failures[j].line == i + 1)
  {
    ScanFailsIff(os);
    ScanCounts(os);
    ScanFailuresSound(os);
    ScanFailuresComplete(os);
  }

  /** A fully read log is reported as the scan of its lines' outcomes, or as (0, 0, 1, failures so far)
      when a line escapes. */
  lemma ReadableReport(text: string, os: seq<Outcome>, key: string, signer: Signer, codec: Codec)
    requires os == Outcomes(Lines(Universal, text), key, signer, codec)
    ensures Scan(os).Success? ==> AuditLogReport(Present(text, false), key, signer, codec) == Scan(os).value
    ensures Scan(os).Failure? ==> AuditLogReport(Present(text, false), key, signer, codec) == LogReport(0, 0, 1, Scan(os).error)
  {
  }

  /** Lines that all verify are reported all verified. */
  lemma {:induction false} ScanAllGood(os: seq<Outcome>)
    requires forall i :: 0 <= i < |os| ==> os[i].Good?
    ensures Scan(os) == Success(LogReport(|os|, |os|, 0, []))
  {
    if os != [] {
      var n := |os| - 1;
      assert forall i :: 0 <= i < n ==> os[..n][i] == os[i];
      ScanAllGood(os[..n]);
    }
  }

  /** A line written by json.dumps for an entry that verify_audit_stream accepts also verifies here. */
  lemma DumpedLineVerifies(e: Entry, key: string, signer: Signer, codec: Codec)
    requires Faithful(codec) && DumpsOneLine(codec) && Representable(JObj(e))
    requires CheckEntry(JObj(e), key, signer).Verified?
    ensures LineOutcome(codec.dump(JObj(e)), key, signer, codec) == Good
  {
    EntryOfDumped(e, codec);
    LineOutcomeAgrees(codec.dump(JObj(e)), e, key, signer, codec);
  }

  /** A log made of lines the writer signed over the canonical JSON of the entry without its signature
      verifies in full. */
  lemma WrittenAuditLogVerifies(entries: seq<Entry>, key: string, signer: Signer, codec: Codec)
    requires Faithful(codec) && DumpsOneLine(codec)
    requires forall i :: 0 <= i < |entries| ==> Representable(JObj(entries[i]))
    requires forall i :: 0 <= i < |entries| ==> CheckEntry(JObj(entries[i]), key, signer).Verified?
    ensures AuditLogReport(Present(Terminated(DumpedLines(entries, codec)), false), key, signer, codec)
            == LogReport(|entries|, |entries|, 0, [])
  {
    var lines := DumpedLines(entries, codec);
    forall i | 0 <= i < |lines|
      ensures NoBreak(Universal, lines[i])
    {
      assert lines[i] == codec.dump(JObj(entries[i]));
    }
    LinesOfTerminated(Universal, lines);
    var os := Outcomes(lines, key, signer, codec);
    forall i | 0 <= i < |os|
      ensures os[i].Good?
    {
      DumpedLineVerifies(entries[i], key, signer, codec);
    }
    ScanAllGood(os);
  }

  // ----- resume_script -----

  /** What the script reads from its surroundings: the interpreter path, the project root, whether a path
      exists, and the answer typed at the confirmation prompt. */
  datatype Shell = Shell(python: string, root: string, pathExists: string -> bool, answer: string)

  /** How resume_script ends: exit code 1 without a recorded script or when it is not found, 2 when the
      user declines, an exception, or running the command (whose exit code it returns). */
  datatype Resume = NoLastScript | ScriptNotFound(path: string) | Aborted | Raised(error: string) | Runs(cmd: seq<string>)

  /** The exit code resume_script returns itself, if any. */
  function ExitCode(r: Resume): Option<int> {
    match r
    case NoLastScript => Some(1)
    case ScriptNotFound(_) => Some(1)
    case Aborted => Some(2)
    case _ => None
  }

  /** A relative last_script is taken relative to the project root. */
  function Resolve(root: string, path: string): string {
    if IsPrefix("/", path) then path else root + "/" + path
  }

  /** The command-line flag for an argument name. */
  function Flag(name: string): (f: string)
    ensures |f| == |name| + 2 && f[..2] == "--"
    ensures forall i :: 2 <= i < |f| ==> f[i] != '_' && (f[i] == '-' <==> name[i - 2] == '-' || name[i - 2] == '_')
  {
    "--" + ReplaceChar(name, '_', '-')
  }

  /** The tokens one saved argument adds: the flag alone for True, nothing for False or None, else the flag
      and str() of the value. */
  function ArgTokens(name: string, v: Json, codec: Codec): seq<string>
  {
    if v.JBool? then (if v.b then [Flag(name)] else [])
    else if v.JNull? then []
    else [Flag(name), Str(v, codec)]
  }

  /** The tokens of all saved arguments, in the dict's order. */
  function Flags(order: seq<string>, args: Entry, codec: Codec): seq<string>
    requires forall i :: 0 <= i < |order| ==> order[i] in args
  {
    if order == [] then []
    else
      var n := |order| - 1;
      Flags(order[..n], args, codec) + ArgTokens(order[n], args[order[n]], codec)
  }

  /** Saved arguments that are neither bools nor None become flag/value pairs, in order. */
  lemma {:induction false} FlagsOfValues(order: seq<string>, args: Entry, codec: Codec)
    requires forall i :: 0 <= i < |order| ==> order[i] in args && !args[order[i]].JBool? && !args[order[i]].JNull?
    ensures var f := Flags(order, args, codec);
      && |f| == 2 * |order|
      && forall i :: 0 <= i < |order| ==> f[2 * i] == Flag(order[i]) && f[2 * i + 1] == Str(args[order[i]], codec)
  {
    if order != [] {
      var n := |order| - 1;
      assert forall i :: 0 <= i < n ==> order[..n][i] == order[i];
      FlagsOfValues(order[..n], args, codec);
    }
  }

  /** The flag of every saved argument other than False and None appears in the command. */
  lemma {:induction false} FlagsMention(order: seq<string>, args: Entry, codec: Codec, i: nat)
    requires forall j :: 0 <= j < |order| ==> order[j] in args
    requires i < |order| && args[order[i]] != JBool(false) && !args[order[i]].JNull?
    ensures Flag(order[i]) in Flags(order, args, codec)
  {
    var n := |order| - 1;
    if i < n {
      assert order[..n][i] == order[i];
      FlagsMention(order[..n], args, codec, i);
    } else {
      assert ArgTokens(order[n], args[order[n]], codec)[0] == Flag(order[i]);
    }
  }

  /** Arguments that are False or None add nothing. */
  lemma {:induction false} FlagsOfOff(order: seq<string>, args: Entry, codec: Codec)
    requires forall i :: 0 <= i < |order| ==> order[i] in args && (args[order[i]] == JBool(false) || args[order[i]].JNull?)
    ensures Flags(order, args, codec) == []
  {
    if order != [] {
      var n := |order| - 1;
      assert forall i :: 0 <= i < n ==> order[..n][i] == order[i];
      FlagsOfOff(order[..n], args, codec);
    }
  }

  lemma FlagsOneMore(order: seq<string>, args: Entry, codec: Codec, i: nat)
    requires forall j :: 0 <= j < |order| ==> order[j] in args
    requires i < |order|
    ensures Flags(order[..i + 1], args, codec) == Flags(order[..i], args, codec) + ArgTokens(order[i], args[order[i]], codec)
  {
    Seqs.TakeOneMore(order, i);
  }

  /** `order` lists the keys of the saved last_args dict once each, in the dict's insertion order (empty
      when last_args is not a dict). */
  ghost predicate ArgOrder(state: Entry, order: seq<string>) {
    var a := Get(state, "last_args");
    && (forall i, j :: 0 <= i < j < |order| ==> order[i] != order[j])
    && (a.JObj? ==> forall k :: k in a.o <==> k in order)
    && (!a.JObj? ==> order == [])
  }

  /** `.strip().lower() == "y"`: only "y" and "Y" lower-case to "y". */
  predicate Affirmative(answer: string) {
    Strip(answer) == "y" || Strip(answer) == "Y"
  }

  /** resume_script as a specification. */
  function ResumeOutcome(state: Entry, order: seq<string>, yes: bool, sh: Shell, codec: Codec): (r: Resume)
    requires ArgOrder(state, order)
    ensures !Truthy(Get(state, "last_script")) ==> r == NoLastScript
    ensures yes ==> !r.Aborted?
    ensures r.Runs? ==> |r.cmd| >= 2 && r.cmd[0] == sh.python && sh.pathExists(r.cmd[1])
  {
    var last := Get(state, "last_script");
    if !Truthy(last) then NoLastScript
    else if !last.JStr? then Raised("TypeError: expected str, bytes or os.PathLike object, not " + TypeName(last))
    else
      var cand := Resolve(sh.root, last.s);
      var a := Get(state, "last_args");
      var args: Entry := if a.JObj? then a.o else map[];
      if !sh.pathExists(cand) then ScriptNotFound(cand)
      else if Truthy(a) && !a.JObj? then Raised("AttributeError: '" + TypeName(a) + "' object has no attribute 'items'")
      else if !yes && !Affirmative(sh.answer) then Aborted
      else Runs([sh.python, cand] + Flags(order, args, codec))
  }

  /** resume_script returns 1 exactly when no script is recorded or the recorded one does not exist; it
      raises exactly for a recorded value that is not a path and for saved arguments that are neither
      empty nor a dict; of the remaining cases it returns 2 exactly when it asks and the answer is not
      "y", and runs the command otherwise. The command is the interpreter, the resolved script and the
      saved arguments' tokens in order. */
  lemma ResumeMeaning(state: Entry, order: seq<string>, yes: bool, sh: Shell, codec: Codec)
    requires ArgOrder(state, order)
    ensures var r := ResumeOutcome(state, order, yes, sh, codec);
      var last := Get(state, "last_script");
      var a := Get(state, "last_args");
      var found := Truthy(last) && last.JStr? && sh.pathExists(Resolve(sh.root, last.s));
      && (ExitCode(r) == Some(1) <==> !Truthy(last) || (last.JStr? && !sh.pathExists(Resolve(sh.root, last.s))))
      && (r.Raised? <==> Truthy(last) && (!last.JStr? || (found && Truthy(a) && !a.JObj?)))
      && (r.Aborted? <==> found && (a.JObj? || !Truthy(a)) && !yes && !Affirmative(sh.answer))
      && (r.Runs? <==> found && (a.JObj? || !Truthy(a)) && (yes || Affirmative(sh.answer)))
      && (yes ==> !r.Aborted?)
      && (r.Runs? ==> r.cmd == [sh.python, Resolve(sh.root, last.s)] + Flags(order, if a.JObj? then a.o else map[], codec))
      && (r.Runs? ==> |r.cmd| >= 2 && r.cmd[0] == sh.python && r.cmd[1] == Resolve(sh.root, last.s) && sh.pathExists(r.cmd[1]))
  {
  }

  /** One iteration of the loop over the saved arguments. */
  method AppendArg(cmd: seq<string>, name: string, v: Json, codec: Codec) returns (cmd': seq<string>)
    ensures cmd' == cmd + ArgTokens(name, v, codec)
  {
    var flag := Flag(name);
    cmd' := cmd;
    if v.JBool? {
      if v.b {
        cmd' := cmd' + [flag];
      }
    } else if !v.JNull? {
      cmd' := cmd' + [flag, Str(v, codec)];
    }
  }

  /** The loop that turns the saved arguments into command-line tokens. */
  method BuildCommand(python: string, script: string, args: Entry, order: seq<string>, codec: Codec)
    returns (cmd: seq<string>)
    requires forall i :: 0 <= i < |order| ==> order[i] in args
    ensures cmd == [python, script] + Flags(order, args, codec)
  {
    cmd := [python, script];
    var i := 0;
    while i < |order|
      invariant i <= |order|
      invariant cmd == [python, script] + Flags(order[..i], args, codec)
    {
      cmd := AppendArg(cmd, order[i], args[order[i]], codec);
      FlagsOneMore(order, args, codec, i);
      i := i + 1;
    }
    Seqs.TakeAll(order);
  }

  /** resume_script. */
  method ResumeScript(state: Entry, order: seq<string>, yes: bool, sh: Shell, codec: Codec) returns (r: Resume)
    requires ArgOrder(state, order)
    ensures r == ResumeOutcome(state, order, yes, sh, codec)
  {
    var last := Get(state, "last_script");
    if !Truthy(last) {
      return NoLastScript;
    }
    if !last.JStr? {
      return Raised("TypeError: expected str, bytes or os.PathLike object, not " + TypeName(last));
    }
    var cand := Resolve(sh.root, last.s);
    if !sh.pathExists(cand) {
      return ScriptNotFound(cand);
    }
    var a := Get(state, "last_args");
    var args: Entry := map[];
    if Truthy(a) {
      if !a.JObj? {
        return Raised("AttributeError: '" + TypeName(a) + "' object has no attribute 'items'");
      }
      args := a.o;
    }
    var cmd := BuildCommand(sh.python, cand, args, order, codec);
    if !yes {
      if !Affirmative(sh.answer) {
        return Aborted;
      }
    }
    r := Runs(cmd);
  }
}

/** Verification of post-backtest audit entries (hmac_utils): recompute each entry's HMAC over the
    canonical JSON of the entry without its "hmac" field and compare it with the stored signature. */
module HmacUtils {
  import opened Wrappers
  import opened Json
  import opened Text
  import opened AuditLog
  import Seqs

  datatype HmacFailure = HmacFailure(index: nat, reason: string, entry: Json)

  /** (total, verified, failures) as verify_audit_stream returns them. */
  datatype Report = Report(total: nat, verified: nat, failures: seq<HmacFailure>)

  /** _normalize_entry: a copy of the entry without its "hmac" key. */
  function NormalizeEntry(e: Entry): (r: Entry)
    ensures r.Keys == e.Keys - {"hmac"}
    ensures forall k :: k in r ==> r[k] == e[k]
    ensures "hmac" !in e ==> r == e
  {
    map k | k in e && k != "hmac" :: e[k]
  }

  /** The hex digest the verifier expects for an entry. */
  function Digest(e: Entry, key: string, signer: Signer): string {
    signer.hmac(key, signer.canon(NormalizeEntry(e)))
  }

  /** HMAC-SHA-256 hex digests are 64 ASCII hex characters: never empty, always ASCII. */
  ghost predicate HexDigests(signer: Signer) {
    forall k, m :: signer.hmac(k, m) != "" && IsAscii(signer.hmac(k, m))
  }

  /** Distinct entries that JSON can hold have distinct digests under this key (HMAC over canonical
      JSON is treated as collision-free). */
  ghost predicate CollisionFree(signer: Signer, key: string) {
    forall a: Entry, b: Entry :: Representable(JObj(a)) && Representable(JObj(b)) && a != b ==>
      signer.hmac(key, signer.canon(a)) != signer.hmac(key, signer.canon(b))
  }

  /** hmac.compare_digest on two decoded JSON values: a TypeError unless both are str holding only ASCII,
      otherwise whether they are equal. */
  function CompareDigest(a: Json, b: Json): (r: Result<bool, string>)
    ensures r.Success? <==> a.JStr? && b.JStr? && IsAscii(a.s) && IsAscii(b.s)
    ensures r.Success? ==> (r.value <==> a == b)
  {
    if !a.JStr? || !b.JStr? then
      Failure("unsupported operand types(s) or combination of types: '" + TypeName(a) + "' and '" + TypeName(b) + "'")
    else if !IsAscii(a.s) || !IsAscii(b.s) then Failure("comparing strings with non-ASCII characters is not supported")
    else Success(a.s == b.s)
  }

  /** What one entry contributes to the verification. */
  datatype Verdict = Verified | MissingHmac | HmacMismatch | Raises(error: string)

  /** The loop body of verify_audit_stream for one entry. Python raises AttributeError when the entry is
      not a dict, and compare_digest raises TypeError for a signature that is not an ASCII str. */
  function CheckEntry(entry: Json, key: string, signer: Signer): (v: Verdict)
  {
    if !entry.JObj? then Raises("AttributeError: entry has no attribute 'get'")
    else
      var sig := Get(entry.o, "hmac");
      var digest := Digest(entry.o, key, signer);
      if !Truthy(sig) then MissingHmac
      else match CompareDigest(sig, JStr(digest))
        case Failure(e) => Raises("TypeError: " + e)
        case Success(same) => if same then Verified else HmacMismatch
  }

  /** A falsy signature is MISSING_HMAC; an entry verifies exactly when its signature is the digest of the
      rest of it; the check raises for a non-dict entry and for a signature or digest compare_digest
      refuses. */
  lemma CheckEntryMeaning(entry: Json, key: string, signer: Signer)
    ensures CheckEntry(entry, key, signer).MissingHmac? <==> entry.JObj? && !Truthy(Get(entry.o, "hmac"))
    ensures CheckEntry(entry, key, signer).Verified? <==> (entry.JObj? && var d := Digest(entry.o, key, signer);
      d != "" && IsAscii(d) && Get(entry.o, "hmac") == JStr(d))
    ensures CheckEntry(entry, key, signer).Raises? <==> (!entry.JObj? || (Truthy(Get(entry.o, "hmac")) &&
      (!Get(entry.o, "hmac").JStr? || !IsAscii(Get(entry.o, "hmac").s) || !IsAscii(Digest(entry.o, key, signer)))))
  {
  }

  /** The verdict of each entry, in order. */
  function Verdicts(entries: seq<Json>, key: string, signer: Signer): (vs: seq<Verdict>)
    ensures |vs| == |entries| && forall i :: 0 <= i < |entries| ==> vs[i] == CheckEntry(entries[i], key, signer)
  {
    if entries == [] then []
    else Verdicts(entries[..|entries| - 1], key, signer) + [CheckEntry(entries[|entries| - 1], key, signer)]
  }

  /** The loop of verify_audit_stream over entries with the given verdicts: the report once it has run
      over every entry, or the error of the first entry that raises. */
  function Tally(entries: seq<Json>, vs: seq<Verdict>): Result<Report, string>
    requires |vs| == |entries|
  {
    if entries == [] then Success(Report(0, 0, []))
    else
      var n := |entries| - 1;
      Step(Tally(entries[..n], vs[..n]), n, entries[n], vs[n])
  }

  /** One more entry, at position `index`, with its verdict, after the report so far. */
  function Step(so: Result<Report, string>, index: nat, entry: Json, v: Verdict): Result<Report, string>
  {
    if so.Failure? then so
    else
      var r := so.value;
      match v
      case Raises(e) => Failure(e)
      case Verified => Success(Report(r.total + 1, r.verified + 1, r.failures))
      case MissingHmac => Success(Report(r.total + 1, r.verified, r.failures + [HmacFailure(index, "MISSING_HMAC", entry)]))
      case HmacMismatch => Success(Report(r.total + 1, r.verified, r.failures + [HmacFailure(index, "HMAC_MISMATCH", entry)]))
  }

  /** A successful tally is the tally of all but the last entry, extended by the last one. */
  lemma TallyLast(entries: seq<Json>, vs: seq<Verdict>)
    requires |vs| == |entries| && entries != [] && Tally(entries, vs).Success?
    ensures var n := |entries| - 1;
      && Tally(entries[..n], vs[..n]).Success?
      && !vs[n].Raises?
      && var p := Tally(entries[..n], vs[..n]).value;
      && var r := Tally(entries, vs).value;
      && r.total == p.total + 1
      && r.verified == p.verified + (if vs[n].Verified? then 1 else 0)
      && r.failures == if vs[n].Verified? then p.failures else p.failures + [HmacFailure(n, Reason(vs[n]), entries[n])]
  {
  }

  /** The tally of one more entry is one more step. */
  lemma TallyOneMore(entries: seq<Json>, vs: seq<Verdict>, i: nat)
    requires |vs| == |entries| && i < |entries|
    ensures Tally(entries[..i + 1], vs[..i + 1]) == Step(Tally(entries[..i], vs[..i]), i, entries[i], vs[i])
  {
    Seqs.TakeOneMore(entries, i);
    Seqs.TakeOneMore(vs, i);
  }

  /** verify_audit_stream as a specification. */
  function Stream(entries: seq<Json>, key: string, signer: Signer): Result<Report, string>
  {
    Tally(entries, Verdicts(entries, key, signer))
  }

  /** The reason a failing verdict is reported under. */
  function Reason(v: Verdict): string {
    if v.MissingHmac? then "MISSING_HMAC" else "HMAC_MISMATCH"
  }

  /** The loop body of verify_audit_stream once the verdict is known: count the entry, then either
      raise, count it verified, or record it as a failure. */
  method Record(total: nat, verified: nat, failures: seq<HmacFailure>, index: nat, entry: Json, verdict: Verdict)
    returns (r: Result<Report, string>)
    ensures r == Step(Success(Report(total, verified, failures)), index, entry, verdict)
  {
    var total' := total + 1;
    var verified', failures' := verified, failures;
    if verdict.Raises? {
      return Failure(verdict.error);
    }
    if verdict.MissingHmac? {
      failures' := failures + [HmacFailure(index, "MISSING_HMAC", entry)];
    } else if verdict.HmacMismatch? {
      failures' := failures + [HmacFailure(index, "HMAC_MISMATCH", entry)];
    } else {
      verified' := verified + 1;
    }
    r := Success(Report(total', verified', failures'));
  }

  /** verify_audit_stream. */
  method VerifyAuditStream(entries: seq<Json>, key: string, signer: Signer) returns (r: Result<Report, string>)
    ensures r == Stream(entries, key, signer)
  {
    ghost var vs := Verdicts(entries, key, signer);
    var total := 0;
    var verified := 0;
    var failures: seq<HmacFailure> := [];
    var idx := 0;
    while idx < |entries|
      invariant idx <= |entries|
      invariant Tally(entries[..idx], vs[..idx]) == Success(Report(total, verified, failures))
    {
      var entry := entries[idx];
      TallyOneMore(entries, vs, idx);
      var verdict := CheckEntry(entry, key, signer);
      assert verdict == vs[idx];
      var next := Record(total, verified, failures, idx, entry, verdict);
      if next.Failure? {
        TallyFailureSticks(entries, vs, idx + 1);
        return next;
      }
      total, verified, failures := next.value.total, next.value.verified, next.value.failures;
      idx := idx + 1;
    }
    Seqs.TakeAll(entries);
    Seqs.TakeAll(vs);
    r := Success(Report(total, verified, failures));
  }

  /** Once a prefix of the entries raises, the whole tally raises the same error. */
  lemma {:induction false} TallyFailureSticks(entries: seq<Json>, vs: seq<Verdict>, i: nat)
    requires |vs| == |entries| && i <= |entries| && Tally(entries[..i], vs[..i]).Failure?
    ensures Tally(entries, vs) == Tally(entries[..i], vs[..i])
  {
    if i < |entries| {
      var n := |entries| - 1;
      assert entries[..n][..i] == entries[..i] && vs[..n][..i] == vs[..i];
      TallyFailureSticks(entries[..n], vs[..n], i);
    } else {
      assert entries[..i] == entries && vs[..i] == vs;
    }
  }

  /** The tally raises exactly when some verdict raises. */
  lemma {:induction false} TallyFailsIff(entries: seq<Json>, vs: seq<Verdict>)
    requires |vs| == |entries|
    ensures Tally(entries, vs).Failure? <==> exists i :: 0 <= i < |vs| && vs[i].Raises?
  {
    if entries != [] {
      var n := |entries| - 1;
      TallyFailsIff(entries[..n], vs[..n]);
      assert forall i :: 0 <= i < n ==> vs[..n][i] == vs[i];
    }
  }

  /** Every entry is counted once in total, and exactly once as verified or as a failure. */
  lemma {:induction false} TallyCounts(entries: seq<Json>, vs: seq<Verdict>)
    requires |vs| == |entries|
    ensures Tally(entries, vs).Success? ==>
      var r := Tally(entries, vs).value;
      r.total == |entries| && r.verified + |r.failures| == r.total
  {
    if entries != [] {
      var n := |entries| - 1;
      TallyCounts(entries[..n], vs[..n]);
    }
  }

  /** Entries that all verify are reported all verified, with no failure. */
  lemma {:induction false} TallyAllVerified(entries: seq<Json>, vs: seq<Verdict>)
    requires |vs| == |entries| && forall i :: 0 <= i < |vs| ==> vs[i].Verified?
    ensures Tally(entries, vs) == Success(Report(|entries|, |entries|, []))
  {
    if entries != [] {
      var n := |entries| - 1;
      assert forall i :: 0 <= i < n ==> vs[..n][i] == vs[i];
      TallyAllVerified(entries[..n], vs[..n]);
    }
  }

  /** Each failure records the position of an entry that does not verify, that entry and the reason its
      verdict gives, and the failures come in increasing position order. */
  lemma {:induction false} TallyFailuresSound(entries: seq<Json>, vs: seq<Verdict>)
    requires |vs| == |entries|
    ensures Tally(entries, vs).Success? ==>
      var r := Tally(entries, vs).value;
      && (forall j :: 0 <= j < |r.failures| ==>
            && r.failures[j].index < |entries|
            && r.failures[j].entry == entries[r.failures[j].index]
            && !vs[r.failures[j].index].Verified?
            && r.failures[j].reason == Reason(vs[r.failures[j].index]))
      && (forall j, j' :: 0 <= j < j' < |r.failures| ==> r.failures[j].index < r.failures[j'].index)
  {
    if entries != [] && Tally(entries, vs).Success? {
      var n := |entries| - 1;
      TallyLast(entries, vs);
      TallyFailuresSound(entries[..n], vs[..n]);
      var p := Tally(entries[..n], vs[..n]).value;
      var r := Tally(entries, vs).value;
      forall j | 0 <= j < |r.failures|
        ensures r.failures[j].index < |entries| && r.failures[j].entry == entries[r.failures[j].index]
        ensures !vs[r.failures[j].index].Verified? && r.failures[j].reason == Reason(vs[r.failures[j].index])
      {
        if j < |p.failures| {
          assert r.failures[j] == p.failures[j];
          var i := p.failures[j].index;
          assert entries[..n][i] == entries[i] && vs[..n][i] == vs[i];
        }
      }
    }
  }

  /** Every entry that does not verify is reported. */
  lemma {:induction false} TallyFailuresComplete(entries: seq<Json>, vs: seq<Verdict>)
    requires |vs| == |entries|
    ensures Tally(entries, vs).Success? ==>
      var r := Tally(entries, vs).value;
      forall i :: 0 <= i < |vs| && !vs[i].Verified? ==> exists j :: 0 <= j < |r.failures| && r.failures[j].index == i
  {
    if entries != [] && Tally(entries, vs).Success? {
      var n := |entries| - 1;
      TallyLast(entries, vs);
      TallyFailuresComplete(entries[..n], vs[..n]);
      var p := Tally(entries[..n], vs[..n]).value;
      var r := Tally(entries, vs).value;
      forall i | 0 <= i < |vs| && !vs[i].Verified?
        ensures exists j :: 0 <= j < |r.failures| && r.failures[j].index == i
      {
        if i < n {
          assert vs[..n][i] == vs[i];
          var j :| 0 <= j < |p.failures| && p.failures[j].index == i;
          assert r.failures[j] == p.failures[j];
        } else {
          assert r.failures[|p.failures|].index == n;
        }
      }
    }
  }

  /** verify_audit_stream raises exactly when one entry's check raises. Otherwise every entry is counted
      once, either as verified or as a failure that records its position, the entry and its reason
      (MISSING_HMAC for a falsy signature, else HMAC_MISMATCH), failures in position order, and every
      entry that does not verify is among them. */
  lemma StreamAccounting(entries: seq<Json>, key: string, signer: Signer)
    ensures Stream(entries, key, signer).Failure? <==>
      exists i :: 0 <= i < |entries| && CheckEntry(entries[i], key, signer).Raises?
    ensures Stream(entries, key, signer).Success? ==>
      var r := Stream(entries, key, signer).value;
      && r.total == |entries|
      && r.verified + |r.failures| == r.total
      && (forall j :: 0 <= j < |r.failures| ==>
            && r.failures[j].index < |entries|
            && r.failures[j].entry == entries[r.failures[j].index]
            && !CheckEntry(r.failures[j].entry, key, signer).Verified?
            && r.failures[j].reason == Reason(CheckEntry(r.failures[j].entry, key, signer)))
      && (forall j, j' :: 0 <= j < j' < |r.failures| ==> r.failures[j].index < r.failures[j'].index)
      && (forall i :: 0 <= i < |entries| && !CheckEntry(entries[i], key, signer).Verified? ==>
            exists j :: 0 <= j < |r.failures| && r.failures[j].index == i)
  {
    var vs := Verdicts(entries, key, signer);
    TallyFailsIff(entries, vs);
    TallyCounts(entries, vs);
    TallyFailuresSound(entries, vs);
    TallyFailuresComplete(entries, vs);
  }

  /** A stream whose entries all verify reports them all verified and no failure. */
  lemma StreamAllVerified(entries: seq<Json>, key: string, signer: Signer)
    requires forall i :: 0 <= i < |entries| ==> CheckEntry(entries[i], key, signer).Verified?
    ensures Stream(entries, key, signer) == Success(Report(|entries|, |entries|, []))
  {
    TallyAllVerified(entries, Verdicts(entries, key, signer));
  }

  /** The line append_signed_audit writes for a payload without its own "hmac" key, signed under a key,
      verifies under that key. */
  lemma SignedEntryVerifies(payload: Entry, sessionId: Option<string>, hmacKey: Option<string>, env: Env)
    requires "hmac" !in payload
    requires HexDigests(env.signer)
    requires SignedEntry(payload, sessionId, hmacKey, env).Success?
    requires ResolveKey(hmacKey, env.host.envKey).Some?
    ensures CheckEntry(JObj(SignedEntry(payload, sessionId, hmacKey, env).value),
                       ResolveKey(hmacKey, env.host.envKey).value, env.signer).Verified?
  {
    var e := Enrich(payload, sessionId, env.host).value;
    var k := ResolveKey(hmacKey, env.host.envKey).value;
    var signed := SignedEntry(payload, sessionId, hmacKey, env).value;
    assert "hmac" !in e;
    assert NormalizeEntry(signed) == e;
  }

  /** Without any key the writer stores a null signature, which verifies as MISSING_HMAC. */
  lemma UnsignedEntryIsMissing(payload: Entry, sessionId: Option<string>, hmacKey: Option<string>, env: Env, key: string)
    requires SignedEntry(payload, sessionId, hmacKey, env).Success?
    requires ResolveKey(hmacKey, env.host.envKey).None?
    ensures CheckEntry(JObj(SignedEntry(payload, sessionId, hmacKey, env).value), key, env.signer).MissingHmac?
  {
  }

  /** A payload carrying its own "hmac" key is signed with that key inside the message, so its line can
      never verify once the collision-free digest has replaced it. */
  lemma PayloadHmacNeverVerifies(payload: Entry, sessionId: Option<string>, hmacKey: Option<string>, env: Env)
    requires "hmac" in payload
    requires CollisionFree(env.signer, ResolveKey(hmacKey, env.host.envKey).GetOr(""))
    requires SignedEntry(payload, sessionId, hmacKey, env).Success?
    requires Representable(JObj(Enrich(payload, sessionId, env.host).value))
    requires ResolveKey(hmacKey, env.host.envKey).Some?
    ensures !CheckEntry(JObj(SignedEntry(payload, sessionId, hmacKey, env).value),
                        ResolveKey(hmacKey, env.host.envKey).value, env.signer).Verified?
  {
    var e := Enrich(payload, sessionId, env.host).value;
    var signed := SignedEntry(payload, sessionId, hmacKey, env).value;
    assert "hmac" in e;
    assert NormalizeEntry(signed) != e by {
      assert "hmac" !in NormalizeEntry(signed);
    }
  }

  /** Changing any field other than the signature of a verified entry makes it a mismatch. */
  lemma TamperedEntryMismatches(e: Entry, tampered: Entry, key: string, signer: Signer)
    requires HexDigests(signer) && CollisionFree(signer, key)
    requires Representable(JObj(e)) && Representable(JObj(tampered))
    requires CheckEntry(JObj(e), key, signer).Verified?
    requires "hmac" in tampered && tampered["hmac"] == e["hmac"]
    requires NormalizeEntry(tampered) != NormalizeEntry(e)
    ensures CheckEntry(JObj(tampered), key, signer).HmacMismatch?
  {
    assert Digest(tampered, key, signer) != Digest(e, key, signer);
  }

  /** The record verify_audit_file substitutes for a line json.loads rejects. */
  function ErrorEntry(line: string, error: string): (e: Json)
    ensures forall key, signer :: CheckEntry(e, key, signer).MissingHmac?
  {
    JObj(map["raw" := JStr(line), "error" := JStr(error), "hmac" := JNull])
  }

  /** The entries verify_audit_file builds from the lines of the file: blank lines skipped, every other
      line stripped and parsed. */
  function FileEntries(lines: seq<string>, codec: Codec): (es: seq<Json>)
    ensures |es| <= |lines|
  {
    if lines == [] then []
    else FileEntries(lines[..|lines| - 1], codec) + EntryOf(lines[|lines| - 1], codec)
  }

  /** The entry one line contributes: none for a blank line, else the parsed value or the error record. */
  function EntryOf(line: string, codec: Codec): (es: seq<Json>)
    ensures |es| <= 1 && (es == [] <==> Strip(line) == "")
  {
    var t := Strip(line);
    if t == "" then []
    else match codec.parse(t)
      case Success(v) => [v]
      case Failure(msg) => [ErrorEntry(t, msg)]
  }

  /** verify_audit_file on the text of the file: str.splitlines() cuts it into lines. */
  method VerifyAuditFile(text: string, key: string, signer: Signer, codec: Codec) returns (r: Result<Report, string>)
    ensures r == Stream(FileEntries(Lines(AllBoundaries, text), codec), key, signer)
  {
    var lines := Lines(AllBoundaries, text);
    var entries: seq<Json> := [];
    var idx := 0;
    while idx < |lines|
      invariant idx <= |lines|
      invariant entries == FileEntries(lines[..idx], codec)
    {
      Seqs.TakeOneMore(lines, idx);
      var line := Strip(lines[idx]);
      if line != "" {
        match codec.parse(line) {
          case Success(v) => entries := entries + [v];
          case Failure(msg) => entries := entries + [ErrorEntry(line, msg)];
        }
      }
      assert entries == FileEntries(lines[..idx], codec) + EntryOf(lines[idx], codec);
      idx := idx + 1;
    }
    Seqs.TakeAll(lines);
    r := VerifyAuditStream(entries, key, signer);
  }

  /** Failure indices count the non-blank lines read so far, not physical lines: blank lines in between
      leave the entries unchanged. */
  lemma {:induction false} BlankLinesIgnored(lines: seq<string>, blank: seq<string>, codec: Codec)
    requires forall i :: 0 <= i < |blank| ==> Strip(blank[i]) == ""
    ensures FileEntries(lines + blank, codec) == FileEntries(lines, codec)
  {
    if blank == [] {
      assert lines + blank == lines;
    } else {
      var n := |blank| - 1;
      assert forall i :: 0 <= i < n ==> blank[..n][i] == blank[i];
      BlankLinesIgnored(lines, blank[..n], codec);
      Seqs.DropLastOfAppend(lines, blank);
    }
  }

  /** What the audit writer's json.dumps (the codec's `dump`, without indent) produces, as far as line
      splitting is concerned: a dict dumps to text starting with
      "{" and ending with "}", and no dump holds a raw "\n" or "\r" (json.dumps escapes every control
      character). */
  ghost predicate DumpsOneLine(codec: Codec) {
    forall v :: var d := codec.dump(v);
      && NoBreak(Universal, d)
      && (v.JObj? ==> d != [] && d[0] == '{' && d[|d| - 1] == '}')
  }

  /** A line cut in two by a boundary other than "\r" reads as two lines. */
  lemma LinesSplitAt(mode: Newlines, a: string, c: char, b: string)
    requires NoBreak(mode, a) && IsBreak(mode, c) && c != '\r' && NoBreak(mode, b)
    ensures Lines(mode, a + [c] + b + "\n") == [a, b]
  {
    var text := a + [c] + b + "\n";
    assert text[..|a|] == a;
    IndexOfBreakAt(mode, text, |a|);
    assert text[|a| + 1..] == b + "\n" + "";
    LinesCons(mode, b, "");
    assert Lines(mode, "") == [];
  }

  /** Two lines that are not blank give two entries. */
  lemma TwoEntries(a: string, b: string, codec: Codec)
    requires Strip(a) != "" && Strip(b) != ""
    ensures |FileEntries([a, b], codec)| == 2
  {
    assert [a, b][..1] == [a];
    assert [a][..0] == [];
    assert FileEntries([a, b], codec) == FileEntries([a], codec) + EntryOf(b, codec);
    assert FileEntries([a], codec) == FileEntries([], codec) + EntryOf(a, codec);
  }

  /** A line that U+2028 cuts into two non-blank halves is read as two entries. */
  lemma SeparatorSplitsLine(a: string, b: string, codec: Codec)
    requires NoBreak(AllBoundaries, a) && a != [] && !IsSpace(a[0]) && !IsSpace(a[|a| - 1])
    requires NoBreak(AllBoundaries, b) && b != [] && !IsSpace(b[0]) && !IsSpace(b[|b| - 1])
    ensures |FileEntries(Lines(AllBoundaries, a + ['\U{2028}'] + b + "\n"), codec)| == 2
  {
    LinesSplitAt(AllBoundaries, a, '\U{2028}', b);
    StripFixed(a);
    StripFixed(b);
    TwoEntries(a, b, codec);
  }

  /** As written, a single line holding U+2028 (which json.dumps with ensure_ascii=False leaves raw)
      is read back by str.splitlines() as two records: one signed entry is counted twice. */
  lemma LineSeparatorSplitsEntry(codec: Codec, text: string)
    requires text == "{\"note\": \"a\U{2028}b\"}\n"
    ensures |FileEntries(Lines(AllBoundaries, text), codec)| == 2
  {
    var first := "{\"note\": \"a";
    var second := "b\"}";
    assert text == first + ['\U{2028}'] + second + "\n";
    SeparatorSplitsLine(first, second, codec);
  }

  /** The reading verify_audit_file evidently intends: one record per line the writer appended, i.e. lines
      ended by "\n" as written, not by every Unicode line boundary. */
  method VerifyAuditFileByLine(text: string, key: string, signer: Signer, codec: Codec) returns (r: Result<Report, string>)
    ensures r == Stream(FileEntries(Lines(LineFeed, text), codec), key, signer)
  {
    var lines := Lines(LineFeed, text);
    var entries: seq<Json> := [];
    var idx := 0;
    while idx < |lines|
      invariant idx <= |lines|
      invariant entries == FileEntries(lines[..idx], codec)
    {
      Seqs.TakeOneMore(lines, idx);
      var line := Strip(lines[idx]);
      if line != "" {
        match codec.parse(line) {
          case Success(v) => entries := entries + [v];
          case Failure(msg) => entries := entries + [ErrorEntry(line, msg)];
        }
      }
      assert entries == FileEntries(lines[..idx], codec) + EntryOf(lines[idx], codec);
      idx := idx + 1;
    }
    Seqs.TakeAll(lines);
    r := VerifyAuditStream(entries, key, signer);
  }

  /** The lines of a log holding these entries, one json.dumps line each. */
  function DumpedLines(entries: seq<Entry>, codec: Codec): (ls: seq<string>)
    ensures |ls| == |entries| && forall i :: 0 <= i < |entries| ==> ls[i] == codec.dump(JObj(entries[i]))
  {
    if entries == [] then [] else [codec.dump(JObj(entries[0]))] + DumpedLines(entries[1..], codec)
  }

  function Objects(entries: seq<Entry>): (vs: seq<Json>)
    ensures |vs| == |entries| && forall i :: 0 <= i < |entries| ==> vs[i] == JObj(entries[i])
  {
    if entries == [] then [] else Objects(entries[..|entries| - 1]) + [JObj(entries[|entries| - 1])]
  }

  /** A dumped entry, read back as a line, is that entry. */
  lemma EntryOfDumped(e: Entry, codec: Codec)
    requires Faithful(codec) && DumpsOneLine(codec) && Representable(JObj(e))
    ensures EntryOf(codec.dump(JObj(e)), codec) == [JObj(e)]
  {
    var d := codec.dump(JObj(e));
    assert d != [] && d[0] == '{' && d[|d| - 1] == '}';
    StripFixed(d);
    assert codec.parse(d) == Success(JObj(e));
  }

  lemma {:induction false} FileEntriesOfDumped(entries: seq<Entry>, codec: Codec)
    requires forall i :: 0 <= i < |entries| ==> EntryOf(codec.dump(JObj(entries[i])), codec) == [JObj(entries[i])]
    ensures FileEntries(DumpedLines(entries, codec), codec) == Objects(entries)
  {
    if entries != [] {
      var n := |entries| - 1;
      assert forall i :: 0 <= i < n ==> entries[..n][i] == entries[i];
      FileEntriesOfDumped(entries[..n], codec);
      DumpedLinesPrefix(entries, codec);
    }
  }

  /** The dumps of all but the last entry are all but the last line. */
  lemma DumpedLinesPrefix(entries: seq<Entry>, codec: Codec)
    requires entries != []
    ensures DumpedLines(entries, codec)[..|entries| - 1] == DumpedLines(entries[..|entries| - 1], codec)
  {
  }

  /** Every entry the writer appended verifies when the log is read back line by line. */
  lemma WrittenLogVerifies(entries: seq<Entry>, key: string, signer: Signer, codec: Codec)
    requires Faithful(codec) && DumpsOneLine(codec) && HexDigests(signer)
    requires forall i :: 0 <= i < |entries| ==> Representable(JObj(entries[i]))
    requires forall i :: 0 <= i < |entries| ==> CheckEntry(JObj(entries[i]), key, signer).Verified?
    ensures Stream(FileEntries(Lines(LineFeed, Terminated(DumpedLines(entries, codec))), codec), key, signer)
            == Success(Report(|entries|, |entries|, []))
  {
    var lines := DumpedLines(entries, codec);
    forall i | 0 <= i < |lines|
      ensures NoBreak(LineFeed, lines[i])
    {
      assert lines[i] == codec.dump(JObj(entries[i]));
    }
    LinesOfTerminated(LineFeed, lines);
    forall i | 0 <= i < |entries|
      ensures EntryOf(codec.dump(JObj(entries[i])), codec) == [JObj(entries[i])]
    {
      EntryOfDumped(entries[i], codec);
    }
    FileEntriesOfDumped(entries, codec);
    StreamAllVerified(Objects(entries), key, signer);
  }

  /** The verifier as written (VerifyAuditFile, which splits with str.splitlines) reads a writer's log
      exactly as the line-by-line reader does, and so accepts every entry, as long as no dumped entry
      holds one of the other line boundaries splitlines breaks at. */
  lemma WrittenLogVerifiesAsWritten(entries: seq<Entry>, key: string, signer: Signer, codec: Codec)
    requires Faithful(codec) && DumpsOneLine(codec) && HexDigests(signer)
    requires forall i :: 0 <= i < |entries| ==> Representable(JObj(entries[i]))
    requires forall i :: 0 <= i < |entries| ==> CheckEntry(JObj(entries[i]), key, signer).Verified?
    requires forall i :: 0 <= i < |entries| ==> NoBreak(AllBoundaries, codec.dump(JObj(entries[i])))
    ensures Lines(AllBoundaries, Terminated(DumpedLines(entries, codec)))
            == Lines(LineFeed, Terminated(DumpedLines(entries, codec)))
    ensures Stream(FileEntries(Lines(AllBoundaries, Terminated(DumpedLines(entries, codec))), codec), key, signer)
            == Success(Report(|entries|, |entries|, []))
  {
    var lines := DumpedLines(entries, codec);
    forall i | 0 <= i < |lines|
      ensures NoBreak(AllBoundaries, lines[i]) && NoBreak(LineFeed, lines[i])
    {
      assert lines[i] == codec.dump(JObj(entries[i]));
    }
    LinesOfTerminated(AllBoundaries, lines);
    LinesOfTerminated(LineFeed, lines);
    WrittenLogVerifies(entries, key, signer, codec);
  }
}

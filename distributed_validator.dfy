/** Distributed validation: run one validation callable per node, hash what each returns, and check
    that the nodes agree. The thread pool is modelled as a sequential run in an arbitrary completion
    order; the callables' outcomes and SHA-256 of canonical JSON are supplied by the caller. */
module DistributedValidator {
  import opened Wrappers
  import opened Json
  import Text
  import Seqs
  import AuditLog

  /** NodeResult. */
  datatype NodeResult = NodeResult(nodeId: string, status: string, payload: Json, hash: Option<string>)

  /** NodeResult.to_dict: "hash" is present exactly when there is one. */
  function ToDict(r: NodeResult): (d: map<string, Json>)
    ensures "hash" in d <==> r.hash.Some?
    ensures r.hash.Some? ==> d["hash"] == JStr(r.hash.value)
    ensures d.Keys - {"hash"} == {"node_id", "status", "payload"}
    ensures d["node_id"] == JStr(r.nodeId) && d["status"] == JStr(r.status) && d["payload"] == r.payload
  {
    var d := map["node_id" := JStr(r.nodeId), "status" := JStr(r.status), "payload" := r.payload];
    if r.hash.Some? then d["hash" := JStr(r.hash.value)] else d
  }

  /** `{node_id: hash for each result with a hash}`: a later result overwrites an earlier one with the
      same id. */
  function HashMap(rs: seq<NodeResult>): map<string, string>
    decreases |rs|
  {
    if rs == [] then map[]
    else
      var m := HashMap(rs[..|rs| - 1]);
      var r := rs[|rs| - 1];
      if r.hash.Some? then m[r.nodeId := r.hash.value] else m
  }

  /** The keys of that dict in insertion order: each hashed id once, where it first appears. */
  function HashedIds(rs: seq<NodeResult>): seq<string>
    decreases |rs|
  {
    if rs == [] then []
    else
      var ids := HashedIds(rs[..|rs| - 1]);
      var r := rs[|rs| - 1];
      if r.hash.Some? && r.nodeId !in ids then ids + [r.nodeId] else ids
  }

  /** The ids of the results whose status is not "success", in order. */
  function FailedNodes(rs: seq<NodeResult>): (ids: seq<string>)
    ensures |ids| <= |rs|
    decreases |rs|
  {
    if rs == [] then []
    else
      var ids := FailedNodes(rs[..|rs| - 1]);
      var r := rs[|rs| - 1];
      if r.status != "success" then ids + [r.nodeId] else ids
  }

  /** The ids of the results whose status is "success", in order. */
  function SuccessfulNodes(rs: seq<NodeResult>): (ids: seq<string>)
    ensures |ids| + |FailedNodes(rs)| == |rs|
    decreases |rs|
  {
    if rs == [] then []
    else
      var ids := SuccessfulNodes(rs[..|rs| - 1]);
      var r := rs[|rs| - 1];
      if r.status == "success" then ids + [r.nodeId] else ids
  }

  /** What RedundancyChecker.evaluate returns; `unique_hashes` is list(set), so only its elements are
      determined. */
  datatype Redundancy = Redundancy(consistent: bool, hashes: map<string, string>, uniqueHashes: set<string>,
                                   failedNodes: seq<string>, mismatchedNodes: seq<string>)

  /** RedundancyChecker.evaluate. */
  function Evaluate(rs: seq<NodeResult>): (e: Redundancy)
    ensures e.hashes == HashMap(rs) && e.failedNodes == FailedNodes(rs)
    ensures e.uniqueHashes == HashMap(rs).Values
    ensures e.consistent <==> |e.uniqueHashes| <= 1 && e.failedNodes == []
    ensures e.mismatchedNodes == if |e.uniqueHashes| <= 1 then [] else HashedIds(rs)
  {
    var hashes := HashMap(rs);
    var unique := hashes.Values;
    var failed := FailedNodes(rs);
    Redundancy(|unique| <= 1 && failed == [], hashes, unique, failed, if |unique| <= 1 then [] else HashedIds(rs))
  }

  /** A node id is a key of the hash dict exactly when some result with that id carries a hash. */
  lemma {:induction false} HashMapKeys(rs: seq<NodeResult>)
    ensures forall k :: k in HashMap(rs) <==> exists r :: r in rs && r.nodeId == k && r.hash.Some?
    decreases |rs|
  {
    if rs != [] {
      var p := rs[..|rs| - 1];
      HashMapKeys(p);
      assert rs == p + [rs[|rs| - 1]];
    }
  }

  /** The listed mismatched ids are exactly the keys of the hash dict, each once. */
  lemma {:induction false} HashedIdsKeys(rs: seq<NodeResult>)
    ensures forall k :: k in HashedIds(rs) <==> k in HashMap(rs)
    ensures forall i, j :: 0 <= i < j < |HashedIds(rs)| ==> HashedIds(rs)[i] != HashedIds(rs)[j]
    decreases |rs|
  {
    if rs != [] {
      HashedIdsKeys(rs[..|rs| - 1]);
    }
  }

  /** Duplicate ids collapse and the last hash wins: a hash is the dict's value for its id when no
      later result with that id carries a hash. */
  lemma {:induction false} LastHashWins(rs: seq<NodeResult>, i: nat)
    requires i < |rs| && rs[i].hash.Some?
    requires forall j :: i < j < |rs| && rs[j].nodeId == rs[i].nodeId ==> rs[j].hash.None?
    ensures rs[i].nodeId in HashMap(rs) && HashMap(rs)[rs[i].nodeId] == rs[i].hash.value
    decreases |rs|
  {
    if i < |rs| - 1 {
      var p := rs[..|rs| - 1];
      assert p[i] == rs[i];
      LastHashWins(p, i);
    }
  }

  /** No two results share a node id. */
  predicate UniqueIds(rs: seq<NodeResult>) {
    forall i, j :: 0 <= i < j < |rs| ==> rs[i].nodeId != rs[j].nodeId
  }

  /** With unique ids every hash is the dict's value for its node. */
  lemma HashOfNode(rs: seq<NodeResult>, r: NodeResult)
    requires UniqueIds(rs) && r in rs && r.hash.Some?
    ensures r.nodeId in HashMap(rs) && HashMap(rs)[r.nodeId] == r.hash.value
  {
    var i :| 0 <= i < |rs| && rs[i] == r;
    LastHashWins(rs, i);
  }

  /** A node id is listed as failed exactly when some result with that id did not succeed. */
  lemma {:induction false} FailedMembers(rs: seq<NodeResult>)
    ensures forall k :: k in FailedNodes(rs) <==> exists r :: r in rs && r.nodeId == k && r.status != "success"
    decreases |rs|
  {
    if rs != [] {
      var p := rs[..|rs| - 1];
      FailedMembers(p);
      assert rs == p + [rs[|rs| - 1]];
    }
  }

  /** Every result's id is listed as successful or as failed according to its status, and the two
      lists together are as long as the results. */
  lemma {:induction false} NodesPartitioned(rs: seq<NodeResult>)
    ensures |SuccessfulNodes(rs)| + |FailedNodes(rs)| == |rs|
    ensures forall r :: r in rs && r.status == "success" ==> r.nodeId in SuccessfulNodes(rs)
    ensures forall r :: r in rs && r.status != "success" ==> r.nodeId in FailedNodes(rs)
    decreases |rs|
  {
    if rs != [] {
      var p := rs[..|rs| - 1];
      NodesPartitioned(p);
      assert rs == p + [rs[|rs| - 1]];
    }
  }

  /** With unique node ids the verdict does not depend on the order the results arrived in: the hash
      dict, the distinct hashes, consistency and the sets of failed and mismatched ids are the same
      for any reordering. */
  lemma OrderIndependent(rs: seq<NodeResult>, qs: seq<NodeResult>)
    requires forall r :: r in rs <==> r in qs
    requires UniqueIds(rs) && UniqueIds(qs)
    ensures Evaluate(rs).hashes == Evaluate(qs).hashes
    ensures Evaluate(rs).uniqueHashes == Evaluate(qs).uniqueHashes
    ensures Evaluate(rs).consistent == Evaluate(qs).consistent
    ensures forall k :: k in Evaluate(rs).failedNodes <==> k in Evaluate(qs).failedNodes
    ensures forall k :: k in Evaluate(rs).mismatchedNodes <==> k in Evaluate(qs).mismatchedNodes
  {
    HashMapKeys(rs);
    HashMapKeys(qs);
    var a, b := HashMap(rs), HashMap(qs);
    assert a.Keys == b.Keys;
    forall k | k in a
      ensures a[k] == b[k]
    {
      var r :| r in rs && r.nodeId == k && r.hash.Some?;
      HashOfNode(rs, r);
      HashOfNode(qs, r);
    }
    assert a == b;
    FailedMembers(rs);
    FailedMembers(qs);
    var f, g := FailedNodes(rs), FailedNodes(qs);
    assert f == [] <==> g == [] by {
      if f != [] {
        assert f[0] in f;
        var r :| r in rs && r.nodeId == f[0] && r.status != "success";
        assert r in qs;
        assert f[0] in g;
      }
      if g != [] {
        assert g[0] in g;
        var r :| r in qs && r.nodeId == g[0] && r.status != "success";
        assert r in rs;
        assert g[0] in f;
      }
    }
    HashedIdsKeys(rs);
    HashedIdsKeys(qs);
  }

  /** One validation task: its "node_id" entry (None when the key is absent) and the outcome of its
      callable — the value returned, or the message of the exception raised. */
  datatype Task = Task(nodeId: Option<Json>, outcome: Result<Json, string>)

  function DefaultId(index: nat): string {
    "node-" + Text.IntToString(index)
  }

  /** The id the init entry lists: `entry.get("node_id", f"node-{idx}")`, kept as given even when falsy. */
  function ListedId(t: Task, index: nat): Json {
    if t.nodeId.Some? then t.nodeId.value else JStr(DefaultId(index))
  }

  /** The id a result carries: `str(entry.get("node_id") or f"node-{index}")`. */
  function NodeIdOf(t: Task, index: nat, codec: Codec): (id: string)
    ensures t.nodeId.None? ==> id == DefaultId(index)
  {
    if t.nodeId.Some? && Truthy(t.nodeId.value) then Str(t.nodeId.value, codec) else DefaultId(index)
  }

  /** The result of one task: a success hashed with `digest`, or an error carrying the message and no hash. */
  function NodeOf(t: Task, index: nat, digest: Json -> string, codec: Codec): (r: NodeResult)
    ensures r.nodeId == NodeIdOf(t, index, codec)
    ensures r.status == "success" <==> t.outcome.Success?
    ensures r.hash.Some? <==> r.status == "success"
    ensures t.outcome.Success? ==> r.payload == t.outcome.value && r.hash == Some(digest(t.outcome.value))
    ensures t.outcome.Failure? ==> r.status == "error" && r.payload == JObj(map["error" := JStr(t.outcome.error)])
  {
    match t.outcome
    case Success(p) => NodeResult(NodeIdOf(t, index, codec), "success", p, Some(digest(p)))
    case Failure(msg) => NodeResult(NodeIdOf(t, index, codec), "error", JObj(map["error" := JStr(msg)]), None)
  }

  /** A completion order: every task index, each once. */
  predicate IsOrder(order: seq<nat>, n: nat) {
    && |order| == n
    && (forall k :: 0 <= k < |order| ==> order[k] < n)
    && (forall i :: 0 <= i < n ==> i in order)
  }

  /** The results in completion order. */
  function Completed(tasks: seq<Task>, order: seq<nat>, digest: Json -> string, codec: Codec): (rs: seq<NodeResult>)
    requires forall k :: 0 <= k < |order| ==> order[k] < |tasks|
    ensures |rs| == |order|
    ensures forall k :: 0 <= k < |order| ==> rs[k] == NodeOf(tasks[order[k]], order[k], digest, codec)
  {
    seq(|order|, k requires 0 <= k < |order| => NodeOf(tasks[order[k]], order[k], digest, codec))
  }

  lemma CompletedOneMore(tasks: seq<Task>, order: seq<nat>, k: nat, digest: Json -> string, codec: Codec)
    requires forall j :: 0 <= j < |order| ==> order[j] < |tasks|
    requires k < |order|
    ensures Completed(tasks, order[..k + 1], digest, codec)
      == Completed(tasks, order[..k], digest, codec) + [NodeOf(tasks[order[k]], order[k], digest, codec)]
  {
    Seqs.TakeOneMore(order, k);
  }

  /** Whatever the completion order, the results are one per task, the same ones. */
  lemma SameResults(tasks: seq<Task>, order1: seq<nat>, order2: seq<nat>, digest: Json -> string, codec: Codec)
    requires IsOrder(order1, |tasks|) && IsOrder(order2, |tasks|)
    ensures |Completed(tasks, order1, digest, codec)| == |Completed(tasks, order2, digest, codec)| == |tasks|
    ensures forall r :: r in Completed(tasks, order1, digest, codec) <==> r in Completed(tasks, order2, digest, codec)
  {
    CompletedMembers(tasks, order1, digest, codec);
    CompletedMembers(tasks, order2, digest, codec);
  }

  lemma CompletedMembers(tasks: seq<Task>, order: seq<nat>, digest: Json -> string, codec: Codec)
    requires IsOrder(order, |tasks|)
    ensures forall r :: r in Completed(tasks, order, digest, codec) <==>
      exists i :: 0 <= i < |tasks| && r == NodeOf(tasks[i], i, digest, codec)
  {
    var rs := Completed(tasks, order, digest, codec);
    forall r | r in rs
      ensures exists i :: 0 <= i < |tasks| && r == NodeOf(tasks[i], i, digest, codec)
    {
      var k :| 0 <= k < |rs| && rs[k] == r;
      var i := order[k];
      assert r == NodeOf(tasks[i], i, digest, codec);
    }
    forall i | 0 <= i < |tasks|
      ensures NodeOf(tasks[i], i, digest, codec) in rs
    {
      assert i in order;
      var k :| 0 <= k < |order| && order[k] == i;
      assert rs[k] == NodeOf(tasks[i], i, digest, codec);
    }
  }

  /** The entry _audit writes: module, event and session id, then the payload's own keys on top. */
  function AuditEntry(event: string, sessionId: Option<string>, payload: AuditLog.Entry): (e: AuditLog.Entry)
    ensures forall k :: k in payload ==> k in e && e[k] == payload[k]
    ensures "module" in e && "event" in e && "session_id" in e
    ensures "event" !in payload ==> e["event"] == JStr("qai.distributed/" + event)
  {
    map["module" := JStr("qai.distributed"), "event" := JStr("qai.distributed/" + event),
        "session_id" := (if sessionId.Some? then JStr(sessionId.value) else JNull)] + payload
  }

  /** _audit raises exactly when the caller's payload has a "session" that is not a dict: the three keys
      _audit sets itself never include "session". */
  lemma AuditEntryRaises(event: string, sessionId: Option<string>, payload: AuditLog.Entry, hmacKey: Option<string>,
                         env: AuditLog.Env)
    ensures AuditLog.SignedEntry(AuditEntry(event, sessionId, payload), sessionId, hmacKey, env).Failure?
      <==> "session" in payload && !payload["session"].JObj?
  {
    var e := AuditEntry(event, sessionId, payload);
    assert "session" in e ==> "session" in payload && e["session"] == payload["session"];
    AuditLog.EnrichMeaning(e, sessionId, env.host);
    AuditLog.SignedEntryMeaning(e, sessionId, hmacKey, env);
  }

  /** The init payload: the ids as listed (not as the results will carry them) and the task count. */
  function InitPayload(tasks: seq<Task>): AuditLog.Entry {
    map["nodes" := JArr(seq(|tasks|, i requires 0 <= i < |tasks| => ListedId(tasks[i], i))),
        "count" := JInt(|tasks|)]
  }

  /** The payload of one validation_node_result entry. */
  function ResultPayload(r: NodeResult): AuditLog.Entry {
    map["node_id" := JStr(r.nodeId), "status" := JStr(r.status),
        "hash" := (if r.hash.Some? then JStr(r.hash.value) else JNull), "payload" := r.payload]
  }

  /** The lines one validation_node_result entry per result appends, in order. */
  function ResultLines(rs: seq<NodeResult>, sessionId: Option<string>, hmacKey: Option<string>, env: AuditLog.Env): (ls: seq<string>)
    ensures |ls| <= |rs|
    decreases |rs|
  {
    if rs == [] then []
    else
      ResultLines(rs[..|rs| - 1], sessionId, hmacKey, env)
        + AuditLog.Written(AuditEntry("validation_node_result", sessionId, ResultPayload(rs[|rs| - 1])), sessionId, hmacKey, env)
  }

  lemma ResultLinesAppend(rs: seq<NodeResult>, r: NodeResult, sessionId: Option<string>, hmacKey: Option<string>,
                          env: AuditLog.Env)
    ensures ResultLines(rs + [r], sessionId, hmacKey, env) == ResultLines(rs, sessionId, hmacKey, env)
      + AuditLog.Written(AuditEntry("validation_node_result", sessionId, ResultPayload(r)), sessionId, hmacKey, env)
  {
    assert (rs + [r])[..|rs|] == rs;
  }

  /** What consolidate_results returns: the evaluation plus node_count and successful_nodes. */
  datatype Summary = Summary(redundancy: Redundancy, nodeCount: nat, successfulNodes: seq<string>)

  function Strings(xs: seq<string>): Json {
    JArr(Strs(xs))
  }

  /** The summary as the dict written to the log; `listed` is the order list(set) happened to give. */
  function SummaryPayload(s: Summary, listed: seq<string>): AuditLog.Entry {
    var e := s.redundancy;
    map["consistent" := JBool(e.consistent),
        "hashes" := JObj(map k | k in e.hashes :: JStr(e.hashes[k])),
        "unique_hashes" := Strings(listed),
        "failed_nodes" := Strings(e.failedNodes),
        "mismatched_nodes" := Strings(e.mismatchedNodes),
        "node_count" := JInt(s.nodeCount),
        "successful_nodes" := Strings(s.successfulNodes)]
  }

  /** The summary of a batch: the successful and failed ids partition the results. */
  lemma SummaryPartitions(rs: seq<NodeResult>)
    ensures var s := Summary(Evaluate(rs), |rs|, SuccessfulNodes(rs));
      && |s.successfulNodes| + |s.redundancy.failedNodes| == s.nodeCount
      && (forall r :: r in rs && r.status == "success" ==> r.nodeId in s.successfulNodes)
      && (forall r :: r in rs && r.status != "success" ==> r.nodeId in s.redundancy.failedNodes)
  {
    NodesPartitioned(rs);
  }

  /** DistributedValidator with the default RedundancyChecker; `digest` is SHA-256 of canonical JSON. */
  class DistributedValidator {
    var results: seq<NodeResult>
    const audit: AuditLog.AuditFile?
    const sessionId: Option<string>
    const hmacKey: Option<string>
    const env: AuditLog.Env
    const digest: Json -> string

    constructor (audit: AuditLog.AuditFile?, sessionId: Option<string>, hmacKey: Option<string>, env: AuditLog.Env,
                 digest: Json -> string)
      ensures results == [] && this.audit == audit && this.sessionId == sessionId && this.hmacKey == hmacKey
      ensures this.env == env && this.digest == digest
    {
      results := [];
      this.audit := audit;
      this.sessionId := sessionId;
      this.hmacKey := hmacKey;
      this.env := env;
      this.digest := digest;
    }

    /** _audit: nothing without an audit log; otherwise one signed entry, or the AttributeError
        append_signed_audit raises, before writing, for a payload whose "session" is not a dict. */
    method Audit(event: string, payload: AuditLog.Entry) returns (raised: Option<string>)
      modifies audit
      ensures raised.Some? <==> audit != null && "session" in payload && !payload["session"].JObj?
      ensures audit != null ==>
        audit.lines == old(audit.lines) + AuditLog.Written(AuditEntry(event, sessionId, payload), sessionId, hmacKey, env)
    {
      raised := None;
      if audit != null {
        var written, _ := audit.AppendSigned(AuditEntry(event, sessionId, payload), sessionId, hmacKey, env);
        AuditEntryRaises(event, sessionId, payload, hmacKey, env);
        if written.Failure? {
          raised := Some(written.error);
        }
      }
    }

    /** run_validation_batch, with the tasks completing in `order`: nothing at all for no tasks;
        otherwise one init entry, then per completed task its result and one entry for it. */
    method RunValidationBatch(tasks: seq<Task>, order: seq<nat>) returns (rs: seq<NodeResult>)
      requires IsOrder(order, |tasks|)
      modifies this, audit
      ensures rs == results == Completed(tasks, order, digest, env.codec)
      ensures audit != null && tasks == [] ==> audit.lines == old(audit.lines)
      ensures audit != null && tasks != [] ==>
        audit.lines == old(audit.lines)
          + AuditLog.Written(AuditEntry("init", sessionId, InitPayload(tasks)), sessionId, hmacKey, env)
          + ResultLines(results, sessionId, hmacKey, env)
    {
      results := [];
      if tasks == [] {
        return results;
      }
      var raised := Audit("init", InitPayload(tasks));
      assert raised.None?;
      rs := RecordAll(tasks, order);
    }

    /** The tasks completing in `order`, each recorded as it completes. */
    method RecordAll(tasks: seq<Task>, order: seq<nat>) returns (rs: seq<NodeResult>)
      requires forall k :: 0 <= k < |order| ==> order[k] < |tasks|
      requires results == []
      modifies this, audit
      ensures rs == results == Completed(tasks, order, digest, env.codec)
      ensures audit != null ==> audit.lines == old(audit.lines) + ResultLines(results, sessionId, hmacKey, env)
    {
      ghost var base := if audit != null then audit.lines else [];
      var k := 0;
      while k < |order|
        invariant 0 <= k <= |order|
        invariant results == Completed(tasks, order[..k], digest, env.codec)
        invariant audit != null ==> audit.lines == base + ResultLines(results, sessionId, hmacKey, env)
      {
        Complete(tasks, order, k, base);
        k := k + 1;
      }
      assert order[..k] == order;
      rs := results;
    }

    /** The k-th task to complete. */
    method Complete(tasks: seq<Task>, order: seq<nat>, k: nat, ghost base: seq<string>)
      requires forall j :: 0 <= j < |order| ==> order[j] < |tasks|
      requires k < |order|
      requires results == Completed(tasks, order[..k], digest, env.codec)
      requires audit != null ==> audit.lines == base + ResultLines(results, sessionId, hmacKey, env)
      modifies this, audit
      ensures results == Completed(tasks, order[..k + 1], digest, env.codec)
      ensures audit != null ==> audit.lines == base + ResultLines(results, sessionId, hmacKey, env)
    {
      CompletedOneMore(tasks, order, k, digest, env.codec);
      Record(NodeOf(tasks[order[k]], order[k], digest, env.codec), base);
    }

    /** One finished task: its result is appended and logged after those already logged since `base`. */
    method Record(r: NodeResult, ghost base: seq<string>)
      requires audit != null ==> audit.lines == base + ResultLines(results, sessionId, hmacKey, env)
      modifies this, audit
      ensures results == old(results) + [r]
      ensures audit != null ==> audit.lines == base + ResultLines(results, sessionId, hmacKey, env)
    {
      ghost var done := results;
      ResultLinesAppend(done, r, sessionId, hmacKey, env);
      results := results + [r];
      var raised := Audit("validation_node_result", ResultPayload(r));
      assert raised.None?;
      if audit != null {
        Seqs.AppendAssoc(base, ResultLines(done, sessionId, hmacKey, env),
          AuditLog.Written(AuditEntry("validation_node_result", sessionId, ResultPayload(r)), sessionId, hmacKey, env));
      }
    }

    /** emit_signed_event: a missing or empty payload is logged as `{}`; a payload whose "session" is
        not a dict raises AttributeError when there is an audit log. */
    method EmitSignedEvent(eventName: string, payload: Option<AuditLog.Entry>) returns (raised: Option<string>)
      modifies audit
      ensures raised.Some? <==> audit != null && payload.Some? && "session" in payload.value
                                 && !payload.value["session"].JObj?
      ensures audit != null ==>
        audit.lines == old(audit.lines)
          + AuditLog.Written(AuditEntry(eventName, sessionId, if payload.Some? then payload.value else map[]),
                             sessionId, hmacKey, env)
    {
      raised := Audit(eventName, if payload.Some? then payload.value else map[]);
    }

    /** consolidate_results: evaluate the last batch, add the node count and the successful ids, and
        log the summary as one validation_complete entry. */
    method ConsolidateResults(listed: seq<string>) returns (s: Summary)
      requires forall h :: h in listed <==> h in HashMap(results).Values
      modifies audit
      ensures s == Summary(Evaluate(results), |results|, SuccessfulNodes(results))
      ensures audit != null ==>
        audit.lines == old(audit.lines)
          + AuditLog.Written(AuditEntry("validation_complete", sessionId, SummaryPayload(s, listed)), sessionId, hmacKey, env)
    {
      s := Summary(Evaluate(results), |results|, SuccessfulNodes(results));
      var payload := SummaryPayload(s, listed);
      assert "session" !in payload;
      var raised := EmitSignedEvent("validation_complete", Some(payload));
      assert raised.None?;
    }
  }
}

/** The signed audit-trail writer (append_signed_audit): enrich a payload with session metadata, sign it
    with HMAC-SHA-256 over canonical JSON, and append it as one line to an append-only log. */
module AuditLog {
  import opened Wrappers
  import opened Json

  type Entry = map<string, Json>

  /** HMAC-SHA-256 hex digest of a message under a key, and canonical JSON (sort_keys=True,
      ensure_ascii=False) of an object: both supplied by the caller, not modelled. */
  datatype Signer = Signer(hmac: (string, string) -> string, canon: Entry -> string)

  /** What the writer reads from its process: the UTC clock rendered as ISO-8601 with "Z", the
      user/hostname/platform/pid defaults (_default_session_info) and the QAI_HMAC_KEY variable
      ("" when unset). */
  datatype Host = Host(now: string, sessionInfo: Entry, envKey: string)

  /** Everything the writer needs besides its arguments. */
  datatype Env = Env(host: Host, signer: Signer, codec: Codec)

  /** Python truthiness of an optional str argument. */
  predicate Given(s: Option<string>) {
    s.Some? && s.value != ""
  }

  /** `key = hmac_key or os.environ.get("QAI_HMAC_KEY")`, then `if key:`. */
  function ResolveKey(hmacKey: Option<string>, envKey: string): (k: Option<string>)
    ensures Given(hmacKey) ==> k == hmacKey
    ensures !Given(hmacKey) ==> (k.Some? <==> envKey != "")
    ensures !Given(hmacKey) && k.Some? ==> k.value == envKey
    ensures k.Some? ==> k.value != ""
  {
    var key := if Given(hmacKey) then hmacKey.value else envKey;
    if key != "" then Some(key) else None
  }

  /** `for key, value in defaults.items(): m.setdefault(key, value)`. */
  function SetDefaults(m: Entry, defaults: Entry): (r: Entry)
    ensures r.Keys == m.Keys + defaults.Keys
    ensures forall k :: k in m ==> r[k] == m[k]
    ensures forall k :: k in defaults && k !in m ==> r[k] == defaults[k]
  {
    map k | k in m.Keys + defaults.Keys :: if k in m then m[k] else defaults[k]
  }

  /** The session map the entry ends up with: the caller's nested dict with missing defaults added. */
  function FilledSession(payload: Entry, host: Host): Entry
    requires "session" in payload ==> payload["session"].JObj?
  {
    SetDefaults(if "session" in payload then payload["session"].o else map[], host.sessionInfo)
  }

  /** The entry before signing; a Failure where Python raises AttributeError because the payload's
      "session" is not a dict. */
  function Enrich(payload: Entry, sessionId: Option<string>, host: Host): (r: Result<Entry, string>)
    ensures r.Success? ==> payload.Keys + {"ts", "session"} <= r.value.Keys && r.value["session"].JObj?
    ensures r.Success? && Given(sessionId) ==> "session_id" in r.value && r.value["session_id"] == JStr(sessionId.value)
  {
    var e1 := if Given(sessionId) then payload["session_id" := JStr(sessionId.value)] else payload;
    var e2 := if "ts" in e1 then e1 else e1["ts" := JStr(host.now)];
    if "session" in e2 && !e2["session"].JObj? then Failure("AttributeError: session is not a dict")
    else Success(e2["session" := JObj(FilledSession(payload, host))])
  }

  /** Enrichment fails only for a non-dict session; otherwise it keeps every payload field except that a
      given session_id overrides, a missing ts is stamped with the clock and the session is filled with the
      host defaults that are missing from it. */
  lemma EnrichMeaning(payload: Entry, sessionId: Option<string>, host: Host)
    ensures Enrich(payload, sessionId, host).Failure? <==> "session" in payload && !payload["session"].JObj?
    ensures Enrich(payload, sessionId, host).Success? ==>
      var r := Enrich(payload, sessionId, host).value;
      && r.Keys == payload.Keys + {"ts", "session"} + (if Given(sessionId) then {"session_id"} else {})
      && (Given(sessionId) ==> r["session_id"] == JStr(sessionId.value))
      && ("ts" in payload ==> r["ts"] == payload["ts"])
      && ("ts" !in payload ==> r["ts"] == JStr(host.now))
      && r["session"] == JObj(FilledSession(payload, host))
      && (forall k :: k in payload && k != "ts" && k != "session" && (k == "session_id" ==> !Given(sessionId))
            ==> r[k] == payload[k])
  {
  }

  /** `entry["hmac"] = signature`: the digest of the entry as it stands, or null without a key. */
  function Sign(e: Entry, key: Option<string>, signer: Signer): (r: Entry)
  {
    e["hmac" := if key.Some? then JStr(signer.hmac(key.value, signer.canon(e))) else JNull]
  }

  /** The entry append_signed_audit writes for these arguments, or the error it raises. */
  function SignedEntry(payload: Entry, sessionId: Option<string>, hmacKey: Option<string>, env: Env): (r: Result<Entry, string>)
  {
    match Enrich(payload, sessionId, env.host)
    case Failure(msg) => Failure(msg)
    case Success(e) => Success(Sign(e, ResolveKey(hmacKey, env.host.envKey), env.signer))
  }

  /** The written entry is the enriched one plus an "hmac" field: the digest of the enriched entry under
      the resolved key, or null when no key resolves. */
  lemma SignedEntryMeaning(payload: Entry, sessionId: Option<string>, hmacKey: Option<string>, env: Env)
    ensures SignedEntry(payload, sessionId, hmacKey, env).Success? <==> Enrich(payload, sessionId, env.host).Success?
    ensures SignedEntry(payload, sessionId, hmacKey, env).Success? ==>
      var r := SignedEntry(payload, sessionId, hmacKey, env).value;
      var e := Enrich(payload, sessionId, env.host).value;
      var key := ResolveKey(hmacKey, env.host.envKey);
      && r.Keys == e.Keys + {"hmac"}
      && (forall k :: k in e && k != "hmac" ==> r[k] == e[k])
      && (key.None? ==> r["hmac"] == JNull)
      && (key.Some? ==> r["hmac"] == JStr(env.signer.hmac(key.value, env.signer.canon(e))))
  {
  }

  /** The lines one call appends: exactly one, or none when it raises. */
  function Written(payload: Entry, sessionId: Option<string>, hmacKey: Option<string>, env: Env): (ls: seq<string>)
    ensures |ls| <= 1
    ensures |ls| == 1 <==> SignedEntry(payload, sessionId, hmacKey, env).Success?
  {
    match SignedEntry(payload, sessionId, hmacKey, env)
    case Success(e) => [env.codec.dump(JObj(e))]
    case Failure(_) => []
  }

  /** The caller's own payload after the call: the top level is copied and stays as it was, but a
      nested "session" dict is the very object the writer fills in place. */
  function CallerPayloadAfter(payload: Entry, host: Host): (r: Entry)
  {
    if "session" in payload && payload["session"].JObj? then
      payload["session" := JObj(FilledSession(payload, host))]
    else payload
  }

  /** Only the nested session of the caller's payload changes, and it becomes the session of the entry. */
  lemma CallerPayloadMeaning(payload: Entry, sessionId: Option<string>, host: Host)
    ensures CallerPayloadAfter(payload, host).Keys == payload.Keys
    ensures forall k :: k in payload && k != "session" ==> CallerPayloadAfter(payload, host)[k] == payload[k]
    ensures "session" in payload && payload["session"].JObj? ==>
      CallerPayloadAfter(payload, host)["session"] == Enrich(payload, sessionId, host).value["session"]
  {
  }

  /** The setdefault loop that fills the entry's session with the host defaults. */
  method FillSession(existing: Entry, info: Entry) returns (session: Entry)
    ensures session == SetDefaults(existing, info)
  {
    session := existing;
    var todo := info.Keys;
    while todo != {}
      invariant todo <= info.Keys
      invariant session.Keys == existing.Keys + (info.Keys - todo)
      invariant forall k :: k in session ==> session[k] == if k in existing then existing[k] else info[k]
      decreases todo
    {
      var k :| k in todo;
      if k !in session {
        session := session[k := info[k]];
      }
      todo := todo - {k};
    }
  }

  /** The entry as append_signed_audit builds it before signing: copy the payload, override session_id,
      set ts if absent and fill the session defaults in place. */
  method BuildEntry(payload: Entry, sessionId: Option<string>, host: Host) returns (r: Result<Entry, string>)
    ensures r == Enrich(payload, sessionId, host)
  {
    var entry := payload;
    if Given(sessionId) {
      entry := entry["session_id" := JStr(sessionId.value)];
    }
    if "ts" !in entry {
      entry := entry["ts" := JStr(host.now)];
    }
    if "session" in entry && !entry["session"].JObj? {
      return Failure("AttributeError: session is not a dict");
    }
    var existing: Entry := if "session" in entry then entry["session"].o else map[];
    assert existing == if "session" in payload then payload["session"].o else map[];
    var session := FillSession(existing, host.sessionInfo);
    r := Success(entry["session" := JObj(session)]);
  }

  /** The audit log file: its lines, oldest first. */
  class AuditFile {
    var lines: seq<string>

    constructor (existing: seq<string>)
      ensures lines == existing
    {
      lines := existing;
    }

    /** append_signed_audit: returns the entry written (or the error raised) and the caller's payload
        as it reads after the call. */
    method AppendSigned(payload: Entry, sessionId: Option<string>, hmacKey: Option<string>, env: Env)
      returns (written: Result<Entry, string>, callerPayload: Entry)
      modifies this
      ensures written == SignedEntry(payload, sessionId, hmacKey, env)
      ensures callerPayload == CallerPayloadAfter(payload, env.host)
      ensures lines == old(lines) + Written(payload, sessionId, hmacKey, env)
    {
      var built := BuildEntry(payload, sessionId, env.host);
      callerPayload := payload;
      if built.Failure? {
        return built, callerPayload;
      }
      var entry := built.value;
      if "session" in payload {
        callerPayload := payload["session" := entry["session"]];
      }
      var key := ResolveKey(hmacKey, env.host.envKey);
      var signature := JNull;
      if key.Some? {
        signature := JStr(env.signer.hmac(key.value, env.signer.canon(entry)));
      }
      written := Success(entry["hmac" := signature]);
      assert written.value == Sign(entry, key, env.signer);
      lines := lines + [env.codec.dump(JObj(written.value))];
    }
  }
}

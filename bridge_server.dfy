/** The HTTP bridge's request authentication: the client address, the LAN allow-list, the HMAC check,
    the anti-replay cache and the order in which _require_auth decides; and the legacy `.sig` reader
    the queue endpoint uses. */
module BridgeServer {
  import opened Wrappers
  import opened Json
  import Text
  import Numeric
  import HmacUtils
  import BridgeSimulator
  import Mt5Bridge
  import SignalSchema
  import Seqs

  // ---- The client address ----

  /** `_get_client_ip`: the first element of a non-empty X-Forwarded-For, stripped; otherwise the
      peer's host, or "unknown" without a peer. An absent header is the empty string here. */
  function ClientIp(forwarded: string, peer: Option<string>): (ip: string)
    ensures forwarded != "" ==> ',' !in ip && Text.Strip(ip) == ip
    ensures forwarded == "" ==> ip == if peer.Some? then peer.value else "unknown"
  {
    if forwarded != "" then
      var first := Text.Split(forwarded, ',')[0];
      Text.StripIdempotent(first);
      Text.Strip(first)
    else if peer.Some? then peer.value
    else "unknown"
  }

  /** A proxy chain `hop, hop, ...` names its first hop, stripped. */
  lemma FirstHop(hops: seq<string>, peer: Option<string>)
    requires hops != [] && forall i :: 0 <= i < |hops| ==> ',' !in hops[i]
    requires Text.JoinWith(hops, ',') != ""
    ensures ClientIp(Text.JoinWith(hops, ','), peer) == Text.Strip(hops[0])
  {
    Text.SplitJoin(hops, ',');
  }

  // ---- IPv4 addresses and the LAN allow-list ----

  /** The four octets of an IPv4 address. */
  datatype Quad = Quad(a: nat, b: nat, c: nat, d: nat)

  predicate Octets(q: Quad) {
    q.a < 256 && q.b < 256 && q.c < 256 && q.d < 256
  }

  /** The address as a 32-bit number. */
  function Value(q: Quad): nat {
    q.a * 16777216 + q.b * 65536 + q.c * 256 + q.d
  }

  /** One octet as ipaddress parses it: one to three ASCII digits, no leading zero, at most 255. */
  function Octet(s: string): (r: Option<nat>)
    ensures r.Some? ==> r.value < 256
  {
    if s == [] || !Text.AllDigits(s) || |s| > 3 || (|s| > 1 && s[0] == '0') then None
    else
      var v := Text.DigitsValue(s);
      if v > 255 then None else Some(v)
  }

  /** `ip_address(s)` for the IPv4 form: exactly four dot-separated octets. */
  function ParseIPv4(s: string): (r: Option<Quad>)
    ensures r.Some? ==> Octets(r.value)
  {
    var parts := Text.Split(s, '.');
    if |parts| != 4 then None
    else
      match (Octet(parts[0]), Octet(parts[1]), Octet(parts[2]), Octet(parts[3]))
      case (Some(a), Some(b), Some(c), Some(d)) => Some(Quad(a, b, c, d))
      case _ => None
  }

  /** The dotted-decimal text of an address. */
  function Dotted(q: Quad): string {
    Text.JoinWith([Text.NatDigits(q.a), Text.NatDigits(q.b), Text.NatDigits(q.c), Text.NatDigits(q.d)], '.')
  }

  /** A network: its address and prefix length. */
  datatype Net = Net(base: Quad, prefix: nat)

  /** TOKEN_ONLY_NETS. */
  const TokenOnlyNets: seq<Net> := [
    Net(Quad(127, 0, 0, 0), 8),
    Net(Quad(192, 168, 0, 0), 24),
    Net(Quad(192, 168, 1, 0), 24),
    Net(Quad(10, 0, 0, 0), 8),
    Net(Quad(172, 16, 0, 0), 12)]

  function Pow2(n: nat): (p: nat)
    ensures p >= 1
  {
    if n == 0 then 1 else 2 * Pow2(n - 1)
  }

  /** `address in network`: the address agrees with the network on the first `prefix` bits. */
  predicate InNet(v: nat, n: Net)
    requires n.prefix <= 32
  {
    v / Pow2(32 - n.prefix) == Value(n.base) / Pow2(32 - n.prefix)
  }

  /** `_is_lan_ip`: the text parses as an address inside one of the allow-listed networks. Text that
      does not parse is not LAN, and neither is an IPv6 address, which is never inside an IPv4
      network. */
  predicate IsLan(s: string)
    ensures IsLan(s) ==> ParseIPv4(s).Some?
  {
    match ParseIPv4(s)
    case None => false
    case Some(q) => exists i :: 0 <= i < |TokenOnlyNets| && InNet(Value(q), TokenOnlyNets[i])
  }

  lemma Pow2Values()
    ensures Pow2(8) == 256 && Pow2(20) == 1048576 && Pow2(24) == 16777216
  {
    assert Pow2(4) == 16 by {
      assert Pow2(2) == 4;
    }
    assert Pow2(8) == 256 by {
      assert Pow2(6) == 4 * Pow2(4);
    }
    assert Pow2(12) == 4096 by {
      assert Pow2(10) == 4 * Pow2(8);
    }
    assert Pow2(16) == 65536 by {
      assert Pow2(14) == 4 * Pow2(12);
    }
    assert Pow2(20) == 1048576 by {
      assert Pow2(18) == 4 * Pow2(16);
    }
    assert Pow2(24) == 16777216 by {
      assert Pow2(22) == 4 * Pow2(20);
    }
  }

  /** The allow-list in octets: 127.x.x.x, 192.168.0.x, 192.168.1.x, 10.x.x.x and 172.16.x.x to
      172.31.x.x. */
  predicate LanOctets(q: Quad) {
    q.a == 127 || (q.a == 192 && q.b == 168 && q.c <= 1) || q.a == 10 || (q.a == 172 && 16 <= q.b < 32)
  }

  /** An address is inside an allow-listed network exactly when its octets say so. */
  lemma NetsByOctets(q: Quad)
    requires Octets(q)
    ensures (exists i :: 0 <= i < |TokenOnlyNets| && InNet(Value(q), TokenOnlyNets[i])) <==> LanOctets(q)
  {
    var v := Value(q);
    NetOf(q);
    if LanOctets(q) {
      if q.a == 127 {
        assert InNet(v, TokenOnlyNets[0]);
      } else if q.a == 192 && q.c == 0 {
        assert InNet(v, TokenOnlyNets[1]);
      } else if q.a == 192 {
        assert InNet(v, TokenOnlyNets[2]);
      } else if q.a == 10 {
        assert InNet(v, TokenOnlyNets[3]);
      } else {
        assert InNet(v, TokenOnlyNets[4]);
      }
    }
  }

  /** Membership in each allow-listed network, in octets. */
  lemma NetOf(q: Quad)
    requires Octets(q)
    ensures InNet(Value(q), TokenOnlyNets[0]) <==> q.a == 127
    ensures InNet(Value(q), TokenOnlyNets[1]) <==> q.a == 192 && q.b == 168 && q.c == 0
    ensures InNet(Value(q), TokenOnlyNets[2]) <==> q.a == 192 && q.b == 168 && q.c == 1
    ensures InNet(Value(q), TokenOnlyNets[3]) <==> q.a == 10
    ensures InNet(Value(q), TokenOnlyNets[4]) <==> q.a == 172 && 16 <= q.b < 32
  {
    Pow2Values();
    HighOctets(q);
    var v := Value(q);
    assert InNet(v, TokenOnlyNets[0]) <==> v / 16777216 == 127 by {
      assert Value(Quad(127, 0, 0, 0)) / 16777216 == 127;
    }
    assert InNet(v, TokenOnlyNets[3]) <==> v / 16777216 == 10 by {
      assert Value(Quad(10, 0, 0, 0)) / 16777216 == 10;
    }
    assert InNet(v, TokenOnlyNets[1]) <==> v / 256 == 12625920 by {
      assert Value(Quad(192, 168, 0, 0)) / 256 == 12625920;
    }
    assert InNet(v, TokenOnlyNets[2]) <==> v / 256 == 12625921 by {
      assert Value(Quad(192, 168, 1, 0)) / 256 == 12625921;
    }
    assert InNet(v, TokenOnlyNets[4]) <==> v / 1048576 == 2753 by {
      assert Value(Quad(172, 16, 0, 0)) / 1048576 == 2753;
    }
    SameCut(q.a, q.b, q.c);
  }

  /** The cuts of an address at 8, 12 and 24 bits identify these octets. */
  lemma SameCut(a: nat, b: nat, c: nat)
    requires b < 256 && c < 256
    ensures a * 65536 + b * 256 + c == 12625920 <==> a == 192 && b == 168 && c == 0
    ensures a * 65536 + b * 256 + c == 12625921 <==> a == 192 && b == 168 && c == 1
    ensures a * 16 + b / 16 == 2753 <==> a == 172 && 16 <= b < 32
  {
    if a < 192 {
      assert a * 65536 <= 191 * 65536;
    } else if a > 192 {
      assert a * 65536 >= 193 * 65536;
    }
    if a < 172 {
      assert a * 16 <= 171 * 16;
    } else if a > 172 {
      assert a * 16 >= 173 * 16;
    }
  }

  /** The leading 8, 12 and 24 bits of an address, in octets. */
  lemma HighOctets(q: Quad)
    requires Octets(q)
    ensures Value(q) / 16777216 == q.a
    ensures Value(q) / 1048576 == q.a * 16 + q.b / 16
    ensures Value(q) / 256 == q.a * 65536 + q.b * 256 + q.c
  {
  }

  /** Shape of str(n): one digit below 10, at most three below 1000, and no leading zero. */
  lemma {:induction false} DigitsShape(n: nat)
    ensures n < 10 ==> |Text.NatDigits(n)| == 1
    ensures n < 100 ==> |Text.NatDigits(n)| <= 2
    ensures n < 1000 ==> |Text.NatDigits(n)| <= 3
    ensures n >= 1 ==> Text.NatDigits(n)[0] != '0'
    decreases n
  {
    if n >= 10 {
      DigitsShape(n / 10);
      assert Text.NatDigits(n)[0] == Text.NatDigits(n / 10)[0];
    } else {
      assert Text.NatDigits(n) == [Text.DigitChar(n)];
      assert n >= 1 ==> Text.DigitChar(n) == "0123456789"[n] != '0';
    }
  }

  /** str(n) of an octet value parses back as that octet. */
  lemma OctetOfDigits(n: nat)
    requires n < 256
    ensures Octet(Text.NatDigits(n)) == Some(n)
  {
    DigitsShape(n);
    Text.DigitsRoundTrip(n);
  }

  /** The dotted text of an address parses back as that address. */
  lemma ParseDotted(q: Quad)
    requires Octets(q)
    ensures ParseIPv4(Dotted(q)) == Some(q)
  {
    var parts := [Text.NatDigits(q.a), Text.NatDigits(q.b), Text.NatDigits(q.c), Text.NatDigits(q.d)];
    Text.SplitJoin(parts, '.');
    OctetOfDigits(q.a);
    OctetOfDigits(q.b);
    OctetOfDigits(q.c);
    OctetOfDigits(q.d);
  }

  /** Written as dotted decimal, an address is LAN exactly when its octets are in the allow-list. */
  lemma LanAddresses(q: Quad)
    requires Octets(q)
    ensures IsLan(Dotted(q)) <==> LanOctets(q)
  {
    ParseDotted(q);
    NetsByOctets(q);
  }

  /** The fallback "unknown" is not LAN. */
  lemma UnknownNotLan()
    ensures !IsLan("unknown")
  {
    assert '.' !in "unknown";
    assert Text.Split("unknown", '.') == ["unknown"];
  }

  /** An empty address is not LAN. */
  lemma EmptyNotLan()
    ensures !IsLan("")
  {
    assert Text.Split("", '.') == [""];
  }

  /** ipaddress refuses an octet with a leading zero, so 127.0.0.01 is not LAN. */
  lemma LeadingZeroRefused()
    ensures !IsLan("127.0.0.01")
  {
    var parts := ["127", "0", "0", "01"];
    assert Text.JoinWith(parts, '.') == "127.0.0.01";
    Text.SplitJoin(parts, '.');
    assert Octet("01").None?;
  }

  // ---- The HMAC check ----

  /** The signed message: `token|ts|` followed by the body. */
  function Message(token: string, timestamp: string, body: string): string {
    token + "|" + timestamp + "|" + body
  }

  /** HMAC-SHA-256 hex digests are ASCII. */
  ghost predicate AsciiDigests(mac: (string, string) -> string) {
    forall k, m :: Text.IsAscii(mac(k, m))
  }

  /** Under one key, distinct messages have distinct digests. */
  ghost predicate Separates(mac: (string, string) -> string, secret: string) {
    forall m1, m2 :: m1 != m2 ==> mac(secret, m1) != mac(secret, m2)
  }

  /** `_verify_hmac`: false without a secret; otherwise hmac.compare_digest of the signature and the
      expected hex digest, which raises TypeError when either holds a non-ASCII character. */
  function VerifyHmac(secret: string, token: string, timestamp: string, signature: string, body: string,
                      mac: (string, string) -> string): (r: Result<bool, string>)
    ensures secret == "" ==> r == Success(false)
    ensures secret != "" ==> var expected := mac(secret, Message(token, timestamp, body));
      && (r.Failure? <==> !Text.IsAscii(signature) || !Text.IsAscii(expected))
      && (r.Success? ==> (r.value <==> signature == expected))
  {
    if secret == "" then Success(false)
    else HmacUtils.CompareDigest(JStr(signature), JStr(mac(secret, Message(token, timestamp, body))))
  }

  /** A request signed with the shared secret over its own token, timestamp and body verifies. */
  lemma SignedRequestVerifies(secret: string, token: string, timestamp: string, body: string,
                              mac: (string, string) -> string)
    requires secret != "" && AsciiDigests(mac)
    ensures VerifyHmac(secret, token, timestamp, mac(secret, Message(token, timestamp, body)), body, mac) == Success(true)
  {
  }

  /** A signature made for one body does not verify another body. */
  lemma OtherBodyRejected(secret: string, token: string, timestamp: string, body: string, other: string,
                          mac: (string, string) -> string)
    requires secret != "" && AsciiDigests(mac) && Separates(mac, secret) && body != other
    ensures VerifyHmac(secret, token, timestamp, mac(secret, Message(token, timestamp, body)), other, mac) == Success(false)
  {
    var head := token + "|" + timestamp + "|";
    assert Message(token, timestamp, body) == head + body && Message(token, timestamp, other) == head + other;
    assert (head + body)[|head|..] == body && (head + other)[|head|..] == other;
    assert Message(token, timestamp, body) != Message(token, timestamp, other);
  }

  // ---- The anti-replay cache ----

  /** MAX_TS_DRIFT_SECONDS. */
  const MaxDrift: real := 300.0

  /** MAX_TIMESTAMP_CACHE. */
  const MaxCache: nat := 10000

  /** One item of `recent_timestamps`: the key `ts:sig` and the parsed timestamp. The dict is the
      sequence of its items in insertion order. */
  datatype Stamp = Stamp(key: string, ts: real)

  function Keys(es: seq<Stamp>): set<string> {
    set i | 0 <= i < |es| :: es[i].key
  }

  /** No key occurs twice, as in a dict. */
  predicate Distinct(es: seq<Stamp>) {
    forall i, j :: 0 <= i < j < |es| ==> es[i].key != es[j].key
  }

  /** `del d[k]`: the other items keep their order. */
  function Remove(es: seq<Stamp>, k: string): (r: seq<Stamp>)
    ensures forall e :: e in r <==> e in es && e.key != k
    ensures |r| <= |es|
  {
    if es == [] then []
    else if es[0].key == k then Remove(es[1..], k)
    else [es[0]] + Remove(es[1..], k)
  }

  lemma {:induction false} RemoveDistinct(es: seq<Stamp>, k: string)
    requires Distinct(es)
    ensures Distinct(Remove(es, k))
    ensures |Remove(es, k)| == if k in Keys(es) then |es| - 1 else |es|
  {
    if es != [] {
      var rest := es[1..];
      KeysCons(es);
      RemoveDistinct(rest, k);
      if es[0].key != k {
        DistinctCons(es[0], Remove(rest, k));
        assert Remove(es, k) == [es[0]] + Remove(rest, k);
      }
    }
  }

  /** The keys of a non-empty dict: its first key, distinct from the rest, and the rest's keys. */
  lemma KeysCons(es: seq<Stamp>)
    requires es != []
    ensures Keys(es) == {es[0].key} + Keys(es[1..])
    ensures Distinct(es) ==> Distinct(es[1..]) && es[0].key !in Keys(es[1..])
  {
    var rest := es[1..];
    forall x | x in Keys(es) ensures x == es[0].key || x in Keys(rest) {
      var i :| 0 <= i < |es| && es[i].key == x;
      if i > 0 {
        assert rest[i - 1].key == x;
      }
    }
    forall x | x in Keys(rest) ensures x in Keys(es) {
      var i :| 0 <= i < |rest| && rest[i].key == x;
      assert es[i + 1].key == x;
    }
    if Distinct(es) {
      forall i | 0 <= i < |rest| ensures rest[i].key != es[0].key {
        assert rest[i] == es[i + 1];
      }
    }
  }

  /** An item whose key the rest lacks can go in front of distinct items. */
  lemma DistinctCons(e: Stamp, rest: seq<Stamp>)
    requires Distinct(rest) && forall x :: x in rest ==> x.key != e.key
    ensures Distinct([e] + rest)
  {
    var r := [e] + rest;
    forall i, j | 0 <= i < j < |r|
      ensures r[i].key != r[j].key
    {
      if i == 0 {
        assert r[j] == rest[j - 1];
      } else {
        assert r[i] == rest[i - 1] && r[j] == rest[j - 1];
      }
    }
  }

  /** The items left after deleting the keys of `victims`, one after another. */
  function RemoveAll(es: seq<Stamp>, victims: seq<Stamp>): (r: seq<Stamp>)
    ensures forall e :: e in r ==> e in es
  {
    if victims == [] then es
    else Remove(RemoveAll(es, victims[..|victims| - 1]), victims[|victims| - 1].key)
  }

  /** Deleting distinct keys that are all present removes exactly those items. */
  lemma {:induction false} RemoveAllSize(es: seq<Stamp>, victims: seq<Stamp>)
    requires Distinct(es) && Distinct(victims)
    requires forall v :: v in victims ==> v in es
    ensures Distinct(RemoveAll(es, victims)) && |RemoveAll(es, victims)| == |es| - |victims|
    ensures forall e :: e in RemoveAll(es, victims) <==> e in es && e.key !in Keys(victims)
  {
    if victims != [] {
      var n := |victims| - 1;
      var init := victims[..n];
      var v := victims[n];
      KeysSnoc(victims);
      assert forall u :: u in init ==> u in victims;
      RemoveAllSize(es, init);
      var m := RemoveAll(es, init);
      assert v in m;
      KeyOf(m, v);
      RemoveDistinct(m, v.key);
    }
  }

  /** The keys of a non-empty dict: those of all items but the last, and the last one's, which is new. */
  lemma KeysSnoc(es: seq<Stamp>)
    requires es != []
    ensures Keys(es) == Keys(es[..|es| - 1]) + {es[|es| - 1].key}
    ensures Distinct(es) ==> Distinct(es[..|es| - 1]) && es[|es| - 1].key !in Keys(es[..|es| - 1])
  {
    var n := |es| - 1;
    var init := es[..n];
    forall x | x in Keys(es) ensures x in Keys(init) || x == es[n].key {
      var i :| 0 <= i < |es| && es[i].key == x;
      if i < n {
        assert init[i].key == x;
      }
    }
    forall x | x in Keys(init) ensures x in Keys(es) {
      var i :| 0 <= i < n && init[i].key == x;
      assert es[i].key == x;
    }
    if Distinct(es) {
      forall i | 0 <= i < n ensures init[i].key != es[n].key {
        assert init[i] == es[i];
      }
    }
  }

  lemma KeyOf(es: seq<Stamp>, e: Stamp)
    requires e in es
    ensures e.key in Keys(es)
  {
    var i :| 0 <= i < |es| && es[i] == e;
  }

  /** Sorted by timestamp, oldest first. */
  predicate Sorted(es: seq<Stamp>) {
    forall i, j :: 0 <= i < j < |es| ==> es[i].ts <= es[j].ts
  }

  /** Puts `x` before the first item that is not older, so that it stays ahead of equal timestamps
      that come after it. */
  function Insert(x: Stamp, s: seq<Stamp>): seq<Stamp> {
    if s == [] || x.ts <= s[0].ts then [x] + s else [s[0]] + Insert(x, s[1..])
  }

  lemma {:induction false} InsertPermutes(x: Stamp, s: seq<Stamp>)
    ensures multiset(Insert(x, s)) == multiset(s) + multiset{x}
  {
    if !(s == [] || x.ts <= s[0].ts) {
      InsertPermutes(x, s[1..]);
      assert s == [s[0]] + s[1..];
    }
  }

  lemma {:induction false} InsertSorted(x: Stamp, s: seq<Stamp>)
    requires Sorted(s)
    ensures Sorted(Insert(x, s))
  {
    if s == [] || x.ts <= s[0].ts {
      SortedCons(x, s);
    } else {
      var rest := s[1..];
      var t := Insert(x, rest);
      InsertSorted(x, rest);
      InsertPermutes(x, rest);
      forall e | e in t
        ensures s[0].ts <= e.ts
      {
        assert e in multiset(t);
        if e != x {
          assert e in multiset(rest);
          var i :| 0 <= i < |rest| && rest[i] == e;
          assert s[i + 1] == e;
        }
      }
      SortedCons(s[0], t);
    }
  }

  /** An item no newer than any of a sorted sequence can go in front. */
  lemma SortedCons(x: Stamp, s: seq<Stamp>)
    requires Sorted(s)
    requires forall e :: e in s ==> x.ts <= e.ts
    ensures Sorted([x] + s)
  {
    var r := [x] + s;
    forall i, j | 0 <= i < j < |r|
      ensures r[i].ts <= r[j].ts
    {
      assert r[j] == s[j - 1];
      if i > 0 {
        assert r[i] == s[i - 1];
      }
    }
  }

  /** `sorted(d.items(), key=lambda x: x[1])`: a stable sort by timestamp, a permutation of the items. */
  function SortByTs(es: seq<Stamp>): (r: seq<Stamp>)
    ensures Sorted(r) && multiset(r) == multiset(es) && |r| == |es|
  {
    if es == [] then []
    else
      var t := SortByTs(es[1..]);
      InsertPermutes(es[0], t);
      InsertSorted(es[0], t);
      assert es == [es[0]] + es[1..];
      Insert(es[0], t)
  }

  /** The `len // 5` oldest items. */
  function Victims(es: seq<Stamp>): (vs: seq<Stamp>)
    ensures |vs| == |es| / 5
  {
    SortByTs(es)[..|es| / 5]
  }

  /** The cleanup: deletes the victims' keys. */
  function Evict(es: seq<Stamp>): seq<Stamp> {
    RemoveAll(es, Victims(es))
  }

  /** Sorting keeps the keys distinct. */
  lemma SortDistinct(es: seq<Stamp>)
    requires Distinct(es)
    ensures Distinct(SortByTs(es))
  {
    var r := SortByTs(es);
    forall i, j | 0 <= i < j < |r|
      ensures r[i].key != r[j].key
    {
      if r[i].key == r[j].key {
        assert r[i] in multiset(es) && r[j] in multiset(es);
        var a :| 0 <= a < |es| && es[a] == r[i];
        var b :| 0 <= b < |es| && es[b] == r[j];
        assert a == b;
        TwiceInMultiset(r, i, j);
        OnceInMultiset(es, a);
      }
    }
  }

  lemma TwiceInMultiset(s: seq<Stamp>, i: nat, j: nat)
    requires i < j < |s| && s[i] == s[j]
    ensures multiset(s)[s[i]] >= 2
  {
    assert s == s[..i] + [s[i]] + s[i + 1..j] + [s[j]] + s[j + 1..];
  }

  lemma OnceInMultiset(s: seq<Stamp>, a: nat)
    requires Distinct(s) && a < |s|
    ensures multiset(s)[s[a]] == 1
  {
    assert s == s[..a] + [s[a]] + s[a + 1..];
    assert s[a] !in s[..a] by {
      forall i | 0 <= i < a ensures s[i] != s[a] {
        assert s[i].key != s[a].key;
      }
    }
    assert s[a] !in s[a + 1..] by {
      forall i | a + 1 <= i < |s| ensures s[i] != s[a] {
        assert s[a].key != s[i].key;
      }
    }
  }

  /** The cleanup deletes `len // 5` items, exactly the victims, and keeps the keys distinct. */
  lemma EvictSize(es: seq<Stamp>)
    requires Distinct(es)
    ensures Distinct(Evict(es)) && |Evict(es)| == |es| - |es| / 5
    ensures forall e :: e in Evict(es) <==> e in es && e.key !in Keys(Victims(es))
  {
    var r := SortByTs(es);
    SortDistinct(es);
    var vs := Victims(es);
    assert vs == r[..|es| / 5];
    forall v | v in vs ensures v in es {
      assert v in multiset(r);
    }
    RemoveAllSize(es, vs);
  }

  /** Every item the cleanup deletes is at least as old as every item it keeps. */
  lemma OldestEvicted(es: seq<Stamp>)
    requires Distinct(es)
    ensures forall v, e :: v in Victims(es) && e in Evict(es) ==> v.ts <= e.ts
  {
    var r := SortByTs(es);
    var cut := |es| / 5;
    EvictSize(es);
    forall e | e in Evict(es)
      ensures forall i :: 0 <= i < cut ==> r[i].ts <= e.ts
    {
      assert e in multiset(r);
      BelowCut(r, cut, e);
    }
  }

  /** In a sorted sequence, an item whose key is not among the first `cut` is not older than them. */
  lemma BelowCut(r: seq<Stamp>, cut: nat, e: Stamp)
    requires Sorted(r) && cut <= |r| && e in r && e.key !in Keys(r[..cut])
    ensures forall i :: 0 <= i < cut ==> r[i].ts <= e.ts
  {
    var j :| 0 <= j < |r| && r[j] == e;
    forall k | 0 <= k < cut
      ensures r[k] != e
    {
      assert r[..cut][k] == r[k];
    }
    assert cut <= j;
  }

  /** `_check_timestamp_replay` on the items of the cache: whether the request is fresh, and the
      cache afterwards. A timestamp float() refuses, one more than 300 seconds from `now` or a key
      already cached is refused and leaves the cache alone; otherwise the key is added with its
      parsed timestamp, and when that makes more than 10000 items the oldest fifth is deleted. */
  function Admit(es: seq<Stamp>, timestamp: string, signature: string, now: real,
                 parseFloat: string -> Option<real>): (r: (bool, seq<Stamp>))
    ensures r.0 <==> parseFloat(timestamp).Some? && Numeric.Abs(now - parseFloat(timestamp).value) <= MaxDrift
                     && timestamp + ":" + signature !in Keys(es)
    ensures !r.0 ==> r.1 == es
    ensures r.0 && |es| < MaxCache ==> r.1 == es + [Stamp(timestamp + ":" + signature, parseFloat(timestamp).value)]
    ensures Distinct(es) ==> Distinct(r.1)
    ensures Distinct(es) && |es| <= MaxCache ==> |r.1| <= MaxCache
  {
    match parseFloat(timestamp)
    case None => (false, es)
    case Some(t) =>
      var key := timestamp + ":" + signature;
      if Numeric.Abs(now - t) > MaxDrift || key in Keys(es) then (false, es)
      else
        var added := es + [Stamp(key, t)];
        assert Distinct(es) ==> Distinct(added) by {
          if Distinct(es) {
            forall i | 0 <= i < |es| ensures es[i].key != key {
              assert es[i].key in Keys(es);
            }
          }
        }
        if |added| > MaxCache then
          assert Distinct(added) ==> Distinct(Evict(added)) && |Evict(added)| == |added| - |added| / 5 by {
            if Distinct(added) {
              EvictSize(added);
            }
          }
          (true, Evict(added))
        else (true, added)
  }

  /** A request accepted while the cache has room is refused when replayed. */
  lemma ReplayRejected(es: seq<Stamp>, timestamp: string, signature: string, now: real, later: real,
                       parseFloat: string -> Option<real>)
    requires |es| < MaxCache
    requires Admit(es, timestamp, signature, now, parseFloat).0
    ensures !Admit(Admit(es, timestamp, signature, now, parseFloat).1, timestamp, signature, later, parseFloat).0
  {
    var key := timestamp + ":" + signature;
    var after := Admit(es, timestamp, signature, now, parseFloat).1;
    assert after[|es|].key == key;
  }

  /** A fresh request is added, and the cache cleaned when that overfills it. */
  lemma AdmitFresh(es: seq<Stamp>, timestamp: string, signature: string, now: real,
                   parseFloat: string -> Option<real>)
    requires parseFloat(timestamp).Some? && Numeric.Abs(now - parseFloat(timestamp).value) <= MaxDrift
    requires timestamp + ":" + signature !in Keys(es)
    ensures var added := es + [Stamp(timestamp + ":" + signature, parseFloat(timestamp).value)];
      Admit(es, timestamp, signature, now, parseFloat) == (true, if |added| > MaxCache then Evict(added) else added)
  {
  }

  /** `recent_timestamps`: the cache as a mutable object. */
  class ReplayCache {
    var entries: seq<Stamp>

    /** A dict has distinct keys, and no call that starts within the cap ends above it. */
    ghost predicate Valid()
      reads this
    {
      Distinct(entries) && |entries| <= MaxCache
    }

    constructor ()
      ensures entries == [] && Valid()
    {
      entries := [];
    }

    /** The cleanup at the end of `_check_timestamp_replay`: sorts the items by timestamp and deletes
        the keys of the first fifth, one `del` at a time. */
    method Cleanup()
      modifies this
      ensures entries == Evict(old(entries))
    {
      var sorted := SortByTs(entries);
      var toRemove := |sorted| / 5;
      ghost var added := entries;
      for i := 0 to toRemove
        invariant entries == RemoveAll(added, sorted[..i])
      {
        assert sorted[..i + 1][..i] == sorted[..i];
        entries := Remove(entries, sorted[i].key);
      }
      assert sorted[..toRemove] == Victims(added);
    }

    /** `_check_timestamp_replay`, with time.time() as `now` and float() as `parseFloat`. */
    method Check(timestamp: string, signature: string, now: real, parseFloat: string -> Option<real>)
      returns (ok: bool)
      requires Valid()
      modifies this
      ensures (ok, entries) == Admit(old(entries), timestamp, signature, now, parseFloat) && Valid()
    {
      var parsed := parseFloat(timestamp);
      if parsed.None? {
        return false;
      }
      var t := parsed.value;
      if Numeric.Abs(now - t) > MaxDrift {
        return false;
      }
      var key := timestamp + ":" + signature;
      if key in Keys(entries) {
        return false;
      }
      AdmitFresh(entries, timestamp, signature, now, parseFloat);
      entries := entries + [Stamp(key, t)];
      if |entries| > MaxCache {
        Cleanup();
      }
      ok := true;
    }
  }

  // ---- The decision order of _require_auth ----

  /** A request: its headers (an absent header reads as ""), the peer's host if known, and the body. */
  datatype Request = Request(headers: map<string, string>, peer: Option<string>, body: string)

  /** QAI_TOKEN and QAI_HMAC_SECRET, "" when unset. */
  datatype Config = Config(token: string, secret: string)

  /** The request goes through, is refused with an HTTPException, or compare_digest raises. */
  datatype Outcome = Allowed | Denied(status: nat, detail: string) | Raised(error: string)

  function Header(req: Request, name: string): string {
    if name in req.headers then req.headers[name] else ""
  }

  function Token(req: Request): string { Header(req, "X-QAI-Token") }
  function Timestamp(req: Request): string { Header(req, "X-QAI-TS") }
  function Signature(req: Request): string { Header(req, "X-QAI-Sig") }

  function ClientOf(req: Request): string {
    ClientIp(Header(req, "X-Forwarded-For"), req.peer)
  }

  /** The checks before the cache: a missing token is 401, a wrong one 403, a LAN client with the
      right token goes through, and otherwise a missing timestamp or signature is 401. None when the
      request goes on to the replay and HMAC checks. */
  function Gate(req: Request, cfg: Config): (g: Option<Outcome>)
    ensures g == Some(Allowed) <==> Token(req) != "" && Token(req) == cfg.token && IsLan(ClientOf(req))
    ensures g.None? <==> Token(req) != "" && Token(req) == cfg.token && !IsLan(ClientOf(req))
                         && Timestamp(req) != "" && Signature(req) != ""
  {
    var token := Token(req);
    if token == "" then Some(Denied(401, "missing_token"))
    else if token != cfg.token then Some(Denied(403, "invalid_token"))
    else if IsLan(ClientOf(req)) then Some(Allowed)
    else if Timestamp(req) == "" || Signature(req) == "" then Some(Denied(401, "missing_hmac_headers"))
    else None
  }

  /** `_require_auth`: the outcome and the cache afterwards. The replay check runs before the HMAC
      check. */
  function Auth(req: Request, cfg: Config, es: seq<Stamp>, now: real, parseFloat: string -> Option<real>,
                mac: (string, string) -> string): (r: (Outcome, seq<Stamp>))
    ensures Gate(req, cfg).Some? ==> r == (Gate(req, cfg).value, es)
    ensures Gate(req, cfg).None? ==> r.1 == Admit(es, Timestamp(req), Signature(req), now, parseFloat).1
  {
    match Gate(req, cfg)
    case Some(o) => (o, es)
    case None =>
      var (ok, after) := Admit(es, Timestamp(req), Signature(req), now, parseFloat);
      if !ok then (Denied(409, "timestamp_replay_or_drift"), after)
      else
        match VerifyHmac(cfg.secret, Token(req), Timestamp(req), Signature(req), req.body, mac)
        case Failure(e) => (Raised(e), after)
        case Success(valid) => (if valid then Allowed else Denied(403, "invalid_signature"), after)
  }

  /** A request goes through exactly when it carries the configured non-empty token and either comes
      from the LAN or has a fresh timestamp and a signature that verifies. */
  lemma AllowedIff(req: Request, cfg: Config, es: seq<Stamp>, now: real, parseFloat: string -> Option<real>,
                   mac: (string, string) -> string)
    ensures Auth(req, cfg, es, now, parseFloat, mac).0 == Allowed <==>
      && Token(req) != "" && Token(req) == cfg.token
      && (|| IsLan(ClientOf(req))
          || (&& Timestamp(req) != "" && Signature(req) != ""
              && Admit(es, Timestamp(req), Signature(req), now, parseFloat).0
              && VerifyHmac(cfg.secret, Token(req), Timestamp(req), Signature(req), req.body, mac) == Success(true)))
  {
  }

  /** Without a configured token nothing goes through: an empty token is missing, any other is wrong. */
  lemma NoTokenNoEntry(req: Request, cfg: Config, es: seq<Stamp>, now: real, parseFloat: string -> Option<real>,
                       mac: (string, string) -> string)
    requires cfg.token == ""
    ensures Auth(req, cfg, es, now, parseFloat, mac) ==
      (if Token(req) == "" then Denied(401, "missing_token") else Denied(403, "invalid_token"), es)
  {
  }

  /** Without a configured secret no request from outside the LAN goes through. */
  lemma NoSecretLanOnly(req: Request, cfg: Config, es: seq<Stamp>, now: real, parseFloat: string -> Option<real>,
                        mac: (string, string) -> string)
    requires cfg.secret == "" && !IsLan(ClientOf(req))
    ensures Auth(req, cfg, es, now, parseFloat, mac).0 != Allowed
  {
  }

  /** A fresh request from outside the LAN with the right token but a wrong signature is refused with
      403, yet its timestamp and signature now occupy a cache slot. */
  lemma BadSignatureCached(req: Request, cfg: Config, es: seq<Stamp>, now: real, parseFloat: string -> Option<real>,
                           mac: (string, string) -> string)
    requires Gate(req, cfg).None? && |es| < MaxCache
    requires Admit(es, Timestamp(req), Signature(req), now, parseFloat).0
    requires VerifyHmac(cfg.secret, Token(req), Timestamp(req), Signature(req), req.body, mac) == Success(false)
    ensures Auth(req, cfg, es, now, parseFloat, mac) ==
      (Denied(403, "invalid_signature"),
       es + [Stamp(Timestamp(req) + ":" + Signature(req), parseFloat(Timestamp(req)).value)])
  {
  }

  /** The same request sent again, while the cache had room, is refused as a replay: the cache check
      runs before the HMAC check, so even a correctly signed request is refused. */
  lemma ReplayRefused(req: Request, cfg: Config, es: seq<Stamp>, now: real, later: real,
                      parseFloat: string -> Option<real>, mac: (string, string) -> string)
    requires Gate(req, cfg).None? && |es| < MaxCache
    requires Admit(es, Timestamp(req), Signature(req), now, parseFloat).0
    ensures var after := Auth(req, cfg, es, now, parseFloat, mac).1;
      Auth(req, cfg, after, later, parseFloat, mac) == (Denied(409, "timestamp_replay_or_drift"), after)
  {
    ReplayRejected(es, Timestamp(req), Signature(req), now, later, parseFloat);
  }

  /** `_require_auth` on the process-wide cache. */
  method RequireAuth(req: Request, cfg: Config, cache: ReplayCache, now: real, parseFloat: string -> Option<real>,
                     mac: (string, string) -> string)
    returns (outcome: Outcome)
    requires cache.Valid()
    modifies cache
    ensures (outcome, cache.entries) == Auth(req, cfg, old(cache.entries), now, parseFloat, mac) && cache.Valid()
  {
    var client := ClientIp(Header(req, "X-Forwarded-For"), req.peer);
    var lan := IsLan(client);
    var token := Header(req, "X-QAI-Token");
    var timestamp := Header(req, "X-QAI-TS");
    var signature := Header(req, "X-QAI-Sig");
    ghost var es := cache.entries;
    if token == "" {
      assert Gate(req, cfg) == Some(Denied(401, "missing_token"));
      return Denied(401, "missing_token");
    }
    if token != cfg.token {
      assert Gate(req, cfg) == Some(Denied(403, "invalid_token"));
      return Denied(403, "invalid_token");
    }
    if lan {
      assert Gate(req, cfg) == Some(Allowed);
      return Allowed;
    }
    if timestamp == "" || signature == "" {
      assert Gate(req, cfg) == Some(Denied(401, "missing_hmac_headers"));
      return Denied(401, "missing_hmac_headers");
    }
    assert Gate(req, cfg) == None;
    var ok := cache.Check(timestamp, signature, now, parseFloat);
    assert (ok, cache.entries) == Admit(es, Timestamp(req), Signature(req), now, parseFloat);
    if !ok {
      return Denied(409, "timestamp_replay_or_drift");
    }
    var valid := VerifyHmac(cfg.secret, token, timestamp, signature, req.body, mac);
    if valid.Failure? {
      return Raised(valid.error);
    }
    outcome := if valid.value then Allowed else Denied(403, "invalid_signature");
  }

  // ---- The legacy `.sig` reader ----

  /** What a field reads as when it is missing: `d.get(k, "")`. */
  function Field(d: map<string, Json>, k: string): Json {
    GetOr(d, k, JStr(""))
  }

  /** `float(d["price"]) if d.get("price") else None`, and the same with int() for the point
      distances: None when the field is missing or empty, a failure when it does not convert. */
  function OptionalFloat(d: map<string, Json>, k: string, codec: Codec): (r: Result<Json, string>)
    ensures !Truthy(Get(d, k)) ==> r == Success(JNull)
    ensures Truthy(Get(d, k)) ==> (r.Success? <==> ToFloat(d[k], codec).Some?)
    ensures r.Success? && r.value != JNull ==> r.value == JNum(ToFloat(d[k], codec).value)
  {
    if !Truthy(Get(d, k)) then Success(JNull)
    else match ToFloat(d[k], codec)
      case None => Failure("could not convert string to float")
      case Some(x) => Success(JNum(x))
  }

  function OptionalInt(d: map<string, Json>, k: string): (r: Result<Json, string>)
    ensures !Truthy(Get(d, k)) ==> r == Success(JNull)
    ensures Truthy(Get(d, k)) ==> (r.Success? <==> ToInt(d[k]).Some?)
    ensures r.Success? && r.value != JNull ==> r.value == JInt(ToInt(d[k]).value)
  {
    if !Truthy(Get(d, k)) then Success(JNull)
    else match ToInt(d[k])
      case None => Failure("invalid literal for int() with base 10")
      case Some(i) => Success(JInt(i))
  }

  /** The keys of the dict _parse_legacy_sig returns. */
  const LegacyKeys: set<string> := {"version", "symbol", "side", "volume", "price", "sl_pts", "tp_pts", "ts"}

  /** The conversion to the standard format: version "1", the text fields as read (empty when
      missing), the volume as a float (0 when missing), and the optional fields. A ValueError from
      any conversion is a failure. */
  function Legacy(d: map<string, Json>, codec: Codec): (r: Result<map<string, Json>, string>)
    ensures r.Success? <==> && ("volume" in d ==> ToFloat(d["volume"], codec).Some?)
                            && OptionalFloat(d, "price", codec).Success?
                            && OptionalInt(d, "sl_pts").Success? && OptionalInt(d, "tp_pts").Success?
    ensures r.Success? ==> && r.value.Keys == LegacyKeys
                           && r.value["version"] == JStr(SignalSchema.CurrentVersion)
                           && r.value["symbol"] == Field(d, "symbol") && r.value["side"] == Field(d, "side")
                           && r.value["ts"] == Field(d, "ts")
                           && r.value["volume"] == JNum(if "volume" in d then ToFloat(d["volume"], codec).value else 0.0)
                           && r.value["price"] == OptionalFloat(d, "price", codec).value
                           && r.value["sl_pts"] == OptionalInt(d, "sl_pts").value
                           && r.value["tp_pts"] == OptionalInt(d, "tp_pts").value
  {
    var volume := if "volume" in d then ToFloat(d["volume"], codec) else Some(0.0);
    if volume.None? then Failure("could not convert string to float")
    else
      var price := OptionalFloat(d, "price", codec);
      var sl := OptionalInt(d, "sl_pts");
      var tp := OptionalInt(d, "tp_pts");
      if price.Failure? then Failure(price.error)
      else if sl.Failure? then Failure(sl.error)
      else if tp.Failure? then Failure(tp.error)
      else Success(map[
        "version" := JStr(SignalSchema.CurrentVersion),
        "symbol" := Field(d, "symbol"),
        "side" := Field(d, "side"),
        "volume" := JNum(volume.value),
        "price" := price.value,
        "sl_pts" := sl.value,
        "tp_pts" := tp.value,
        "ts" := Field(d, "ts")])
  }

  /** `_parse_legacy_sig` on the file's text: text-mode iteration splits at universal newlines, and
      each stripped line holding "=" sets its stripped key to its stripped value. */
  method ParseLegacySig(text: string, codec: Codec) returns (r: Result<map<string, Json>, string>)
    ensures r == Legacy(BridgeSimulator.Fields(Text.Lines(Text.Universal, text)), codec)
  {
    var lines := Text.Lines(Text.Universal, text);
    ghost var es := BridgeSimulator.Entries(lines);
    var data := map[];
    for i := 0 to |lines|
      invariant data == BridgeSimulator.Collect(es[..i])
    {
      BridgeSimulator.CollectStep(es, i);
      var e := BridgeSimulator.Entry(lines[i]);
      if e.Some? {
        data := data[e.value.0 := JStr(e.value.1)];
      }
    }
    Seqs.TakeAll(es);
    r := Legacy(data, codec);
  }

  /** A file without any "=" line reads as the defaults: empty text fields, volume 0 and no optional
      fields. */
  lemma NoEntriesDefaults(text: string, codec: Codec)
    requires forall i :: 0 <= i < |Text.Lines(Text.Universal, text)| ==> '=' !in Text.Lines(Text.Universal, text)[i]
    ensures Legacy(BridgeSimulator.Fields(Text.Lines(Text.Universal, text)), codec) == Success(map[
      "version" := JStr("1"), "symbol" := JStr(""), "side" := JStr(""), "volume" := JNum(0.0),
      "price" := JNull, "sl_pts" := JNull, "tp_pts" := JNull, "ts" := JStr("")])
  {
    var es := BridgeSimulator.Entries(Text.Lines(Text.Universal, text));
    forall k ensures k !in BridgeSimulator.Collect(es) {
      BridgeSimulator.CollectKeys(es, k);
    }
  }

  /** An empty price or point distance reads as None, but an empty volume is a ValueError. */
  lemma EmptyVolumeRefused(d: map<string, Json>, codec: Codec)
    requires "volume" in d && d["volume"] == JStr("") && codec.parseFloat("") == None
    ensures Legacy(d, codec).Failure?
    ensures "price" in d && d["price"] == JStr("") ==> OptionalFloat(d, "price", codec) == Success(JNull)
  {
  }

  /** The dict the server should get back for a signal the text writer wrote. */
  function Expected(s: Mt5Bridge.Signal, env: Mt5Bridge.Env): map<string, Json> {
    map[
      "version" := JStr(SignalSchema.CurrentVersion), "symbol" := JStr(s.symbol), "side" := JStr(s.side),
      "volume" := JNum(s.volume),
      "price" := (if s.price.Some? then JNum(s.price.value) else JNull),
      "sl_pts" := (if s.slPts.Some? then JInt(s.slPts.value) else JNull),
      "tp_pts" := (if s.tpPts.Some? then JInt(s.tpPts.value) else JNull),
      "ts" := JStr(Mt5Bridge.When(s, env).iso)]
  }

  /** The server reads back what the text writer wrote: the same fields, with the volume, price and
      point distances converted back to numbers. */
  lemma LegacyReadsWriter(s: Mt5Bridge.Signal, env: Mt5Bridge.Env)
    requires Mt5Bridge.Acceptable(s, env) && Text.Plain(s.symbol) && Text.Plain(Mt5Bridge.When(s, env).iso)
    requires Mt5Bridge.Doubles(s) && Faithful(env.codec) && BridgeSimulator.PlainFloats(env.codec)
    ensures Legacy(BridgeSimulator.Fields(Text.Lines(Text.Universal, Mt5Bridge.TextBody(s, env))), env.codec) ==
      Success(Expected(s, env))
  {
    assert Text.Plain(s.side);
    BridgeSimulator.TextFileFields(Text.Universal, s, env);
    LegacyOfFields(BridgeSimulator.Fields(Text.Lines(Text.Universal, Mt5Bridge.TextBody(s, env))), s, env);
  }

  /** The writer's fields, as text, convert to the expected dict. */
  lemma LegacyOfFields(d: map<string, Json>, s: Mt5Bridge.Signal, env: Mt5Bridge.Env)
    requires BridgeSimulator.Holds(d, Mt5Bridge.TextValues(s, env))
    requires Mt5Bridge.Acceptable(s, env) && Mt5Bridge.Doubles(s)
    requires Faithful(env.codec) && BridgeSimulator.PlainFloats(env.codec)
    ensures Legacy(d, env.codec) == Success(Expected(s, env))
  {
    var codec := env.codec;
    var x := s.volume;
    assert d["volume"] == JStr(codec.formatFloat(x));
    assert codec.parseFloat(codec.formatFloat(x)) == Some(x);
    PriceRead(d, s.price, codec);
    CountRead(d, "sl_pts", s.slPts);
    CountRead(d, "tp_pts", s.tpPts);
  }

  lemma PriceRead(d: map<string, Json>, p: Option<real>, codec: Codec)
    requires "price" in d && d["price"] == JStr(Mt5Bridge.OptReal(p, codec)) && (p.Some? ==> IsDouble(p.value))
    requires Faithful(codec) && BridgeSimulator.PlainFloats(codec)
    ensures OptionalFloat(d, "price", codec) == Success(if p.Some? then JNum(p.value) else JNull)
  {
    if p.Some? {
      var x := p.value;
      assert codec.formatFloat(x) != "";
      assert codec.parseFloat(codec.formatFloat(x)) == Some(x);
    }
  }

  lemma CountRead(d: map<string, Json>, k: string, v: Option<int>)
    requires k in d && d[k] == JStr(Mt5Bridge.OptInt(v))
    ensures OptionalInt(d, k) == Success(if v.Some? then JInt(v.value) else JNull)
  {
    if v.Some? {
      Text.IntStringRoundTrip(v.value);
    }
  }
}

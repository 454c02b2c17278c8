/** Decoded JSON values as Python sees them after json.loads, with Python's truthiness and
    its float()/int() coercions. Serialisation itself is an oracle (Codec). */
module Json {
  import opened Wrappers
  import Text
  import Numeric

  datatype Json =
    | JNull
    | JBool(b: bool)
    | JInt(i: int)
    | JNum(r: real)
    | JStr(s: string)
    | JArr(a: seq<Json>)
    | JObj(o: map<string, Json>)

  /** Python's bool(v). */
  predicate Truthy(v: Json) {
    match v
    case JNull => false
    case JBool(b) => b
    case JInt(i) => i != 0
    case JNum(r) => r != 0.0
    case JStr(s) => s != ""
    case JArr(a) => a != []
    case JObj(o) => o != map[]
  }

  /** dict keys and set elements must be hashable: a list or a dict raises TypeError. */
  predicate Hashable(v: Json) {
    !v.JArr? && !v.JObj?
  }

  /** Python's `d.get(k)`: a missing key reads as None. */
  function Get(m: map<string, Json>, k: string): (v: Json)
    ensures k !in m ==> v == JNull
  {
    if k in m then m[k] else JNull
  }

  /** Python's `d.get(k, default)`. */
  function GetOr(m: map<string, Json>, k: string, default: Json): (v: Json)
    ensures k in m ==> v == m[k]
  {
    if k in m then m[k] else default
  }

  /** The serialisers the program uses, none of them modelled and all supplied by the caller:
      `dump` is json.dumps(v, ensure_ascii=False), one line with the default separators;
      `dumpAscii` is json.dumps(v) with its defaults (non-ASCII escaped as \u sequences);
      `dumpIndented` is json.dumps(v, indent=2, ensure_ascii=False), the layout of the state files;
      `dumpCompact` is json.dumps(v, separators=(",", ":")), compact and ASCII-escaped.
      Also json.loads (with the decoder's error message), float() on text, str() of a float and repr()
      of a list or dict. */
  datatype Codec = Codec(
    dump: Json -> string,
    dumpAscii: Json -> string,
    dumpIndented: Json -> string,
    dumpCompact: Json -> string,
    parse: string -> Result<Json, string>,
    parseFloat: string -> Option<real>,
    formatFloat: real -> string,
    repr: Json -> string)

  /** 2 to the n. */
  function Pow2(n: nat): (p: nat)
    ensures p >= 1
  {
    if n == 0 then 1 else 2 * Pow2(n - 1)
  }

  /** m times 2^e. */
  function Scaled(m: int, e: int): real {
    if e >= 0 then m as real * Pow2(e) as real else m as real / Pow2(-e) as real
  }

  /** A finite IEEE 754 double: a 53-bit significand times a power of two within the format's exponent
      range (subnormals included). A Python float is always one of these. */
  ghost predicate IsDouble(r: real) {
    exists m: int, e: int :: -0x20_0000_0000_0000 < m < 0x20_0000_0000_0000 && -1074 <= e <= 971 && r == Scaled(m, e)
  }

  /** A value json.dumps can write and json.loads reads back unchanged: every number in it is a double. */
  ghost predicate Representable(v: Json) {
    match v
    case JNum(r) => IsDouble(r)
    case JArr(a) => forall i :: 0 <= i < |a| ==> Representable(a[i])
    case JObj(o) => forall k :: k in o ==> Representable(o[k])
    case _ => true
  }

  /** The round trips the standard library guarantees, for the values it can actually hold: json.loads
      of json.dumps, in each layout the program writes, gives back any value whose numbers are doubles,
      and float() of str() of a double is that double. */
  ghost predicate Faithful(c: Codec) {
    && (forall v {:trigger c.dump(v)} :: Representable(v) ==> c.parse(c.dump(v)) == Success(v))
    && (forall v {:trigger c.dumpIndented(v)} :: Representable(v) ==> c.parse(c.dumpIndented(v)) == Success(v))
    && (forall v {:trigger c.dumpCompact(v)} :: Representable(v) ==> c.parse(c.dumpCompact(v)) == Success(v))
    && (forall r :: IsDouble(r) ==> c.parseFloat(c.formatFloat(r)) == Some(r))
  }


  /** Python's float(v); None where Python raises (TypeError or ValueError). */
  function ToFloat(v: Json, c: Codec): (r: Option<real>)
    ensures v.JNum? ==> r == Some(v.r)
    ensures v.JInt? ==> r == Some(v.i as real)
    ensures (v.JNull? || v.JArr? || v.JObj?) ==> r.None?
  {
    match v
    case JNum(x) => Some(x)
    case JInt(i) => Some(i as real)
    case JBool(b) => Some(if b then 1.0 else 0.0)
    case JStr(s) => c.parseFloat(s)
    case _ => None
  }

  /** Python's int(v): floats truncate toward zero, strings are parsed as decimal. */
  function ToInt(v: Json): (r: Option<int>)
    ensures v.JInt? ==> r == Some(v.i)
    ensures (v.JNull? || v.JArr? || v.JObj?) ==> r.None?
  {
    match v
    case JInt(i) => Some(i)
    case JNum(x) => Some(Numeric.Trunc(x))
    case JBool(b) => Some(if b then 1 else 0)
    case JStr(s) => Text.ParseInt(s)
    case _ => None
  }

  /** Python's type(v).__name__. */
  function TypeName(v: Json): string {
    match v
    case JNull => "NoneType"
    case JBool(_) => "bool"
    case JInt(_) => "int"
    case JNum(_) => "float"
    case JStr(_) => "str"
    case JArr(_) => "list"
    case JObj(_) => "dict"
  }

  /** Python's str(v). */
  function Str(v: Json, c: Codec): (r: string)
    ensures v.JStr? ==> r == v.s
    ensures v.JInt? ==> r == Text.IntToString(v.i)
    ensures v.JNull? ==> r == "None"
  {
    match v
    case JNull => "None"
    case JBool(b) => if b then "True" else "False"
    case JInt(i) => Text.IntToString(i)
    case JNum(x) => c.formatFloat(x)
    case JStr(s) => s
    case _ => c.repr(v)
  }

  function Reals(xs: seq<real>): (r: seq<Json>)
    ensures |r| == |xs| && forall i :: 0 <= i < |xs| ==> r[i] == JNum(xs[i])
  {
    if xs == [] then [] else [JNum(xs[0])] + Reals(xs[1..])
  }

  function Strs(xs: seq<string>): (r: seq<Json>)
    ensures |r| == |xs| && forall i :: 0 <= i < |xs| ==> r[i] == JStr(xs[i])
  {
    if xs == [] then [] else [JStr(xs[0])] + Strs(xs[1..])
  }

  /** `[float(x) for x in a]`; None if any element does not convert. */
  function FloatList(a: seq<Json>, c: Codec): (r: Option<seq<real>>)
    ensures r.Some? ==> |r.value| == |a| && forall i :: 0 <= i < |a| ==> ToFloat(a[i], c) == Some(r.value[i])
  {
    if a == [] then Some([])
    else
      var h := ToFloat(a[0], c);
      var t := FloatList(a[1..], c);
      if h.Some? && t.Some? then
        var xs := [h.value] + t.value;
        assert forall i :: 1 <= i < |a| ==>
          (xs[i] == t.value[i - 1] && a[i] == a[1..][i - 1] && ToFloat(a[1..][i - 1], c) == Some(t.value[i - 1]));
        Some(xs)
      else None
  }

  /** A list of doubles, as json.dumps writes it, is representable. */
  lemma RealsRepresentable(xs: seq<real>)
    requires forall i :: 0 <= i < |xs| ==> IsDouble(xs[i])
    ensures Representable(JArr(Reals(xs)))
  {
    assert forall i :: 0 <= i < |xs| ==> Reals(xs)[i] == JNum(xs[i]);
  }

  lemma {:induction false} FloatListOfReals(xs: seq<real>, c: Codec)
    ensures FloatList(Reals(xs), c) == Some(xs)
  {
    if xs != [] {
      var a := Reals(xs);
      assert a == [JNum(xs[0])] + Reals(xs[1..]);
      assert a[0] == JNum(xs[0]) && a[1..] == Reals(xs[1..]);
      FloatListOfReals(xs[1..], c);
      assert FloatList(a, c) == Some([xs[0]] + xs[1..]);
      assert [xs[0]] + xs[1..] == xs;
    }
  }
}

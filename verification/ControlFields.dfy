/**
 * The fields of control messages: strings, namespaces and parameter values. A control message is
 * framed before it is read, so for its decoder a field that asks for more bytes is malformed too.
 * Every reader is self-delimiting: the `Exact` lemmas name the bytes `f` it has used and say that
 * it reads the same value from them in front of anything else.
 */
module ControlFields {
  import opened Basics
  import opened SubgroupWire
  import Varint

  const MAX_FIELDS: nat := 32
  const MAX_NAME: nat := 4096
  const MAX_VALUE: nat := 65535
  const MAX_REASON: nat := 1024

  /** Reader::string. */
  function TakeString(s: bytes, limit: nat): (r: Parse<bytes>)
    ensures r.Done? ==> |r.rest| < |s| && |r.value| <= limit
  {
    var (size, s0) :- Varint.Take(s);
    if size > limit then Bad else TakeView(s0, size)
  }

  /** Reader::track_namespace. */
  function TakeSpace(s: bytes): (r: Parse<seq<bytes>>)
    ensures r.Done? ==> |r.rest| < |s| && |r.value| <= MAX_FIELDS
  {
    var (count, s0) :- Varint.Take(s);
    if count > MAX_FIELDS then Bad else TakeFields(s0, count, 0)
  }

  /** The loop of track_namespace: `count` fields to go, `total` bytes so far. */
  function TakeFields(s: bytes, count: nat, total: nat): (r: Parse<seq<bytes>>)
    ensures r.Done? ==> |r.rest| <= |s| && |r.value| == count
    decreases count
  {
    if count == 0 then Done([], s) else
    var (field, s0) :- TakeString(s, MAX_NAME);
    if field == [] || total + |field| > MAX_NAME then Bad else
    var (fields, s1) :- TakeFields(s0, count - 1, total + |field|);
    Done([field] + fields, s1)
  }

  function EncodeString(v: buffer): bytes {
    Varint.Encode(|v|) + v
  }

  /** write_track_namespace, which throws on a namespace that the reader would not take. */
  function EncodeSpace(fields: seq<bytes>): Option<bytes> {
    if |fields| > MAX_FIELDS then None else
    match EncodeFields(fields, 0)
    case Some(tail) => Some(Varint.Encode(|fields|) + tail)
    case None => None
  }

  function EncodeFields(fields: seq<bytes>, total: nat): Option<bytes> {
    if fields == [] then Some([])
    else if fields[0] == [] || total + |fields[0]| > MAX_NAME then None
    else match EncodeFields(fields[1..], total + |fields[0]|)
      case Some(tail) => Some(EncodeString(fields[0]) + tail)
      case None => None
  }

  /** A namespace that can be written at all. */
  predicate ValidSpace(fields: seq<bytes>) {
    |fields| <= MAX_FIELDS && TotalSize(fields) <= MAX_NAME && forall i :: 0 <= i < |fields| ==> fields[i] != []
  }

  function TotalSize(fields: seq<bytes>): nat {
    if fields == [] then 0 else |fields[0]| + TotalSize(fields[1..])
  }

  lemma VarintExact(s: bytes) returns (f: bytes)
    requires Varint.Take(s).Done?
    ensures s == f + Varint.Take(s).rest
    ensures forall t :: Varint.Take(f + t) == Done(Varint.Take(s).value, t)
    ensures |Varint.Encode(Varint.Take(s).value)| <= |f|
  {
    hide Varint.Encode;
    var n := Varint.Decode(s).length;
    f := s[..n];
    Varint.Minimal(s);
    forall t ensures Varint.Take(f + t) == Done(Varint.Take(s).value, t) {
      assert Varint.Digits(f + t, n) == Varint.Digits(s, n);
    }
  }

  lemma StringExact(s: bytes, limit: nat) returns (f: bytes)
    requires limit <= MAX_VALUE
    requires TakeString(s, limit).Done?
    ensures s == f + TakeString(s, limit).rest
    ensures forall t :: TakeString(f + t, limit) == Done(TakeString(s, limit).value, t)
    ensures |EncodeString(TakeString(s, limit).value)| <= |f|
  {
    hide Varint.Encode, Varint.Take;
    var v := TakeString(s, limit).value;
    var g := VarintExact(s);
    f := g + v;
    var s0 := Varint.Take(s).rest;
    assert s0 == v + s0[|v|..];
    forall t ensures TakeString(f + t, limit) == Done(v, t) {
      Associative(g, v, t);
      assert (v + t)[..|v|] == v && (v + t)[|v|..] == t;
    }
  }

  lemma StringRoundTrip(v: buffer, limit: nat, t: bytes)
    ensures TakeString(EncodeString(v) + t, limit) == if |v| <= limit then Done(v, t) else Bad
  {
    hide Varint.Encode, Varint.Take;
    Associative(Varint.Encode(|v|), v, t);
    Varint.TakeEncoded(|v|, v + t);
    assert (v + t)[..|v|] == v && (v + t)[|v|..] == t;
  }

  lemma {:induction false} FieldsExact(s: bytes, count: nat, total: nat) returns (f: bytes)
    requires TakeFields(s, count, total).Done?
    ensures s == f + TakeFields(s, count, total).rest
    ensures forall t :: TakeFields(f + t, count, total) == Done(TakeFields(s, count, total).value, t)
    ensures var e := EncodeFields(TakeFields(s, count, total).value, total);
            e.Some? && |e.value| <= |f|
    decreases count
  {
    hide TakeString, EncodeString;
    if count == 0 {
      f := [];
      forall t ensures TakeFields(f + t, count, total) == Done([], t) {
        assert f + t == t;
      }
    } else {
      var r := TakeString(s, MAX_NAME);
      var g := StringExact(s, MAX_NAME);
      var h := FieldsExact(r.rest, count - 1, total + |r.value|);
      var fields := TakeFields(r.rest, count - 1, total + |r.value|);
      assert ([r.value] + fields.value)[1..] == fields.value;
      f := g + h;
      Associative(g, h, fields.rest);
      forall t ensures TakeFields(f + t, count, total) == Done([r.value] + fields.value, t) {
        Associative(g, h, t);
      }
    }
  }

  lemma {:induction false} FieldsRoundTrip(fields: seq<bytes>, total: nat, t: bytes)
    requires EncodeFields(fields, total).Some?
    ensures TakeFields(EncodeFields(fields, total).value + t, |fields|, total) == Done(fields, t)
    decreases |fields|
  {
    hide TakeString, EncodeString;
    if fields == [] {
      assert EncodeFields(fields, total).value + t == t;
    } else {
      var tail := EncodeFields(fields[1..], total + |fields[0]|).value;
      Associative(EncodeString(fields[0]), tail, t);
      StringRoundTrip(fields[0], MAX_NAME, tail + t);
      FieldsRoundTrip(fields[1..], total + |fields[0]|, t);
      assert [fields[0]] + fields[1..] == fields;
    }
  }

  /** Whatever namespace the reader takes, the writer writes, in no more bytes. */
  lemma SpaceExact(s: bytes) returns (f: bytes)
    requires TakeSpace(s).Done?
    ensures s == f + TakeSpace(s).rest
    ensures forall t :: TakeSpace(f + t) == Done(TakeSpace(s).value, t)
    ensures var e := EncodeSpace(TakeSpace(s).value); e.Some? && |e.value| <= |f|
  {
    hide Varint.Take, Varint.Encode, TakeFields, EncodeFields;
    var count := Varint.Take(s);
    var g := VarintExact(s);
    var h := FieldsExact(count.rest, count.value, 0);
    var fields := TakeFields(count.rest, count.value, 0);
    f := g + h;
    Associative(g, h, fields.rest);
    forall t ensures TakeSpace(f + t) == Done(fields.value, t) {
      Associative(g, h, t);
    }
  }

  lemma SpaceRoundTrip(fields: seq<bytes>, t: bytes)
    requires EncodeSpace(fields).Some?
    ensures TakeSpace(EncodeSpace(fields).value + t) == Done(fields, t)
  {
    hide Varint.Take, Varint.Encode, TakeFields, EncodeFields;
    var tail := EncodeFields(fields, 0).value;
    Associative(Varint.Encode(|fields|), tail, t);
    Varint.TakeEncoded(|fields|, tail + t);
    FieldsRoundTrip(fields, 0, t);
  }

  /** The writer throws on exactly the namespaces that break a limit. */
  lemma SpaceEncodable(fields: seq<bytes>)
    ensures EncodeSpace(fields).Some? <==> ValidSpace(fields)
  {
    FieldsEncodable(fields, 0);
  }

  lemma {:induction false} FieldsEncodable(fields: seq<bytes>, total: nat)
    ensures EncodeFields(fields, total).Some? <==>
            (fields == [] || total + TotalSize(fields) <= MAX_NAME) &&
            (forall i :: 0 <= i < |fields| ==> fields[i] != [])
    decreases |fields|
  {
    if fields != [] {
      FieldsEncodable(fields[1..], total + |fields[0]|);
      assert forall i :: 1 <= i < |fields| ==> fields[i] == fields[1..][i - 1];
      assert (forall i :: 0 <= i < |fields| ==> fields[i] != []) <==>
             fields[0] != [] && (forall i :: 0 <= i < |fields[1..]| ==> fields[1..][i] != []);
    }
  }

  /** How the value of a parameter type is laid out. */
  datatype Encoding = Uint8 | Number | Pair | Prefixed | Space

  /** parameter_encoding. */
  function EncodingOf(kind: u64): Option<Encoding> {
    match kind
    case 0x02 => Some(Number)
    case 0x04 => Some(Number)
    case 0x06 => Some(Number)
    case 0x08 => Some(Number)
    case 0x0a => Some(Number)
    case 0x32 => Some(Number)
    case 0x03 => Some(Prefixed)
    case 0x21 => Some(Prefixed)
    case 0x09 => Some(Pair)
    case 0x10 => Some(Uint8)
    case 0x20 => Some(Uint8)
    case 0x22 => Some(Uint8)
    case 0x34 => Some(Space)
    case _ => None
  }

  /** The value of a parameter is skipped, not interpreted: `rest` is what is behind it. */
  function Skip(e: Encoding, s: bytes): (r: Parse<()>)
    ensures r.Done? ==> |r.rest| < |s|
  {
    match e
    case Uint8 => var (_, s0) :- TakeByte(s); Done((), s0)
    case Number => var (_, s0) :- Varint.Take(s); Done((), s0)
    case Pair =>
      var (_, s0) :- Varint.Take(s);
      var (_, s1) :- Varint.Take(s0);
      Done((), s1)
    case Prefixed => var (_, s0) :- TakeString(s, MAX_VALUE); Done((), s0)
    case Space => var (_, s0) :- TakeSpace(s); Done((), s0)
  }

  /** The bytes of the value. */
  function TakeValue(e: Encoding, s: bytes): (r: Parse<bytes>)
    ensures r.Done? ==> |r.rest| < |s|
  {
    var (_, rest) :- Skip(e, s);
    Done(s[..|s| - |rest|], rest)
  }

  /** The bytes are one value of that layout and no more. */
  predicate WellFormed(e: Encoding, v: bytes) {
    Skip(e, v) == Done((), [])
  }

  lemma SkipExact(e: Encoding, s: bytes) returns (f: bytes)
    requires Skip(e, s).Done?
    ensures s == f + Skip(e, s).rest
    ensures forall t :: Skip(e, f + t) == Done((), t)
  {
    hide Varint.Take, TakeString, TakeSpace;
    match e
    case Uint8 =>
      f := [s[0]];
      forall t ensures Skip(e, f + t) == Done((), t) {
        assert (f + t)[1..] == t;
      }
    case Number => f := VarintExact(s);
    case Pair => f := PairExact(s);
    case Prefixed => f := StringExact(s, MAX_VALUE);
    case Space => f := SpaceExact(s);
  }

  lemma PairExact(s: bytes) returns (f: bytes)
    requires Skip(Pair, s).Done?
    ensures s == f + Skip(Pair, s).rest
    ensures forall t :: Skip(Pair, f + t) == Done((), t)
  {
    hide Varint.Take;
    var g := VarintExact(s);
    var s0 := Varint.Take(s).rest;
    var h := VarintExact(s0);
    f := g + h;
    Associative(g, h, Varint.Take(s0).rest);
    forall t ensures Skip(Pair, f + t) == Done((), t) {
      Associative(g, h, t);
    }
  }

  /** An accepted value is well formed, and it is read again from its own bytes in front of any others. */
  lemma ValueExact(e: Encoding, s: bytes)
    requires TakeValue(e, s).Done?
    ensures var r := TakeValue(e, s);
            WellFormed(e, r.value) && s == r.value + r.rest && forall t :: TakeValue(e, r.value + t) == Done(r.value, t)
  {
    hide Skip;
    var f := SkipExact(e, s);
    var r := TakeValue(e, s);
    assert r.value == f;
    assert f + [] == f;
    forall t ensures TakeValue(e, f + t) == Done(f, t) {
      assert (f + t)[..|f|] == f;
    }
  }

  lemma ValueRoundTrip(e: Encoding, v: bytes, t: bytes)
    requires WellFormed(e, v)
    ensures TakeValue(e, v + t) == Done(v, t)
  {
    hide Skip;
    assert v[..|v|] == v;
    ValueExact(e, v);
  }

  /** What Parameter::varint, ::location, ::length_prefixed and ::track_namespace build is well formed. */
  lemma ConstructorsWellFormed(b: byte, n: u64, m: u64, v: buffer, fields: seq<bytes>)
    ensures WellFormed(Uint8, [b])
    ensures WellFormed(Number, Varint.Encode(n))
    ensures WellFormed(Pair, Varint.Encode(n) + Varint.Encode(m))
    ensures WellFormed(Prefixed, EncodeString(v)) <==> |v| <= MAX_VALUE
    ensures EncodeSpace(fields).Some? ==> WellFormed(Space, EncodeSpace(fields).value)
  {
    hide Varint.Take, Varint.Encode, TakeString, TakeSpace, EncodeString, EncodeSpace;
    assert Varint.Encode(n) + [] == Varint.Encode(n) && Varint.Encode(m) + [] == Varint.Encode(m);
    Varint.TakeEncoded(n, []);
    Varint.TakeEncoded(n, Varint.Encode(m));
    Varint.TakeEncoded(m, []);
    assert EncodeString(v) + [] == EncodeString(v);
    StringRoundTrip(v, MAX_VALUE, []);
    if EncodeSpace(fields).Some? {
      assert EncodeSpace(fields).value + [] == EncodeSpace(fields).value;
      SpaceRoundTrip(fields, []);
    }
  }
}

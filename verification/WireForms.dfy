/**
 * Everything that a conforming peer may send, and not only what this publisher writes: all forms of a
 * subgroup header and of an object, with what the receiver makes of each; and which types, statuses,
 * endings and truncations it refuses.
 */
module WireForms {
  import opened Basics
  import opened SubgroupWire
  import opened Reception
  import Varint

  // ----- headers -----

  /** How the Subgroup ID is given: it is zero, that of the first object, or explicit. */
  datatype SubgroupForm = Zero | FirstObject | Explicit(id: u64)

  /** A subgroup header: what it says and which of its bits are set; `reserved` is the bit 0x40. */
  datatype Form = Form(alias: u64, group: u64, subgroup: SubgroupForm, priority: Option<byte>, properties: bool,
                       endOfGroup: bool, reserved: bool)

  function ModeOf(s: SubgroupForm): u64 {
    match s
    case Zero => 0
    case FirstObject => 1
    case Explicit(_) => 2
  }

  function Flag(on: bool, weight: u64): u64 {
    if on then weight else 0
  }

  function TypeOf(f: Form): u64 {
    0x10 + Flag(f.properties, 0x01) + 2 * ModeOf(f.subgroup) + Flag(f.endOfGroup, 0x08) + Flag(f.priority.None?, 0x20)
    + Flag(f.reserved, 0x40)
  }

  function HeaderBytes(f: Form): bytes {
    Varint.Encode(TypeOf(f)) + (Varint.Encode(f.alias) + (Varint.Encode(f.group) + (SubgroupBytes(f.subgroup)
    + PriorityBytes(f.priority))))
  }

  function SubgroupBytes(s: SubgroupForm): bytes {
    if s.Explicit? then Varint.Encode(s.id) else []
  }

  function PriorityBytes(p: Option<byte>): bytes {
    if p.Some? then [p.value] else []
  }

  /** What the header says: without a priority it is 128, and without a Subgroup ID that is not known yet. */
  function Meaning(f: Form): Header {
    Header(f.alias, f.group, ModeOf(f.subgroup),
           match f.subgroup case Zero => Some(0) case FirstObject => None case Explicit(id) => Some(id),
           if f.priority.Some? then f.priority.value else 128, f.properties, f.endOfGroup)
  }

  lemma Digits(p: nat, m: nat, e: nat, d: nat, r: nat)
    requires p <= 1 && m <= 2 && e <= 1 && d <= 1 && r <= 1
    ensures var t := 0x10 + p + 2 * m + 8 * e + 0x20 * d + 0x40 * r;
            t % 2 == p && t / 2 % 4 == m && t / 8 % 2 == e && t / 0x10 % 2 == 1 && t / 0x20 % 2 == d && t <= 0x7f
  {
    var t := 0x10 + p + 2 * m + 8 * e + 0x20 * d + 0x40 * r;
    assert t == 2 * (8 + m + 4 * e + 0x10 * d + 0x20 * r) + p;
    assert t == 8 * (2 + e + 4 * d + 8 * r) + (p + 2 * m) && p + 2 * m < 8;
    assert t == 0x10 * (1 + 2 * d + 4 * r) + (p + 2 * m + 8 * e) && p + 2 * m + 8 * e < 0x10;
    assert t == 0x20 * (d + 2 * r) + (0x10 + p + 2 * m + 8 * e);
  }

  /** The bits of the type are those of the form. */
  lemma TypeBits(f: Form)
    ensures var t := TypeOf(f);
            && IsSubgroupType(t) && ModeBits(t) == ModeOf(f.subgroup) && PropertiesBit(t) == f.properties
            && EndOfGroupBit(t) == f.endOfGroup && DefaultPriorityBit(t) == f.priority.None?
  {
    var p, e: nat := if f.properties then 1 else 0, if f.endOfGroup then 1 else 0;
    var d, r: nat := if f.priority.None? then 1 else 0, if f.reserved then 1 else 0;
    Digits(p, ModeOf(f.subgroup), e, d, r);
    assert TypeOf(f) == 0x10 + p + 2 * ModeOf(f.subgroup) + 8 * e + 0x20 * d + 0x40 * r;
  }

  /** Exactly the types of the forms are subgroup types. */
  lemma TypesExact(t: u64)
    ensures IsSubgroupType(t) <==> exists f: Form :: TypeOf(f) == t
  {
    if IsSubgroupType(t) {
      var subgroup := if ModeBits(t) == 0 then Zero else if ModeBits(t) == 1 then FirstObject else Explicit(0);
      var f := Form(0, 0, subgroup, if DefaultPriorityBit(t) then None else Some(0), PropertiesBit(t),
                    EndOfGroupBit(t), t >= 0x40);
      BitsMakeType(t);
      assert TypeOf(f) == t;
    }
    forall f: Form
      ensures IsSubgroupType(TypeOf(f))
    {
      TypeBits(f);
    }
  }

  lemma BitsMakeType(t: u64)
    requires IsSubgroupType(t)
    ensures var high := if t >= 0x40 then 0x40 else 0;
            t == 0x10 + (t % 2) + 2 * (t / 2 % 4) + 8 * (t / 8 % 2) + 0x20 * (t / 0x20 % 2) + high
  {
  }

  /** Every form of header is read as it is meant, whatever follows. */
  lemma HeaderForms(f: Form, tail: bytes)
    ensures ParseHeader(HeaderBytes(f) + tail) == Done(Meaning(f), tail)
  {
    hide Varint.Encode, Varint.Take, TakeSubgroup, TakePriority, IsSubgroupType;
    hide ModeBits, PropertiesBit, EndOfGroupBit, DefaultPriorityBit, TypeOf, SubgroupBytes, PriorityBytes;
    var s, p := SubgroupBytes(f.subgroup), PriorityBytes(f.priority);
    var k, a, g := Varint.Encode(TypeOf(f)), Varint.Encode(f.alias), Varint.Encode(f.group);
    var t1 := s + (p + tail);
    FiveParts(k, a, g, s, p, tail);
    TypeBits(f);
    Varint.TakeEncoded(TypeOf(f), a + (g + t1));
    Varint.TakeEncoded(f.alias, g + t1);
    Varint.TakeEncoded(f.group, t1);
    OptionalParts(f, tail);
  }

  lemma FiveParts(k: bytes, a: bytes, g: bytes, s: bytes, p: bytes, tail: bytes)
    ensures k + (a + (g + (s + p))) + tail == k + (a + (g + (s + (p + tail))))
  {
  }

  lemma OptionalParts(f: Form, tail: bytes)
    ensures var t := PriorityBytes(f.priority) + tail;
            && TakeSubgroup(SubgroupBytes(f.subgroup) + t, ModeOf(f.subgroup)) == Done(Meaning(f).subgroup, t)
            && TakePriority(t, f.priority.None?) == Done(Meaning(f).priority, tail)
  {
    hide Varint.Encode, Varint.Take, TypeOf;
    var t := PriorityBytes(f.priority) + tail;
    assert f.priority.None? ==> t == tail;
    assert f.priority.Some? ==> t[1..] == tail;
    if f.subgroup.Explicit? {
      Varint.TakeEncoded(f.subgroup.id, t);
    } else {
      assert [] + t == t;
    }
  }

  /** Any other type is refused at once, whatever follows. */
  lemma OtherTypesRefused(t: u64, tail: bytes)
    ensures ParseHeader(Varint.Encode(t) + tail).Bad? <==> !exists f: Form :: TypeOf(f) == t
  {
    hide Varint.Encode, Varint.Take, TypeOf, IsSubgroupType;
    Varint.TakeEncoded(t, tail);
    TypesExact(t);
  }

  // ----- objects -----

  /** An object that can be written: without the properties bit it has none, and a status iff no payload. */
  predicate Writable(properties: bool, raw: RawObject) {
    && (!properties ==> raw.properties == []) && (raw.payload == [] <==> raw.status.Some?)
    && |raw.properties| <= MAX64 && |raw.payload| <= MAX64
  }

  function RawBytes(properties: bool, raw: RawObject): bytes
    requires Writable(properties, raw)
  {
    Varint.Encode(raw.delta) + (PropertyBytes(properties, raw) + ContentBytes(raw.status, raw.payload))
  }

  function PropertyBytes(properties: bool, raw: RawObject): bytes
    requires Writable(properties, raw)
  {
    if properties then Varint.Encode(|raw.properties|) + raw.properties else []
  }

  function ContentBytes(status: Option<u64>, payload: bytes): bytes
    requires (payload == [] <==> status.Some?) && |payload| <= MAX64
  {
    if status.Some? then Varint.Encode(0) + Varint.Encode(status.value) else Varint.Encode(|payload|) + payload
  }

  /** The receiver accepts it: short properties, a known status, and no properties with one that ends something. */
  predicate Acceptable(raw: RawObject) {
    && |raw.properties| <= 65535
    && (raw.status.Some? ==> raw.status.value == 0x0 || (raw.status.value in {0x3, 0x4} && raw.properties == []))
  }

  lemma ContentForms(status: Option<u64>, payload: bytes, hasProperties: bool, tail: bytes)
    requires (payload == [] <==> status.Some?) && |payload| <= MAX64
    ensures TakeContent(ContentBytes(status, payload) + tail, hasProperties) ==
            if status.Some? && !(status.value == 0x0 || (status.value in {0x3, 0x4} && !hasProperties)) then Bad
            else Done((status, payload), tail)
  {
    hide Varint.Encode, Varint.Take, TakeView;
    if status.Some? {
      Associative(Varint.Encode(0), Varint.Encode(status.value), tail);
      Varint.TakeEncoded(0, Varint.Encode(status.value) + tail);
      Varint.TakeEncoded(status.value, tail);
    } else {
      Associative(Varint.Encode(|payload|), payload, tail);
      Varint.TakeEncoded(|payload|, payload + tail);
      TakeViewFront(payload, tail);
    }
  }

  /** Every object is read as it is meant, or refused if and only if it is not acceptable. */
  lemma ObjectForms(properties: bool, raw: RawObject, tail: bytes)
    requires Writable(properties, raw)
    ensures ParseObject(properties, RawBytes(properties, raw) + tail) ==
            if Acceptable(raw) then Done(raw, tail) else Bad
  {
    hide Varint.Encode, Varint.Take, TakeView, TakeContent, ContentBytes;
    var d, p, c := Varint.Encode(raw.delta), PropertyBytes(properties, raw), ContentBytes(raw.status, raw.payload);
    var t := c + tail;
    assert RawBytes(properties, raw) + tail == d + (p + t) by { FourParts(d, p, c, tail); }
    Varint.TakeEncoded(raw.delta, p + t);
    if properties {
      Associative(Varint.Encode(|raw.properties|), raw.properties, t);
      Varint.TakeEncoded(|raw.properties|, raw.properties + t);
      TakeViewFront(raw.properties, t);
    } else {
      assert p + t == t;
    }
    ContentForms(raw.status, raw.payload, raw.properties != [], tail);
  }

  lemma FourParts(d: bytes, p: bytes, c: bytes, tail: bytes)
    ensures d + (p + c) + tail == d + (p + (c + tail))
  {
  }

  /** Whatever is accepted is acceptable. */
  lemma OnlyAcceptable(properties: bool, s: bytes)
    requires ParseObject(properties, s).Done?
    ensures Acceptable(ParseObject(properties, s).value)
  {
    hide Varint.Take, TakeView;
  }

  // ----- streams -----

  /** Objects that can all be read, with Object IDs that stay within 64 bits. */
  predicate Readable(properties: bool, last: Option<u64>, raws: seq<RawObject>)
    decreases |raws|
  {
    raws == [] ||
    (&& Writable(properties, raws[0]) && Acceptable(raws[0]) && IdOf(last, raws[0]) <= MAX64
     && Readable(properties, Some(IdOf(last, raws[0])), raws[1..]))
  }

  /** Object IDs count from the one before; the first is the delta itself. */
  function IdOf(last: Option<u64>, raw: RawObject): nat {
    if last.None? then raw.delta else last.value + raw.delta + 1
  }

  function BodyBytes(properties: bool, last: Option<u64>, raws: seq<RawObject>): bytes
    requires Readable(properties, last, raws)
    decreases |raws|
  {
    if raws == [] then [] else
    RawBytes(properties, raws[0]) + BodyBytes(properties, Some(IdOf(last, raws[0])), raws[1..])
  }

  /** The Object ID of the last object. */
  function LastId(properties: bool, last: Option<u64>, raws: seq<RawObject>): Option<u64>
    requires Readable(properties, last, raws)
    decreases |raws|
  {
    if raws == [] then last else LastId(properties, Some(IdOf(last, raws[0])), raws[1..])
  }

  /** The objects as they should reach the route. */
  function Objects(b: Binding, subgroup: u64, last: Option<u64>, raws: seq<RawObject>): seq<Call>
    requires Readable(b.header.properties, last, raws)
    decreases |raws|
  {
    if raws == [] then [] else
    var id := IdOf(last, raws[0]);
    [Call.Deliver(Object(b.request, b.header.alias, b.header.group, Some(subgroup), id, b.header.priority,
                         raws[0].status, raws[0].properties, raws[0].payload, SubgroupStream, b.stream))]
    + Objects(b, subgroup, Some(id), raws[1..])
  }

  /** The Subgroup ID: zero, as stated, or that of the first object. */
  function SubgroupOf(f: Form, raws: seq<RawObject>): u64 {
    match f.subgroup
    case Zero => 0
    case Explicit(id) => id
    case FirstObject => if raws == [] then 0 else raws[0].delta
  }

  /** The receiver knows the subgroup already, or is about to learn it from the next object. */
  predicate Knows(b: Binding, pos: Position, subgroup: u64, raws: seq<RawObject>) {
    || pos.subgroup == Some(subgroup)
    || (pos.subgroup.None? && b.header.mode == 1 && pos.last.None? && (raws != [] ==> subgroup == raws[0].delta))
  }

  lemma {:induction false} DrainForms(b: Binding, pos: Position, subgroup: u64, raws: seq<RawObject>, tail: bytes)
    requires Readable(b.header.properties, pos.last, raws) && Knows(b, pos, subgroup, raws)
    requires ParseObject(b.header.properties, tail).More?
    ensures var d := Drain(b, pos, BodyBytes(b.header.properties, pos.last, raws) + tail);
            && d.calls == Objects(b, subgroup, pos.last, raws) && d.rest == tail && !d.bad
            && d.pos.last == LastId(b.header.properties, pos.last, raws)
    decreases |raws|
  {
    hide ParseObject, RawBytes, Writable, Acceptable;
    if raws == [] {
      assert [] + tail == tail;
    } else {
      var raw, rest, props := raws[0], raws[1..], b.header.properties;
      var id := IdOf(pos.last, raw);
      var more := BodyBytes(props, Some(id), rest);
      Associative(RawBytes(props, raw), more, tail);
      ObjectForms(props, raw, more + tail);
      DrainForms(b, Reception.Advance(b.header, pos, id), subgroup, rest, tail);
    }
  }

  lemma NothingMore(properties: bool)
    ensures ParseObject(properties, []).More?
  {
    assert Varint.Take([]).More?;
  }

  /** A stream in any form, with its objects. */
  function StreamForm(f: Form, raws: seq<RawObject>): bytes
    requires Readable(f.properties, None, raws)
  {
    HeaderBytes(f) + BodyBytes(f.properties, None, raws)
  }

  function BoundBy(f: Form, env: Env): Binding
    requires f.alias in env.routes
  {
    Binding(Meaning(f), env.routes[f.alias], env.stream)
  }

  /**
   * A stream of any form, cut in any way, reaches the route of its alias as exactly its objects, in its
   * subgroup and with its priority; if it has ended, its last Object ID is recorded as the end of the
   * group if and only if its type says so and it has an object.
   */
  lemma EveryForm(f: Form, raws: seq<RawObject>, env: Env, arrivals: seq<Arrival>)
    requires Readable(f.properties, None, raws) && f.alias in env.routes && WellFormed(arrivals)
    requires AllBytes(arrivals) == StreamForm(f, raws)
    ensures var b := BoundBy(f, env); var last := LastId(f.properties, None, raws);
            ReceiveAll(Opening([]), env, arrivals).calls ==
            Objects(b, SubgroupOf(f, raws), None, raws) +
            if AnyFin(arrivals) && f.endOfGroup && last.Some? then [GroupFinal(b.request, f.group, last.value)] else []
  {
    hide Receive, Drain, ParseHeader, HeaderBytes, ParseObject, Readable, BodyBytes, Objects, LastId;
    FragmentationIndependence(env, arrivals);
    ReceivedForm(f, raws, env, AnyFin(arrivals));
    var o := Objects(BoundBy(f, env), SubgroupOf(f, raws), None, raws);
    assert o + [] == o;
  }

  lemma ReceivedForm(f: Form, raws: seq<RawObject>, env: Env, fin: bool)
    requires Readable(f.properties, None, raws) && f.alias in env.routes
    ensures var b := BoundBy(f, env); var last := LastId(f.properties, None, raws);
            Receive(Opening([]), env, StreamForm(f, raws), fin).calls ==
            Objects(b, SubgroupOf(f, raws), None, raws) +
            if fin && f.endOfGroup && last.Some? then [GroupFinal(b.request, f.group, last.value)] else []
  {
    hide Drain, ParseHeader, HeaderBytes, ParseObject, Readable, BodyBytes, Objects, LastId;
    var body := BodyBytes(f.properties, None, raws);
    HeaderForms(f, body);
    NothingMore(f.properties);
    var b := BoundBy(f, env);
    DrainForms(b, Position(Meaning(f).subgroup, None), SubgroupOf(f, raws), raws, []);
    assert body + [] == body && [] + StreamForm(f, raws) == StreamForm(f, raws);
    var o := Objects(b, SubgroupOf(f, raws), None, raws);
    assert o + [] == o;
  }

  // ----- truncated streams -----

  /** A proper part of an object asks for more. */
  lemma PartOfObject(properties: bool, raw: RawObject, n: nat)
    requires Writable(properties, raw) && Acceptable(raw) && n < |RawBytes(properties, raw)|
    ensures ParseObject(properties, RawBytes(properties, raw)[..n]).More?
  {
    hide ParseObject, RawBytes, Writable, Acceptable;
    var s := RawBytes(properties, raw);
    ObjectForms(properties, raw, []);
    assert s + [] == s && s[..n] + s[n..] == s;
    if !ParseObject(properties, s[..n]).More? {
      ParseObjectStable(properties, s[..n], s[n..]);
    }
  }

  /** A stream that ends inside its header is a protocol error; until it ends, the receiver waits for more. */
  lemma TruncatedHeader(f: Form, n: nat, env: Env, fin: bool)
    requires n < |HeaderBytes(f)|
    ensures Receive(Opening([]), env, HeaderBytes(f)[..n], fin) ==
            if fin then Outcome(Closed, [Fail]) else Outcome(Opening(HeaderBytes(f)[..n]), [])
  {
    hide ParseHeader, HeaderBytes;
    var s := HeaderBytes(f);
    HeaderForms(f, []);
    assert s + [] == s && s[..n] + s[n..] == s && [] + s[..n] == s[..n];
    if !ParseHeader(s[..n]).More? {
      ParseHeaderStable(s[..n], s[n..]);
    }
  }

  /** A stream that ends inside an object delivers those before it and is then a protocol error. */
  lemma TruncatedFails(f: Form, raws: seq<RawObject>, raw: RawObject, n: nat, env: Env)
    requires Readable(f.properties, None, raws) && f.alias in env.routes
    requires Writable(f.properties, raw) && Acceptable(raw) && 0 < n < |RawBytes(f.properties, raw)|
    ensures Receive(Opening([]), env, StreamForm(f, raws) + RawBytes(f.properties, raw)[..n], true) ==
            Outcome(Closed, Objects(BoundBy(f, env), SubgroupOf(f, raws), None, raws) + [Fail])
  {
    hide Drain, ParseHeader, HeaderBytes, ParseObject, Readable, BodyBytes, Objects, LastId, RawBytes, Writable,
         Acceptable;
    var body, part := BodyBytes(f.properties, None, raws), RawBytes(f.properties, raw)[..n];
    Associative(HeaderBytes(f), body, part);
    HeaderForms(f, body + part);
    PartOfObject(f.properties, raw, n);
    DrainForms(BoundBy(f, env), Position(Meaning(f).subgroup, None), SubgroupOf(f, raws), raws, part);
    assert [] + (StreamForm(f, raws) + part) == StreamForm(f, raws) + part;
  }

  /** A stream with an object that is not acceptable, or whose Object ID does not fit, is a protocol error there. */
  lemma MalformedFails(f: Form, raws: seq<RawObject>, raw: RawObject, tail: bytes, env: Env, fin: bool)
    requires Readable(f.properties, None, raws) && f.alias in env.routes && Writable(f.properties, raw)
    requires !Acceptable(raw) || IdOf(LastId(f.properties, None, raws), raw) > MAX64
    ensures Receive(Opening([]), env, StreamForm(f, raws) + (RawBytes(f.properties, raw) + tail), fin) ==
            Outcome(Closed, Objects(BoundBy(f, env), SubgroupOf(f, raws), None, raws) + [Fail])
  {
    hide Drain, ParseHeader, HeaderBytes, ParseObject, Readable, BodyBytes, Objects, LastId, RawBytes, Writable,
         Acceptable, IdOf;
    var body, part := BodyBytes(f.properties, None, raws), RawBytes(f.properties, raw) + tail;
    Associative(HeaderBytes(f), body, part);
    HeaderForms(f, body + part);
    DrainMalformed(BoundBy(f, env), Position(Meaning(f).subgroup, None), SubgroupOf(f, raws), raws, raw, tail);
    assert [] + (StreamForm(f, raws) + part) == StreamForm(f, raws) + part;
  }

  lemma {:induction false} DrainMalformed(b: Binding, pos: Position, subgroup: u64, raws: seq<RawObject>,
                                          raw: RawObject, tail: bytes)
    requires Readable(b.header.properties, pos.last, raws) && Knows(b, pos, subgroup, raws)
    requires Writable(b.header.properties, raw)
    requires !Acceptable(raw) || IdOf(LastId(b.header.properties, pos.last, raws), raw) > MAX64
    ensures var props := b.header.properties;
            var d := Drain(b, pos, BodyBytes(props, pos.last, raws) + (RawBytes(props, raw) + tail));
            d.bad && d.calls == Objects(b, subgroup, pos.last, raws)
    decreases |raws|
  {
    hide ParseObject, RawBytes, Writable, Acceptable;
    var props := b.header.properties;
    if raws == [] {
      assert [] + (RawBytes(props, raw) + tail) == RawBytes(props, raw) + tail;
      ObjectForms(props, raw, tail);
    } else {
      var first, rest := raws[0], raws[1..];
      var id := IdOf(pos.last, first);
      var more := BodyBytes(props, Some(id), rest);
      Associative(RawBytes(props, first), more, RawBytes(props, raw) + tail);
      ObjectForms(props, first, more + (RawBytes(props, raw) + tail));
      DrainMalformed(b, Reception.Advance(b.header, pos, id), subgroup, rest, raw, tail);
    }
  }
}

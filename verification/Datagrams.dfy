/** Object datagrams: what the publisher sends for an object and what the subscriber reads in it. */
module Datagrams {
  import opened Basics
  import opened SubgroupWire
  import opened SubgroupSend
  import Varint

  const PADDING_TYPE: u64 := 0x132b3e29

  /** The flags of an object datagram's type. */
  datatype Flags = Flags(properties: bool, endOfGroup: bool, zeroId: bool, defaultPriority: bool, status: bool)

  function Bit(on: bool, weight: u64): u64 {
    if on then weight else 0
  }

  function TypeOf(f: Flags): u64 {
    Bit(f.properties, 0x01) + Bit(f.endOfGroup, 0x02) + Bit(f.zeroId, 0x04) + Bit(f.defaultPriority, 0x08)
    + Bit(f.status, 0x20)
  }

  /** The types below 0x10 and from 0x20 to 0x2f, but a status and the end-of-group bit exclude each other. */
  predicate ValidType(t: u64) {
    (t <= 0x0f || 0x20 <= t <= 0x2f) && !(t / 0x20 % 2 == 1 && t / 2 % 2 == 1)
  }

  function FlagsOf(t: u64): Flags {
    Flags(t % 2 == 1, t / 2 % 2 == 1, t / 4 % 2 == 1, t / 8 % 2 == 1, t / 0x20 % 2 == 1)
  }

  /** Building a type and taking it apart again. */
  lemma FlagsRoundTrip(f: Flags)
    requires !(f.status && f.endOfGroup)
    ensures ValidType(TypeOf(f)) && FlagsOf(TypeOf(f)) == f && TypeOf(f) != PADDING_TYPE
  {
    match f
    case Flags(false, false, z, d, s) =>
    case Flags(false, true, z, d, s) =>
    case Flags(true, false, z, d, s) =>
    case Flags(true, true, z, d, s) =>
  }

  /** encode_object_datagram. */
  function Encode(alias: u64, group: u64, id: u64, priority: byte, properties: buffer, status: Option<u64>,
                  payload: buffer, endOfGroup: bool): bytes
  {
    var f := Flags(properties != [], status.None? && endOfGroup, id == 0, false, status.Some?);
    Varint.Encode(TypeOf(f)) + (Varint.Encode(alias) + (Varint.Encode(group) + (IdBytes(id) + ([priority]
    + (PropertyBytes(properties) + if status.Some? then Varint.Encode(status.value) else payload)))))
  }

  function IdBytes(id: u64): bytes {
    if id == 0 then [] else Varint.Encode(id)
  }

  function PropertyBytes(properties: buffer): bytes {
    if properties == [] then [] else Varint.Encode(|properties|) + properties
  }

  /** A zero-length object says explicitly that its status is Normal. */
  function DatagramStatus(o: Published): Option<u64> {
    if o.status.None? && o.payload == [] then Some(STATUS_NORMAL) else o.status
  }

  /** send_datagram_object. */
  function Sent(alias: u64, o: Published): bytes {
    Encode(alias, o.group, o.id, o.priority, SentProperties(o), DatagramStatus(o), o.payload, o.endOfGroup)
  }

  /** The part of a datagram that is read before its route is looked up. */
  datatype Head = Head(flags: Flags, alias: u64, group: u64, id: u64)

  function ParseHead(s: bytes): Parse<Head> {
    var (t, s0) :- Varint.Take(s);
    if !ValidType(t) then Bad else
    var f := FlagsOf(t);
    var (alias, s1) :- Varint.Take(s0);
    var (group, s2) :- Varint.Take(s1);
    var (id, s3) :- TakeId(s2, f.zeroId);
    Done(Head(f, alias, group, id), s3)
  }

  function TakeId(s: bytes, zero: bool): Parse<u64> {
    if zero then Done(0, s) else Varint.Take(s)
  }

  /** What is behind the head, for the route of `request`. */
  function ParseBody(h: Head, s: bytes, request: u64): Parse<Object> {
    var (priority, s0) :- TakePriority(s, h.flags.defaultPriority);
    var (props, s1) :- if h.flags.properties then TakeProperties(s0, true) else Done([], s0);
    var (content, s2) :- TakeRest(s1, h.flags.status, props != []);
    Done(Object(request, h.alias, h.group, None, h.id, priority, content.0, props, content.1, Datagram, 0), s2)
  }

  /** A status must be valid and end the datagram; otherwise all that is left is payload. */
  function TakeRest(s: bytes, status: bool, hasProperties: bool): Parse<(Option<u64>, bytes)> {
    if !status then Done((None, s), []) else
    var (code, rest) :- Varint.Take(s);
    if !ValidStatus(code) || (code != STATUS_NORMAL && hasProperties) || rest != [] then Bad
    else Done((Some(code), []), [])
  }

  /** The object that reaches the route: what survives of `o`. */
  function Canonical(request: u64, alias: u64, o: Published): Object {
    Object(request, alias, o.group, None, o.id, o.priority, DatagramStatus(o), SentProperties(o),
           if DatagramStatus(o).Some? then [] else o.payload, Datagram, 0)
  }

  lemma HeadRoundTrip(f: Flags, alias: u64, group: u64, id: u64, tail: bytes)
    requires !(f.status && f.endOfGroup) && f.zeroId == (id == 0)
    ensures ParseHead(Varint.Encode(TypeOf(f))
                      + (Varint.Encode(alias) + (Varint.Encode(group) + (IdBytes(id) + tail)))) ==
            Done(Head(f, alias, group, id), tail)
  {
    hide Varint.Encode, Varint.Take, ValidType, FlagsOf, TypeOf;
    FlagsRoundTrip(f);
    var t2 := IdBytes(id) + tail;
    Varint.TakeEncoded(TypeOf(f), Varint.Encode(alias) + (Varint.Encode(group) + t2));
    Varint.TakeEncoded(alias, Varint.Encode(group) + t2);
    Varint.TakeEncoded(group, t2);
    if id == 0 {
      assert t2 == tail;
    } else {
      Varint.TakeEncoded(id, tail);
    }
  }

  lemma BodyRoundTrip(request: u64, h: Head, priority: byte, properties: buffer, status: Option<u64>, payload: buffer)
    requires !h.flags.defaultPriority && h.flags.properties == (properties != []) && h.flags.status == status.Some?
    requires status.Some? ==> ValidStatus(status.value) && (status.value == STATUS_NORMAL || properties == [])
    ensures var rest := if status.Some? then Varint.Encode(status.value) else payload;
            ParseBody(h, [priority] + (PropertyBytes(properties) + rest), request) ==
            if |properties| > MAX_PROPERTIES then Bad
            else Done(Object(request, h.alias, h.group, None, h.id, priority, status, properties,
                             if status.Some? then [] else payload, Datagram, 0), [])
  {
    hide Varint.Encode, Varint.Take, TakeView;
    var rest := if status.Some? then Varint.Encode(status.value) else payload;
    var s0 := PropertyBytes(properties) + rest;
    assert ([priority] + s0)[1..] == s0;
    if properties == [] {
      assert s0 == rest;
    } else {
      Associative(Varint.Encode(|properties|), properties, rest);
      Varint.TakeEncoded(|properties|, properties + rest);
      TakeViewFront(properties, rest);
    }
    if status.Some? {
      assert rest == Varint.Encode(status.value) + [];
      Varint.TakeEncoded(status.value, []);
    }
  }

  /**
   * Datagram round trip: the datagram of a valid published object is accepted exactly if its
   * properties fit, and then it reaches the route as the object that was published, in canonical form.
   */
  lemma DatagramRoundTrip(request: u64, alias: u64, o: Published)
    requires ValidPublish(o)
    ensures var head := ParseHead(Sent(alias, o));
            && head.Done? && head.value.alias == alias && head.value.group == o.group && head.value.id == o.id
            && head.value.flags.endOfGroup == (o.endOfGroup && DatagramStatus(o).None?)
            && ParseBody(head.value, head.rest, request) ==
               if |SentProperties(o)| > MAX_PROPERTIES then Bad else Done(Canonical(request, alias, o), [])
  {
    hide Varint.Encode, ParseHead, ParseBody, PropertyBytes, TypeOf;
    var status, properties := DatagramStatus(o), SentProperties(o);
    var f := Flags(properties != [], status.None? && o.endOfGroup, o.id == 0, false, status.Some?);
    var rest := if status.Some? then Varint.Encode(status.value) else o.payload;
    HeadRoundTrip(f, alias, o.group, o.id, [o.priority] + (PropertyBytes(properties) + rest));
    BodyRoundTrip(request, Head(f, alias, o.group, o.id), o.priority, properties, status, o.payload);
  }
}

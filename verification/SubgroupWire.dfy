/**
 * Wire format of a subgroup data stream as the receiver reads it: a header, then objects. Every
 * reader works on the bytes seen so far and either finishes, asks for more, or rejects. The
 * `Stable` lemmas say that a verdict once reached is not changed by bytes that arrive later.
 */
module SubgroupWire {
  import opened Basics
  import Varint

  const STATUS_NORMAL: u64 := 0x0
  const STATUS_END_OF_GROUP: u64 := 0x3
  const STATUS_END_OF_TRACK: u64 := 0x4
  const MAX_PROPERTIES: nat := 65535

  predicate ValidStatus(status: u64) {
    status == STATUS_NORMAL || status == STATUS_END_OF_GROUP || status == STATUS_END_OF_TRACK
  }

  /** Bit 0x10 is set, no bit above 0x40, and the two-bit subgroup mode is not 3. */
  predicate IsSubgroupType(t: u64) {
    t / 0x10 % 2 == 1 && t <= 0x7f && ModeBits(t) != 3
  }

  /** Bits 0x06 of the stream type. */
  function ModeBits(t: u64): nat {
    t / 2 % 4
  }

  /** Bit 0x01: objects carry properties. */
  predicate PropertiesBit(t: u64) {
    t % 2 == 1
  }

  /** Bit 0x08: the stream's end is the end of the group. */
  predicate EndOfGroupBit(t: u64) {
    t / 8 % 2 == 1
  }

  /** Bit 0x20: the priority is left out. */
  predicate DefaultPriorityBit(t: u64) {
    t / 0x20 % 2 == 1
  }

  /** `mode` says how the Subgroup ID is given: it is 0 (0), the first Object ID (1) or explicit (2). */
  datatype Header = Header(alias: u64, group: u64, mode: nat, subgroup: Option<u64>, priority: byte,
                           properties: bool, endOfGroup: bool)

  datatype RawObject = RawObject(delta: u64, properties: bytes, status: Option<u64>, payload: bytes)

  function TakeByte(s: bytes): (r: Parse<byte>)
    ensures r.Done? ==> |r.rest| < |s|
  {
    if s == [] then More else Done(s[0], s[1..])
  }

  function TakeView(s: bytes, size: nat): (r: Parse<bytes>)
    ensures r.Done? ==> |r.rest| <= |s| && |r.value| == size
    ensures !r.Bad?
  {
    if size > |s| then More else Done(s[..size], s[size..])
  }

  /** Object properties: a length of at most 65535 and that many opaque bytes. */
  function TakeProperties(s: bytes, requireNonEmpty: bool): (r: Parse<bytes>)
    ensures r.Done? ==> |r.rest| < |s| && |r.value| <= MAX_PROPERTIES
  {
    var (length, s1) :- Varint.Take(s);
    if (requireNonEmpty && length == 0) || length > MAX_PROPERTIES then Bad else TakeView(s1, length)
  }

  lemma TakeViewFront(v: bytes, tail: bytes)
    ensures TakeView(v + tail, |v|) == Done(v, tail)
  {
    assert (v + tail)[..|v|] == v && (v + tail)[|v|..] == tail;
  }

  lemma TakeViewStable(s: bytes, t: bytes, size: nat)
    requires TakeView(s, size).Done?
    ensures TakeView(s + t, size) == TakeView(s, size).Extended(t)
  {
    assert (s + t)[..size] == s[..size] && (s + t)[size..] == s[size..] + t;
  }

  lemma TakePropertiesStable(s: bytes, t: bytes, requireNonEmpty: bool)
    requires !TakeProperties(s, requireNonEmpty).More?
    ensures TakeProperties(s + t, requireNonEmpty) == TakeProperties(s, requireNonEmpty).Extended(t)
  {
    hide Varint.Take, TakeView;
    Varint.TakeStable(s, t);
    var length := Varint.Take(s);
    if TakeView(length.rest, length.value).Done? {
      TakeViewStable(length.rest, t, length.value);
    }
  }

  /** parse_header up to the point where the route is looked up. */
  function ParseHeader(s: bytes): (r: Parse<Header>)
    ensures r.Done? ==> |r.rest| < |s|
  {
    var (t, s0) :- Varint.Take(s);
    if !IsSubgroupType(t) then Bad else
    var (alias, s1) :- Varint.Take(s0);
    var (group, s2) :- Varint.Take(s1);
    var (subgroup, s3) :- TakeSubgroup(s2, ModeBits(t));
    var (priority, s4) :- TakePriority(s3, DefaultPriorityBit(t));
    Done(Header(alias, group, ModeBits(t), subgroup, priority, PropertiesBit(t), EndOfGroupBit(t)), s4)
  }

  function TakeSubgroup(s: bytes, mode: nat): (r: Parse<Option<u64>>)
    ensures r.Done? ==> |r.rest| <= |s|
    ensures !r.Bad?
  {
    if mode == 2 then
      var (v, rest) :- Varint.Take(s);
      Done(Some(v), rest)
    else Done(if mode == 0 then Some(0) else None, s)
  }

  function TakePriority(s: bytes, defaulted: bool): (r: Parse<byte>)
    ensures r.Done? ==> |r.rest| <= |s|
    ensures !r.Bad?
  {
    if defaulted then Done(128, s) else TakeByte(s)
  }

  lemma ParseHeaderStable(s: bytes, t: bytes)
    requires !ParseHeader(s).More?
    ensures ParseHeader(s + t) == ParseHeader(s).Extended(t)
  {
    hide Varint.Take;
    Varint.TakeStable(s, t);
    var kind := Varint.Take(s);
    if IsSubgroupType(kind.value) {
      Varint.TakeStable(kind.rest, t);
      var alias := Varint.Take(kind.rest);
      Varint.TakeStable(alias.rest, t);
      var group := Varint.Take(alias.rest);
      if ModeBits(kind.value) == 2 {
        Varint.TakeStable(group.rest, t);
      }
    }
  }

  /** parse_object up to the computation of the Object ID. */
  function ParseObject(properties: bool, s: bytes): (r: Parse<RawObject>)
    ensures r.Done? ==> |r.rest| < |s|
  {
    var (delta, s0) :- Varint.Take(s);
    var (props, s1) :- if properties then TakeProperties(s0, false) else Done([], s0);
    var (content, s2) :- TakeContent(s1, props != []);
    Done(RawObject(delta, props, content.0, content.1), s2)
  }

  /** The payload of an object, or the status that stands for an empty one. */
  function TakeContent(s: bytes, hasProperties: bool): (r: Parse<(Option<u64>, bytes)>)
    ensures r.Done? ==> |r.rest| <= |s|
  {
    var (length, s0) :- Varint.Take(s);
    if length == 0 then
      var (status, s1) :- Varint.Take(s0);
      if !ValidStatus(status) || (status != STATUS_NORMAL && hasProperties) then Bad else Done((Some(status), []), s1)
    else
      var (payload, s1) :- TakeView(s0, length);
      Done((None, payload), s1)
  }

  lemma TakeContentStable(s: bytes, t: bytes, hasProperties: bool)
    requires !TakeContent(s, hasProperties).More?
    ensures TakeContent(s + t, hasProperties) == TakeContent(s, hasProperties).Extended(t)
  {
    hide Varint.Take, TakeView;
    Varint.TakeStable(s, t);
    var length := Varint.Take(s);
    if length.value == 0 {
      Varint.TakeStable(length.rest, t);
    } else {
      TakeViewStable(length.rest, t, length.value);
    }
  }

  lemma ParseObjectStable(properties: bool, s: bytes, t: bytes)
    requires !ParseObject(properties, s).More?
    ensures ParseObject(properties, s + t) == ParseObject(properties, s).Extended(t)
  {
    hide Varint.Take, TakeProperties, TakeContent;
    Varint.TakeStable(s, t);
    var s0 := Varint.Take(s).rest;
    if properties {
      TakePropertiesStable(s0, t, false);
    }
    var props := if properties then TakeProperties(s0, false) else Done([], s0);
    if props.Done? {
      TakeContentStable(props.rest, t, props.value != []);
    }
  }
}

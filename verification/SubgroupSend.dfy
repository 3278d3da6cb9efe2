/**
 * The sending half of subgroup streams: what is written on one stream for a list of objects, and
 * the proof that the receiving half turns those bytes back into those objects.
 */
module SubgroupSend {
  import opened Basics
  import opened SubgroupWire
  import opened Reception
  import Varint

  /** encode_subgroup_header: properties on every object, explicit subgroup unless it is 0. */
  function EncodeHeader(alias: u64, group: u64, subgroup: u64, priority: byte): bytes {
    Varint.Encode(if subgroup == 0 then 0x11 else 0x15) + Varint.Encode(alias) + Varint.Encode(group)
    + (if subgroup == 0 then [] else Varint.Encode(subgroup)) + [priority]
  }

  /** encode_subgroup_object. */
  function EncodeObject(delta: u64, properties: buffer, status: Option<u64>, payload: buffer): bytes {
    Varint.Encode(delta) + Varint.Encode(|properties|) + properties
    + if status.Some? || payload == [] then
        Varint.Encode(0) + Varint.Encode(if status.Some? then status.value else STATUS_NORMAL)
      else Varint.Encode(|payload|) + payload
  }

  /** valid_publish_status. */
  predicate ValidPublish(o: Published) {
    o.status.Some? ==> ValidStatus(o.status.value) && (o.status.value == STATUS_NORMAL || o.payload == [])
  }

  predicate NonNormal(o: Published) {
    o.status.Some? && o.status.value != STATUS_NORMAL
  }

  /** The properties that go on the wire: an object with a non-normal status has none. */
  function SentProperties(o: Published): buffer {
    if NonNormal(o) then [] else o.properties
  }

  /** An explicit end-of-group object follows a normal object that ends its group. */
  predicate Marked(o: Published) {
    o.endOfGroup && !NonNormal(o)
  }

  /** The stream ends with this object. */
  predicate Closing(o: Published) {
    o.endOfSubgroup || o.endOfGroup || NonNormal(o)
  }

  function Delta(last: Option<u64>, id: u64): u64
    requires last.Some? ==> last.value < id
  {
    if last.Some? then id - last.value - 1 else id
  }

  /** What one object adds to its stream. */
  function ObjectBytes(last: Option<u64>, o: Published): bytes
    requires last.Some? ==> last.value < o.id
  {
    EncodeObject(Delta(last, o.id), SentProperties(o), o.status, o.payload)
    + if Marked(o) then EncodeObject(0, [], Some(STATUS_END_OF_GROUP), []) else []
  }

  /** IDs rise from `last` on. */
  predicate Rising(last: Option<u64>, objs: seq<Published>)
    decreases |objs|
  {
    objs == [] || ((last.Some? ==> last.value < objs[0].id) && Rising(Some(objs[0].id), objs[1..]))
  }

  function Body(last: Option<u64>, objs: seq<Published>): bytes
    requires Rising(last, objs)
    decreases |objs|
  {
    if objs == [] then [] else ObjectBytes(last, objs[0]) + Body(Some(objs[0].id), objs[1..])
  }

  /** Objects that share one stream: same group and subgroup, rising IDs, only the last may close it. */
  predicate OneStream(group: u64, subgroup: u64, objs: seq<Published>) {
    && Rising(None, objs)
    && (forall i :: 0 <= i < |objs| ==> objs[i].group == group && objs[i].subgroup == subgroup && ValidPublish(objs[i]))
    && (forall i :: 0 <= i < |objs| - 1 ==> !Closing(objs[i]))
  }

  /** All that is written on the stream of these objects; the first one gives the priority. */
  function StreamBytes(alias: u64, group: u64, subgroup: u64, objs: seq<Published>): bytes
    requires Rising(None, objs) && objs != []
  {
    EncodeHeader(alias, group, subgroup, objs[0].priority) + Body(None, objs)
  }

  /** The object the subscriber is meant to see: what survives the wire of `o`. */
  function Canonical(b: Binding, subgroup: u64, o: Published): Object {
    Object(b.request, b.header.alias, b.header.group, Some(subgroup), o.id, b.header.priority,
           if o.status.Some? then o.status else if o.payload == [] then Some(STATUS_NORMAL) else None,
           SentProperties(o), if o.status.Some? then [] else o.payload, SubgroupStream, b.stream)
  }

  /** The end-of-group object behind a marked object. */
  function MarkerOf(b: Binding, subgroup: u64, o: Published): Object
    requires o.id < MAX64
  {
    Object(b.request, b.header.alias, b.header.group, Some(subgroup), o.id + 1, b.header.priority,
           Some(STATUS_END_OF_GROUP), [], [], SubgroupStream, b.stream)
  }

  /** Exactly what the receiver can accept of an object. */
  predicate Deliverable(o: Published) {
    |SentProperties(o)| <= MAX_PROPERTIES && (Marked(o) ==> o.id < MAX64)
  }

  function Expected(b: Binding, subgroup: u64, objs: seq<Published>): seq<Call>
    requires forall i :: 0 <= i < |objs| ==> Deliverable(objs[i])
  {
    if objs == [] then [] else
    assert Deliverable(objs[0]);
    [Deliver(Canonical(b, subgroup, objs[0]))]
    + (if Marked(objs[0]) then [Deliver(MarkerOf(b, subgroup, objs[0]))] else [])
    + Expected(b, subgroup, objs[1..])
  }

  lemma Nested(a: bytes, b: bytes, c: bytes, d: bytes, tail: bytes)
    ensures a + b + c + d + tail == a + (b + (c + (d + tail)))
  {
  }

  /** The header as the receiver sees it. */
  function SentHeader(alias: u64, group: u64, subgroup: u64, priority: byte): Header {
    Header(alias, group, if subgroup == 0 then 0 else 2, Some(subgroup), priority, true, false)
  }

  /** The receiver reads the header that the sender wrote. */
  lemma HeaderRoundTrip(alias: u64, group: u64, subgroup: u64, priority: byte, tail: bytes)
    ensures ParseHeader(EncodeHeader(alias, group, subgroup, priority) + tail) ==
            Done(SentHeader(alias, group, subgroup, priority), tail)
  {
    hide Varint.Encode, Varint.Take, ParseHeader;
    var kind: u64 := if subgroup == 0 then 0x11 else 0x15;
    var k, a, g := Varint.Encode(kind), Varint.Encode(alias), Varint.Encode(group);
    var sg := if subgroup == 0 then [] else Varint.Encode(subgroup);
    var t3 := [priority] + tail;
    Nested(k, a, g, sg, t3);
    Associative(k + a + g + sg, [priority], tail);
    HeaderFromParts(kind, alias, group, subgroup, priority, tail, sg + t3);
  }

  lemma HeaderFromParts(kind: u64, alias: u64, group: u64, subgroup: u64, priority: byte, tail: bytes, t2: bytes)
    requires kind == if subgroup == 0 then 0x11 else 0x15
    requires t2 == (if subgroup == 0 then [] else Varint.Encode(subgroup)) + ([priority] + tail)
    ensures ParseHeader(Varint.Encode(kind) + (Varint.Encode(alias) + (Varint.Encode(group) + t2))) ==
            Done(SentHeader(alias, group, subgroup, priority), tail)
  {
    hide Varint.Encode, Varint.Take, TakeSubgroup, TakePriority, IsSubgroupType;
    hide ModeBits, PropertiesBit, EndOfGroupBit, DefaultPriorityBit;
    SentTypes();
    Varint.TakeEncoded(group, t2);
    Varint.TakeEncoded(alias, Varint.Encode(group) + t2);
    Varint.TakeEncoded(kind, Varint.Encode(alias) + (Varint.Encode(group) + t2));
    OptionalFields(subgroup, priority, tail);
  }

  /** The two stream types the sender uses. */
  lemma SentTypes()
    ensures forall t: u64 :: t == 0x11 || t == 0x15 ==>
              && IsSubgroupType(t) && PropertiesBit(t) && !EndOfGroupBit(t) && !DefaultPriorityBit(t)
              && ModeBits(t) == if t == 0x11 then 0 else 2
  {
  }

  lemma OptionalFields(subgroup: u64, priority: byte, tail: bytes)
    ensures var t := [priority] + tail;
            && TakeSubgroup((if subgroup == 0 then [] else Varint.Encode(subgroup)) + t, if subgroup == 0 then 0 else 2)
               == Done(Some(subgroup), t)
            && TakePriority(t, false) == Done(priority, tail)
  {
    hide Varint.Encode, Varint.Take;
    var t := [priority] + tail;
    assert [] + t == t && t[1..] == tail;
    Varint.TakeEncoded(subgroup, t);
  }

  /** The part of an object behind its properties. */
  function EncodeContent(status: Option<u64>, payload: buffer): bytes {
    if status.Some? || payload == [] then
      Varint.Encode(0) + Varint.Encode(if status.Some? then status.value else STATUS_NORMAL)
    else Varint.Encode(|payload|) + payload
  }

  function SentStatus(status: Option<u64>, payload: bytes): Option<u64> {
    if status.None? && payload == [] then Some(STATUS_NORMAL) else status
  }

  function SentPayload(status: Option<u64>, payload: bytes): bytes {
    if status.Some? then [] else payload
  }

  lemma ContentRoundTrip(status: Option<u64>, payload: buffer, hasProperties: bool, tail: bytes)
    requires status.Some? ==> ValidStatus(status.value) && (status.value == STATUS_NORMAL || !hasProperties)
    ensures TakeContent(EncodeContent(status, payload) + tail, hasProperties) ==
            Done((SentStatus(status, payload), SentPayload(status, payload)), tail)
  {
    hide Varint.Encode, Varint.Take, TakeView;
    if status.Some? || payload == [] {
      var code := if status.Some? then status.value else STATUS_NORMAL;
      Associative(Varint.Encode(0), Varint.Encode(code), tail);
      Varint.TakeEncoded(0, Varint.Encode(code) + tail);
      Varint.TakeEncoded(code, tail);
    } else {
      Associative(Varint.Encode(|payload|), payload, tail);
      Varint.TakeEncoded(|payload|, payload + tail);
      TakeViewFront(payload, tail);
    }
  }

  /** The receiver reads the object that the sender wrote, or rejects it for the size of its properties. */
  lemma ObjectRoundTrip(delta: u64, properties: buffer, status: Option<u64>, payload: buffer, tail: bytes)
    requires status.Some? ==> ValidStatus(status.value) && (status.value == STATUS_NORMAL || properties == [])
    ensures ParseObject(true, EncodeObject(delta, properties, status, payload) + tail) ==
            if |properties| > MAX_PROPERTIES then Bad
            else Done(RawObject(delta, properties, SentStatus(status, payload), SentPayload(status, payload)), tail)
  {
    hide Varint.Encode, Varint.Take, TakeView, TakeContent;
    var content := EncodeContent(status, payload);
    var t := properties + (content + tail);
    Nested(Varint.Encode(delta), Varint.Encode(|properties|), properties, content, tail);
    assert EncodeObject(delta, properties, status, payload) + tail ==
           Varint.Encode(delta) + (Varint.Encode(|properties|) + t);
    Varint.TakeEncoded(delta, Varint.Encode(|properties|) + t);
    Varint.TakeEncoded(|properties|, t);
    TakeViewFront(properties, content + tail);
    ContentRoundTrip(status, payload, properties != [], tail);
  }

  /** The position of a receiver of such a stream. */
  function At(subgroup: u64, last: Option<u64>): Position {
    Position(Some(subgroup), last)
  }

  predicate SentBinding(b: Binding, subgroup: u64) {
    b.header.properties && b.header.mode != 1 && !b.header.endOfGroup && b.header.subgroup == Some(subgroup)
  }

  /** Draining what one object wrote delivers it, and its marker, and goes on behind them. */
  lemma DrainOne(b: Binding, subgroup: u64, last: Option<u64>, o: Published, tail: bytes)
    requires SentBinding(b, subgroup) && ValidPublish(o) && (last.Some? ==> last.value < o.id)
    ensures var d := Drain(b, At(subgroup, last), ObjectBytes(last, o) + tail);
            if !Deliverable(o) then d.bad
            else if Marked(o) then
              d == Prepend(Deliver(Canonical(b, subgroup, o)),
                           Prepend(Deliver(MarkerOf(b, subgroup, o)), Drain(b, At(subgroup, Some(o.id + 1)), tail)))
            else d == Prepend(Deliver(Canonical(b, subgroup, o)), Drain(b, At(subgroup, Some(o.id)), tail))
  {
    hide ParseObject, EncodeObject;
    var marker := if Marked(o) then EncodeObject(0, [], Some(STATUS_END_OF_GROUP), []) else [];
    var first := EncodeObject(Delta(last, o.id), SentProperties(o), o.status, o.payload);
    Associative(first, marker, tail);
    ObjectRoundTrip(Delta(last, o.id), SentProperties(o), o.status, o.payload, marker + tail);
    if |SentProperties(o)| <= MAX_PROPERTIES {
      assert NextId(last, Delta(last, o.id)) == Some(o.id);
      if Marked(o) {
        ObjectRoundTrip(0, [], Some(STATUS_END_OF_GROUP), [], tail);
        assert o.id == MAX64 ==> NextId(Some(o.id), 0) == None;
      } else {
        assert marker + tail == tail;
      }
    }
  }

  predicate AllDeliverable(objs: seq<Published>) {
    forall i :: 0 <= i < |objs| ==> Deliverable(objs[i])
  }

  /** Valid objects of which only the last may close the stream. */
  predicate OpenUntilLast(objs: seq<Published>) {
    && (forall i :: 0 <= i < |objs| ==> ValidPublish(objs[i]))
    && (forall i :: 0 <= i < |objs| - 1 ==> !Closing(objs[i]))
  }

  /** Draining the body of a stream: malformed exactly if some object cannot be delivered. */
  lemma {:induction false} DrainBody(b: Binding, subgroup: u64, last: Option<u64>, objs: seq<Published>)
    requires SentBinding(b, subgroup) && Rising(last, objs) && OpenUntilLast(objs)
    ensures var d := Drain(b, At(subgroup, last), Body(last, objs));
            && d.bad == !AllDeliverable(objs)
            && (AllDeliverable(objs) ==> d.rest == [] && d.calls == Expected(b, subgroup, objs))
    decreases |objs|
  {
    hide Canonical, ObjectBytes, Drain, Deliverable;
    if objs == [] {
      DrainNothing(b, At(subgroup, last));
    } else {
      var o, rest := objs[0], objs[1..];
      DrainOne(b, subgroup, last, o, Body(Some(o.id), rest));
      AllButFirst(objs);
      if Marked(o) {
        assert rest == [];
        DrainNothing(b, At(subgroup, if Deliverable(o) then Some(o.id + 1) else None));
      } else {
        DrainBody(b, subgroup, Some(o.id), rest);
      }
    }
  }

  lemma AllButFirst(objs: seq<Published>)
    requires objs != []
    ensures AllDeliverable(objs) <==> Deliverable(objs[0]) && AllDeliverable(objs[1..])
    ensures OpenUntilLast(objs) ==> OpenUntilLast(objs[1..]) && (Closing(objs[0]) ==> objs[1..] == [])
  {
    hide Deliverable, Closing, ValidPublish;
    assert forall i :: 0 <= i < |objs| - 1 ==> objs[1..][i] == objs[i + 1];
    assert forall i :: 0 < i < |objs| ==> objs[i] == objs[1..][i - 1];
  }

  lemma DrainNothing(b: Binding, pos: Position)
    ensures Drain(b, pos, []) == Drained(pos, [], [], false)
  {
    assert Varint.Take([]).More?;
  }

  /** What a subscriber's route makes of a whole stream. */
  function BindingOf(env: Env, alias: u64, group: u64, subgroup: u64, objs: seq<Published>): Binding
    requires alias in env.routes && objs != []
  {
    Binding(SentHeader(alias, group, subgroup, objs[0].priority), env.routes[alias], env.stream)
  }

  /**
   * End to end: the bytes written on one stream, however they are cut and whether or not the stream
   * has ended, reach a routed receiver as exactly the objects sent, in order and in canonical form,
   * with no protocol error and nothing left over.
   */
  lemma EndToEnd(env: Env, alias: u64, group: u64, subgroup: u64, objs: seq<Published>, arrivals: seq<Arrival>)
    requires objs != [] && Rising(None, objs) && OpenUntilLast(objs) && AllDeliverable(objs)
    requires alias in env.routes && WellFormed(arrivals)
    requires AllBytes(arrivals) == StreamBytes(alias, group, subgroup, objs)
    ensures var o := ReceiveAll(Opening([]), env, arrivals);
            && o.calls == Expected(BindingOf(env, alias, group, subgroup, objs), subgroup, objs)
            && if AnyFin(arrivals) then o.rx.Closed? else o.rx.Bound? && o.rx.stash == []
  {
    hide Receive, Drain, Expected;
    FragmentationIndependence(env, arrivals);
    ReceivedWhole(env, alias, group, subgroup, objs, AnyFin(arrivals));
    DrainBody(BindingOf(env, alias, group, subgroup, objs), subgroup, None, objs);
  }

  /** In one piece: the header binds the stream and the body is drained. */
  lemma ReceivedWhole(env: Env, alias: u64, group: u64, subgroup: u64, objs: seq<Published>, fin: bool)
    requires objs != [] && Rising(None, objs) && alias in env.routes
    ensures var b := BindingOf(env, alias, group, subgroup, objs);
            Receive(Opening([]), env, StreamBytes(alias, group, subgroup, objs), fin) ==
            Settle(b, Drain(b, At(subgroup, None), Body(None, objs)), fin)
  {
    hide ParseHeader, Body, EncodeHeader, Drain;
    HeaderRoundTrip(alias, group, subgroup, objs[0].priority, Body(None, objs));
    assert [] + StreamBytes(alias, group, subgroup, objs) == StreamBytes(alias, group, subgroup, objs);
  }

  /** The condition of EndToEnd is exact: the receiver reports an error if and only if it is not met. */
  lemma EndToEndExact(env: Env, alias: u64, group: u64, subgroup: u64, objs: seq<Published>, arrivals: seq<Arrival>)
    requires objs != [] && Rising(None, objs) && OpenUntilLast(objs)
    requires alias in env.routes && WellFormed(arrivals)
    requires AllBytes(arrivals) == StreamBytes(alias, group, subgroup, objs)
    ensures Fail in ReceiveAll(Opening([]), env, arrivals).calls <==> !AllDeliverable(objs)
  {
    hide Receive, Drain, Expected;
    var b := BindingOf(env, alias, group, subgroup, objs);
    FragmentationIndependence(env, arrivals);
    ReceivedWhole(env, alias, group, subgroup, objs, AnyFin(arrivals));
    DrainBody(b, subgroup, None, objs);
    var d := Drain(b, At(subgroup, None), Body(None, objs));
    if AllDeliverable(objs) {
      ExpectedOnlyDelivers(b, subgroup, objs);
    } else {
      assert (d.calls + [Fail])[|d.calls|] == Fail;
    }
  }

  lemma {:induction false} ExpectedOnlyDelivers(b: Binding, subgroup: u64, objs: seq<Published>)
    requires AllDeliverable(objs)
    ensures Fail !in Expected(b, subgroup, objs)
  {
    if objs != [] {
      AllButFirst(objs);
      ExpectedOnlyDelivers(b, subgroup, objs[1..]);
    }
  }

  /** A concrete stream that breaks: the marker behind the largest Object ID has no ID left. */
  lemma MarkerBehindLastIdFails(track: TrackKey)
    ensures var o := Published(track, 0, 0, MAX64, 128, [], [7], None, SubgroupStream, false, true);
            ValidPublish(o) && Fail in Receive(Opening([]), Env(Buffer, map[1 := 2], true, 0, 0),
                                               StreamBytes(1, 0, 0, [o]), true).calls
  {
    hide Receive, StreamBytes;
    var o := Published(track, 0, 0, MAX64, 128, [], [7], None, SubgroupStream, false, true);
    var env, sent := Env(Buffer, map[1 := 2], true, 0, 0), StreamBytes(1, 0, 0, [o]);
    var arrivals := [Arrival(sent, true)];
    assert AllBytes(arrivals) == sent + AllBytes([]) == sent;
    assert !Deliverable([o][0]);
    EndToEndExact(env, 1, 0, 0, [o], arrivals);
    FragmentationIndependence(env, arrivals);
  }
}

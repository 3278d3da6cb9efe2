/**
 * What the receive plane makes of everything that a conforming peer may send, and of what it may not:
 * datagrams in all their forms, padding, unknown aliases under each policy, and the end-of-group bit.
 */
module PlaneForms {
  import opened Basics
  import opened SubgroupWire
  import opened Reception
  import opened DataPlanes
  import opened DataPlaneInvariants
  import opened DataPlaneTheorems
  import opened WireForms
  import Datagrams
  import Delivery
  import Handover
  import SubgroupSend
  import Varint

  // ----- datagrams -----

  datatype Content = Payload(bytes: bytes) | Status(code: u64)

  /** An object datagram; `shortId` is the bit that leaves out an Object ID of zero. */
  datatype Packet = Packet(alias: u64, group: u64, id: u64, shortId: bool, priority: Option<byte>,
                           properties: Option<buffer>, content: Content, endOfGroup: bool)

  /** It can be written: only zero is left out, and a status does not go with the end-of-group bit. */
  predicate Possible(q: Packet) {
    (q.shortId ==> q.id == 0) && !(q.content.Status? && q.endOfGroup)
  }

  function PacketType(q: Packet): u64 {
    Flag(q.properties.Some?, 0x01) + Flag(q.endOfGroup, 0x02) + Flag(q.shortId, 0x04) + Flag(q.priority.None?, 0x08)
    + Flag(q.content.Status?, 0x20)
  }

  function PacketBytes(q: Packet): bytes {
    Varint.Encode(PacketType(q)) + (Varint.Encode(q.alias) + (Varint.Encode(q.group) + (PacketId(q) + PacketBody(q))))
  }

  function PacketId(q: Packet): bytes {
    if q.shortId then [] else Varint.Encode(q.id)
  }

  function PacketBody(q: Packet): bytes {
    PriorityBytes(q.priority) + (PacketProperties(q) + PacketContent(q))
  }

  function PacketProperties(q: Packet): bytes {
    if q.properties.Some? then Varint.Encode(|q.properties.value|) + q.properties.value else []
  }

  function PacketContent(q: Packet): bytes {
    match q.content
    case Payload(b) => b
    case Status(code) => Varint.Encode(code)
  }

  /** The receiver accepts it: properties that are stated are neither empty nor too long, and a status is known. */
  predicate GoodPacket(q: Packet) {
    && (q.properties.Some? ==> 1 <= |q.properties.value| <= 65535)
    && (q.content.Status? ==> q.content.code == 0x0 || (q.content.code in {0x3, 0x4} && q.properties.None?))
  }

  /** The object it carries; without a priority that is 128. */
  function PacketObject(q: Packet, request: u64): Object {
    Object(request, q.alias, q.group, None, q.id, if q.priority.Some? then q.priority.value else 128,
           if q.content.Status? then Some(q.content.code) else None,
           if q.properties.Some? then q.properties.value else [],
           if q.content.Payload? then q.content.bytes else [], DeliveryKind.Datagram, 0)
  }

  function PacketFlags(q: Packet): Datagrams.Flags {
    Datagrams.Flags(q.properties.Some?, q.endOfGroup, q.shortId, q.priority.None?, q.content.Status?)
  }

  lemma PacketBits(q: Packet)
    requires Possible(q)
    ensures var t := PacketType(q);
            Datagrams.ValidType(t) && Datagrams.FlagsOf(t) == PacketFlags(q) && t != Datagrams.PADDING_TYPE
  {
    Datagrams.FlagsRoundTrip(PacketFlags(q));
    assert PacketType(q) == Datagrams.TypeOf(PacketFlags(q));
  }

  /** Every form of datagram is read as it is meant, or refused if and only if it is not a good one. */
  lemma PacketForms(q: Packet, request: u64)
    requires Possible(q)
    ensures var t := Varint.Take(PacketBytes(q)); t.Done? && t.value != Datagrams.PADDING_TYPE
    ensures Datagrams.ParseHead(PacketBytes(q)) ==
            Done(Datagrams.Head(PacketFlags(q), q.alias, q.group, q.id), PacketBody(q))
    ensures Datagrams.ParseBody(Datagrams.Head(PacketFlags(q), q.alias, q.group, q.id), PacketBody(q), request) ==
            if GoodPacket(q) then Done(PacketObject(q, request), []) else Bad
  {
    hide Varint.Encode, Varint.Take, PacketBody, Datagrams.ValidType, Datagrams.FlagsOf, PacketType,
         Datagrams.ParseBody;
    PacketBits(q);
    var t2 := PacketId(q) + PacketBody(q);
    Varint.TakeEncoded(PacketType(q), Varint.Encode(q.alias) + (Varint.Encode(q.group) + t2));
    Varint.TakeEncoded(q.alias, Varint.Encode(q.group) + t2);
    Varint.TakeEncoded(q.group, t2);
    if q.shortId {
      assert t2 == PacketBody(q);
    } else {
      Varint.TakeEncoded(q.id, PacketBody(q));
    }
    BodyForms(q, request);
  }

  lemma BodyForms(q: Packet, request: u64)
    requires Possible(q)
    ensures Datagrams.ParseBody(Datagrams.Head(PacketFlags(q), q.alias, q.group, q.id), PacketBody(q), request) ==
            if GoodPacket(q) then Done(PacketObject(q, request), []) else Bad
  {
    hide Varint.Encode, Varint.Take, TakeView;
    var content := PacketContent(q);
    var t := PacketProperties(q) + content;
    assert q.priority.None? ==> PacketBody(q) == t;
    assert q.priority.Some? ==> PacketBody(q)[1..] == t;
    if q.properties.Some? {
      Associative(Varint.Encode(|q.properties.value|), q.properties.value, content);
      Varint.TakeEncoded(|q.properties.value|, q.properties.value + content);
      TakeViewFront(q.properties.value, content);
    } else {
      assert t == content;
    }
    if q.content.Status? {
      assert content == Varint.Encode(q.content.code) + [];
      Varint.TakeEncoded(q.content.code, []);
    }
  }

  /** The route as the datagram finds it: its end-of-group bit has been recorded. */
  function MarkedBy(r: Delivery.Route, q: Packet): Delivery.Route {
    if q.endOfGroup then r.(groups := r.groups[q.group := q.id]) else r
  }

  /**
   * A datagram of any form behind an established route makes exactly one callback: its object is handed
   * over, or is an error of its track, or the datagram is a protocol error.
   */
  lemma PacketHandedOver(x: Context, p: Plane, q: Packet)
    requires Possible(q) && q.alias in p.routes && Handover.Routed(p, q.alias, p.routes[q.alias])
    ensures var request := p.routes[q.alias]; var o := PacketObject(q, request);
            DeliverDatagram(x, p, PacketBytes(q), true).log ==
            p.log + [if !GoodPacket(q) then ProtocolError
                     else if Delivery.Admits(MarkedBy(p.states[request], q), Delivery.At(o)) then HandedOver(o)
                     else TrackError(request)]
  {
    hide Emit, Datagrams.ParseHead, Datagrams.ParseBody, Varint.Take, Delivery.Admits, Table, PacketBytes, PacketBody,
         GoodPacket;
    var request := p.routes[q.alias];
    var o := PacketObject(q, request);
    PacketForms(q, request);
    Handover.RoutedActive(p, q.alias, request);
    Handover.EmitLog(x, p, ProtocolError);
    var p1 := if q.endOfGroup then Mark(p, request, q.group, q.id) else p;
    Handover.EmitLog(x, p1, TrackError(request));
    Handover.EmitLog(x, p1.(states := p1.states[request := Delivery.Delivered(p1.states[request], o)]), HandedOver(o));
  }

  /** A status must be the end of its datagram. */
  lemma StatusIsLast(x: Context, p: Plane, q: Packet, more: bytes)
    requires Possible(q) && q.content.Status? && more != []
    requires q.alias in p.routes && Handover.Routed(p, q.alias, p.routes[q.alias])
    ensures DeliverDatagram(x, p, PacketBytes(q) + more, true).log == p.log + [ProtocolError]
  {
    hide Emit, Datagrams.ParseHead, Datagrams.ParseBody, Varint.Take, Table, PacketBytes, PacketBody;
    HeadForms(q, PacketBody(q) + more);
    assert PacketBytes(q) + more == PacketHead(q) + (PacketBody(q) + more) by { HeadAndBody(q, more); }
    TrailingStatus(q, more, p.routes[q.alias]);
    Handover.EmitLog(x, p, ProtocolError);
  }

  function PacketHead(q: Packet): bytes {
    Varint.Encode(PacketType(q)) + (Varint.Encode(q.alias) + (Varint.Encode(q.group) + PacketId(q)))
  }

  lemma HeadAndBody(q: Packet, more: bytes)
    ensures PacketBytes(q) + more == PacketHead(q) + (PacketBody(q) + more)
  {
    hide Varint.Encode, PacketBody, PacketType;
  }

  lemma HeadForms(q: Packet, tail: bytes)
    requires Possible(q)
    ensures var t := Varint.Take(PacketHead(q) + tail); t.Done? && t.value == PacketType(q)
    ensures PacketType(q) != Datagrams.PADDING_TYPE
    ensures Datagrams.ParseHead(PacketHead(q) + tail) ==
            Done(Datagrams.Head(PacketFlags(q), q.alias, q.group, q.id), tail)
  {
    hide Varint.Encode, Varint.Take, Datagrams.ValidType, Datagrams.FlagsOf, PacketType;
    PacketBits(q);
    var k, a, g, i := Varint.Encode(PacketType(q)), Varint.Encode(q.alias), Varint.Encode(q.group), PacketId(q);
    assert PacketHead(q) + tail == k + (a + (g + (i + tail)));
    Varint.TakeEncoded(PacketType(q), a + (g + (i + tail)));
    Varint.TakeEncoded(q.alias, g + (i + tail));
    Varint.TakeEncoded(q.group, i + tail);
    if q.shortId {
      assert i + tail == tail;
    } else {
      Varint.TakeEncoded(q.id, tail);
    }
  }

  lemma TrailingStatus(q: Packet, more: bytes, request: u64)
    requires Possible(q) && q.content.Status? && more != []
    ensures Datagrams.ParseBody(Datagrams.Head(PacketFlags(q), q.alias, q.group, q.id), PacketBody(q) + more,
                                request).Bad?
  {
    hide Varint.Encode, Varint.Take, TakeView;
    var content := PacketContent(q) + more;
    var t := PacketProperties(q) + content;
    assert PacketBody(q) + more == PriorityBytes(q.priority) + t;
    assert q.priority.None? ==> PriorityBytes(q.priority) + t == t;
    assert q.priority.Some? ==> (PriorityBytes(q.priority) + t)[1..] == t;
    if q.properties.Some? {
      Associative(Varint.Encode(|q.properties.value|), q.properties.value, content);
      Varint.TakeEncoded(|q.properties.value|, q.properties.value + content);
      TakeViewFront(q.properties.value, content);
    } else {
      assert t == content;
    }
    Varint.TakeEncoded(q.content.code, more);
  }

  lemma HeadStable(s: bytes, t: bytes)
    requires !Datagrams.ParseHead(s).More?
    ensures Datagrams.ParseHead(s + t) == Datagrams.ParseHead(s).Extended(t)
  {
    hide Varint.Take, Datagrams.ValidType, Datagrams.FlagsOf;
    Varint.TakeStable(s, t);
    var kind := Varint.Take(s);
    if Datagrams.ValidType(kind.value) {
      Varint.TakeStable(kind.rest, t);
      var alias := Varint.Take(kind.rest);
      Varint.TakeStable(alias.rest, t);
      var group := Varint.Take(alias.rest);
      if !Datagrams.FlagsOf(kind.value).zeroId {
        Varint.TakeStable(group.rest, t);
      }
    }
  }

  /** A datagram that ends inside its head is a protocol error, whether or not its alias has a route. */
  lemma TruncatedPacket(x: Context, p: Plane, q: Packet, n: nat, allow: bool)
    requires Possible(q) && n < |PacketHead(q)|
    ensures DeliverDatagram(x, p, PacketHead(q)[..n], allow).log == p.log + [ProtocolError]
  {
    hide Emit, Datagrams.ParseHead, Datagrams.ParseBody, Varint.Take, PacketHead, DeliverBody, Hold, PacketType;
    var s := PacketHead(q);
    HeadForms(q, []);
    assert s + [] == s && s[..n] + s[n..] == s;
    if !Datagrams.ParseHead(s[..n]).More? {
      HeadStable(s[..n], s[n..]);
    }
    if Varint.Take(s[..n]).Done? {
      Varint.TakeStable(s[..n], s[n..]);
    }
    Handover.EmitLog(x, p, ProtocolError);
  }

  /** A padding datagram does nothing if it is all zero, and is a protocol error if it is not. */
  lemma PaddingExact(x: Context, p: Plane, padding: bytes, allow: bool)
    ensures var q := DeliverDatagram(x, p, Varint.Encode(0x132b3e29) + padding, allow);
            && (q.log == p.log + [ProtocolError] <==> exists i :: 0 <= i < |padding| && padding[i] != 0)
            && ((forall i :: 0 <= i < |padding| ==> padding[i] == 0) ==> q == p)
  {
    hide Varint.Encode, Varint.Take, Emit, Datagrams.ParseHead, DeliverBody, Hold;
    Varint.TakeEncoded(0x132b3e29, padding);
    Handover.EmitLog(x, p, ProtocolError);
    assert p.log != p.log + [ProtocolError];
  }

  /** A datagram whose type is neither that of padding nor one of an object is a protocol error. */
  lemma OtherDatagramsRefused(x: Context, p: Plane, t: u64, tail: bytes, allow: bool)
    requires t != 0x132b3e29 && !exists q: Packet :: Possible(q) && PacketType(q) == t
    ensures DeliverDatagram(x, p, Varint.Encode(t) + tail, allow).log == p.log + [ProtocolError]
  {
    hide Varint.Encode, Varint.Take, Emit, DeliverBody, Hold, Datagrams.ParseBody, PacketType;
    Varint.TakeEncoded(t, tail);
    assert !Datagrams.ValidType(t) by { PacketTypesExact(t); }
    Handover.EmitLog(x, p, ProtocolError);
  }

  lemma PacketTypesExact(t: u64)
    ensures Datagrams.ValidType(t) ==> exists q: Packet :: Possible(q) && PacketType(q) == t
  {
    if Datagrams.ValidType(t) {
      var f := Datagrams.FlagsOf(t);
      var q := Packet(0, 0, 0, f.zeroId, if f.defaultPriority then None else Some(0),
                      if f.properties then Some([]) else None, if f.status then Status(0) else Payload([]),
                      f.endOfGroup);
      TypeFromBits(t);
      assert Possible(q) && PacketType(q) == t;
    }
  }

  lemma TypeFromBits(t: u64)
    requires Datagrams.ValidType(t)
    ensures t == (t % 2) + 2 * (t / 2 % 2) + 4 * (t / 4 % 2) + 8 * (t / 8 % 2) + 0x20 * (t / 0x20 % 2)
  {
  }

  // ----- unknown aliases -----

  /**
   * An object datagram for an alias without a route, by policy: it is dropped, or is a protocol error, or
   * is held behind what is held already, if both limits allow.
   */
  lemma UnknownDatagram(x: Context, p: Plane, q: Packet)
    requires Possible(q) && q.alias !in p.routes
    ensures var d := PacketBytes(q); var r := DeliverDatagram(x, p, d, true);
            match x.config.policy
            case Drop => r == p
            case Error => r.log == p.log + [ProtocolError] && r.datagrams == p.datagrams
            case Buffer =>
              if p.heldBytes + |d| <= x.config.maxDatagramBytes && |Held(p, q.alias)| < x.config.maxDatagramsPerAlias
              then r == p.(datagrams := p.datagrams[q.alias := Held(p, q.alias) + [d]], heldBytes := p.heldBytes + |d|)
              else r.log == p.log && Held(r, q.alias) == Held(p, q.alias) && r.heldBytes == p.heldBytes
  {
    hide Emit, Datagrams.ParseHead, Datagrams.ParseBody, Varint.Take, PacketBytes, PacketBody, DeliverBody, Hold;
    PacketForms(q, 0);
    assert DeliverDatagram(x, p, PacketBytes(q), true) == Hold(x, p, q.alias, PacketBytes(q));
    HeldByPolicy(x, p, q.alias, PacketBytes(q));
  }

  lemma HeldByPolicy(x: Context, p: Plane, alias: u64, d: bytes)
    ensures var r := Hold(x, p, alias, d);
            match x.config.policy
            case Drop => r == p
            case Error => r.log == p.log + [ProtocolError] && r.datagrams == p.datagrams
            case Buffer =>
              if p.heldBytes + |d| <= x.config.maxDatagramBytes && |Held(p, alias)| < x.config.maxDatagramsPerAlias
              then r == p.(datagrams := p.datagrams[alias := Held(p, alias) + [d]], heldBytes := p.heldBytes + |d|)
              else r.log == p.log && Held(r, alias) == Held(p, alias) && r.heldBytes == p.heldBytes
  {
    hide Emit, Table;
    Handover.EmitLog(x, p, ProtocolError);
    EmitCalm(x, p, ProtocolError);
  }

  /**
   * A stream for an alias without a route, by policy: it is abandoned, or is a protocol error, or is
   * parked with what has come, unless there is no room for another stream or for its bytes.
   */
  lemma UnknownStream(x: Context, p: Plane, s: u64, f: Form, rest: bytes, fin: bool)
    requires s in p.receivers && p.receivers[s] == Opening([]) && f.alias !in p.routes
    ensures var r := StreamReceive(x, p, s, HeaderBytes(f) + rest, fin);
            && s in r.receivers
            && match x.config.policy
               case Drop => r.receivers[s].Closed? && r.log == p.log + [AbortReceive(s)] && r.pending == p.pending
               case Error => r.receivers[s].Closed? && r.log == p.log + [ProtocolError] && r.pending == p.pending
               case Buffer =>
                 if p.pendingCount < x.config.maxPending && |rest| <= x.config.maxStreamBytes then
                   && r.receivers[s] == Waiting(Meaning(f), rest, fin) && r.log == p.log
                   && Streams(r, f.alias) == Streams(p, f.alias) + [s] && r.pendingCount == p.pendingCount + 1
                 else r.receivers[s].Closed? && r.log == p.log + [AbortReceive(s)]
  {
    hide Emit, ParseHeader, HeaderBytes, Feed, Table, Discard, DataPlanes.Park, ApplyAll;
    HeaderForms(f, rest);
    assert [] + (HeaderBytes(f) + rest) == HeaderBytes(f) + rest;
    var o := Receive(Opening([]), EnvOf(x, p, s), HeaderBytes(f) + rest, fin);
    var p1 := With(p, s, o.rx);
    Handover.NewReceiver(x, p, s, o);
    match x.config.policy {
      case Drop => ApplyOne(x, p1, s, Abort);
      case Error =>
        ApplyOne(x, p1, s, Fail);
        Handover.EmitLog(x, p1, ProtocolError);
        EmitCalm(x, p1, ProtocolError);
      case Buffer => ParkedOrNot(x, p, s, f, rest, fin, o);
    }
  }

  lemma ParkedOrNot(x: Context, p: Plane, s: u64, f: Form, rest: bytes, fin: bool, o: Outcome)
    requires x.config.policy.Buffer? && s in p.receivers && f.alias !in p.routes
    requires o == if p.pendingCount >= x.config.maxPending then Outcome(Closed, [Abort])
                  else if |rest| > x.config.maxStreamBytes then
                    Outcome(Closed, [Call.Park(f.alias), Unpark(f.alias), Abort])
                  else Outcome(Waiting(Meaning(f), rest, fin), [Call.Park(f.alias)])
    ensures var r := Becomes(x, p, s, o);
            if p.pendingCount < x.config.maxPending && |rest| <= x.config.maxStreamBytes then
              && r.log == p.log && Streams(r, f.alias) == Streams(p, f.alias) + [s]
              && r.pendingCount == p.pendingCount + 1
            else r.log == p.log + [AbortReceive(s)]
  {
    hide ApplyAll;
    var p1 := With(p, s, o.rx);
    if p.pendingCount >= x.config.maxPending {
      ApplyOne(x, p1, s, Abort);
    } else if |rest| > x.config.maxStreamBytes {
      ApplyThree(x, p1, s, Call.Park(f.alias), Unpark(f.alias), Abort);
    } else {
      ApplyOne(x, p1, s, Call.Park(f.alias));
    }
  }

  // ----- the beginning and the end of a receiver -----

  /** The bytes that the gate has kept count as the first bytes of the stream. */
  lemma PrefixCounts(x: Context, p: Plane, s: u64, prefix: bytes, fin: bool)
    requires s !in p.receivers
    ensures StartStream(x, p, s, prefix, fin) == StreamReceive(x, With(p, s, Opening([])), s, prefix, fin)
  {
    hide Receive, ApplyAll;
    assert prefix + [] == prefix && [] + prefix == prefix;
    var env := EnvOf(x, p, s);
    assert Receive(Opening(prefix), env, [], fin) == Receive(Opening([]), env, prefix, fin) by {
      SameBytes(env, prefix, fin);
    }
    var o := Receive(Opening([]), env, prefix, fin);
    assert With(With(p, s, Opening(prefix)), s, o.rx) == With(With(p, s, Opening([])), s, o.rx);
  }

  lemma SameBytes(env: Env, prefix: bytes, fin: bool)
    ensures Receive(Opening(prefix), env, [], fin) == Receive(Opening([]), env, prefix, fin)
  {
    hide Open;
    assert prefix + [] == prefix && [] + prefix == prefix;
  }

  /** A stream that the peer has reset is over: it is parked nowhere, and whatever still comes does nothing. */
  lemma AbortedIsOver(x: Context, p: Plane, s: u64, received: bytes, fin: bool)
    requires Good(x, p) && s in p.receivers
    ensures var q := StreamAborted(p, s);
            && StreamReceive(x, q, s, received, fin) == q && q.log == p.log
            && forall a :: s !in Streams(q, a)
  {
    hide Good, Discard;
    var q := StreamAborted(p, s);
    AbortedGood(x, p, s);
    assert q.receivers[s] == Closed;
    assert With(q, s, Closed) == q;
    NoCalls(x, q, s);
    forall a
      ensures s !in Streams(q, a)
    {
      ClosedIsNotParked(x, q, s, a);
    }
    DiscardedLog(p, s);
  }

  lemma DiscardedLog(p: Plane, s: u64)
    ensures StreamAborted(p, s).log == p.log
  {
  }

  lemma ClosedIsNotParked(x: Context, p: Plane, s: u64, a: u64)
    requires Good(x, p) && s in p.receivers && p.receivers[s].Closed?
    ensures s !in Streams(p, a)
  {
    hide Sum, Counts, Sizes, Table, ListsDistinct;
    if a in p.pending {
      NotParked(p.pending, p.receivers, [], s, a);
    }
  }

  // ----- the end-of-group bit -----

  /**
   * A stream with the end-of-group bit, cut in any way, records its last Object ID as the end of its
   * group when it ends, whatever its objects have recorded and whoever has stopped the request meanwhile.
   */
  lemma GroupEndRecorded(x: Context, p: Plane, s: u64, f: Form, raws: seq<RawObject>, arrivals: seq<Arrival>)
    requires s in p.receivers && p.receivers[s] == Opening([]) && f.alias in p.routes
    requires p.routes[f.alias] in p.states && f.endOfGroup
    requires raws != [] && Readable(f.properties, None, raws)
    requires arrivals != [] && Reception.WellFormed(arrivals) && AnyFin(arrivals)
    requires AllBytes(arrivals) == StreamForm(f, raws)
    ensures var request := p.routes[f.alias]; var last := LastId(f.properties, None, raws);
            var r := Handover.ReceiveEach(x, p, s, arrivals);
            && last.Some? && request in r.states
            && f.group in r.states[request].groups && r.states[request].groups[f.group] == last.value
  {
    hide Receive, ReceiveAll, ApplyAll, StreamForm, Handover.ReceiveEach, Reception.WellFormed, Readable, Objects,
         LastId, Table, AllBytes, AnyFin;
    var env, request := EnvOf(x, p, s), p.routes[f.alias];
    var last := LastId(f.properties, None, raws);
    HasLast(f.properties, None, raws);
    Handover.PlaneFragmentation(x, p, s, arrivals);
    FragmentationIndependence(env, arrivals);
    EveryForm(f, raws, env, arrivals);
    var o := Receive(Opening([]), env, AllBytes(arrivals), AnyFin(arrivals));
    var objects := Objects(BoundBy(f, env), SubgroupOf(f, raws), None, raws);
    var final := GroupFinal(request, f.group, last.value);
    var p1 := With(p, s, o.rx);
    Handover.ApplyAllJoin(x, p1, s, objects, [final]);
    ObjectsPlain(BoundBy(f, env), SubgroupOf(f, raws), None, raws);
    ApplyAllCalm(x, p1, s, objects);
    ApplyOne(x, ApplyAll(x, p1, s, objects), s, final);
  }

  lemma {:induction false} HasLast(properties: bool, last: Option<u64>, raws: seq<RawObject>)
    requires Readable(properties, last, raws) && (raws != [] || last.Some?)
    ensures LastId(properties, last, raws).Some?
    decreases |raws|
  {
    hide Writable, Acceptable;
    if raws != [] {
      HasLast(properties, Some(IdOf(last, raws[0])), raws[1..]);
    }
  }

  lemma {:induction false} ObjectsPlain(b: Binding, subgroup: u64, last: Option<u64>, raws: seq<RawObject>)
    requires Readable(b.header.properties, last, raws)
    ensures Plain(Objects(b, subgroup, last, raws))
    decreases |raws|
  {
    hide Writable, Acceptable;
    if raws != [] {
      ObjectsPlain(b, subgroup, Some(IdOf(last, raws[0])), raws[1..]);
    }
  }

  // ----- what the publisher writes of all this -----

  /** The status of an object as it is written: an empty one says that it is normal. */
  function WrittenStatus(o: Published): Option<u64> {
    if o.status.Some? then o.status else if |o.payload| == 0 then Some(0x0) else None
  }

  /** Properties do not go with a status that ends something. */
  function WrittenProperties(o: Published): buffer {
    if o.status == None || o.status == Some(0x0) then o.properties else []
  }

  /** A published object as a datagram. */
  function PacketOf(alias: u64, o: Published): Packet {
    var status, properties := WrittenStatus(o), WrittenProperties(o);
    Packet(alias, o.group, o.id, o.id == 0, Some(o.priority), if |properties| > 0 then Some(properties) else None,
           if status.Some? then Status(status.value) else Payload(o.payload), status.None? && o.endOfGroup)
  }

  /** The datagram of a published object: its group, ID and content, with the bits that belong to them. */
  lemma DatagramWritten(alias: u64, o: Published)
    ensures Possible(PacketOf(alias, o)) && Datagrams.Sent(alias, o) == PacketBytes(PacketOf(alias, o))
  {
    hide Varint.Encode;
    var q := PacketOf(alias, o);
    assert SubgroupSend.SentProperties(o) == WrittenProperties(o);
    assert Datagrams.DatagramStatus(o) == WrittenStatus(o);
    assert PacketType(q) == Datagrams.TypeOf(PacketFlags(q));
  }

  /** A published object as an object of a stream, behind the last Object ID there. */
  function RawOf(last: Option<u64>, o: Published): RawObject
    requires last.Some? ==> last.value < o.id
  {
    RawObject(if last.None? then o.id else o.id - last.value - 1, WrittenProperties(o), WrittenStatus(o),
              if WrittenStatus(o).Some? then [] else o.payload)
  }

  /** The end of a group is written as an object of its own behind the last one, if that is a normal one. */
  function MarkerBytes(o: Published): bytes {
    if o.endOfGroup && (o.status == None || o.status == Some(0x0)) then
      RawBytes(true, RawObject(0, [], Some(0x3), []))
    else []
  }

  lemma ObjectWritten(last: Option<u64>, o: Published)
    requires last.Some? ==> last.value < o.id
    ensures Writable(true, RawOf(last, o))
    ensures SubgroupSend.ObjectBytes(last, o) == RawBytes(true, RawOf(last, o)) + MarkerBytes(o)
  {
    hide Varint.Encode;
    var raw := RawOf(last, o);
    assert SubgroupSend.SentProperties(o) == raw.properties;
    RawWritten(raw.delta, raw.properties, o.status, o.payload, raw);
    RawWritten(0, [], Some(0x3), [], RawObject(0, [], Some(0x3), []));
  }

  lemma RawWritten(delta: u64, properties: buffer, status: Option<u64>, payload: buffer, raw: RawObject)
    requires raw.delta == delta && raw.properties == properties
    requires raw.status == (if status.Some? then status else if |payload| == 0 then Some(0x0) else None)
    requires raw.payload == if raw.status.Some? then [] else payload
    ensures Writable(true, raw) && SubgroupSend.EncodeObject(delta, properties, status, payload) == RawBytes(true, raw)
  {
    hide Varint.Encode;
    var d, n, c := Varint.Encode(delta), Varint.Encode(|properties|), ContentBytes(raw.status, raw.payload);
    assert d + n + properties + c == d + (n + properties + c);
  }

  /** The header of a stream that is written: the Subgroup ID is left out if it is zero, the priority never. */
  lemma HeaderWritten(alias: u64, group: u64, subgroup: u64, priority: byte)
    ensures SubgroupSend.EncodeHeader(alias, group, subgroup, priority) ==
            HeaderBytes(Form(alias, group, if subgroup == 0 then Zero else Explicit(subgroup), Some(priority), true,
                             false, false))
  {
    hide Varint.Encode, TypeOf;
    var f := Form(alias, group, if subgroup == 0 then Zero else Explicit(subgroup), Some(priority), true, false, false);
    assert TypeOf(f) == if subgroup == 0 then 0x11 else 0x15 by { WrittenType(f); }
    var k := Varint.Encode(if subgroup == 0 then 0x11 else 0x15);
    var a, g, s := Varint.Encode(alias), Varint.Encode(group), if subgroup == 0 then [] else Varint.Encode(subgroup);
    Regrouped(k, a, g, s, [priority]);
  }

  lemma WrittenType(f: Form)
    requires f.priority.Some? && f.properties && !f.endOfGroup && !f.reserved && !f.subgroup.FirstObject?
    ensures TypeOf(f) == if f.subgroup.Zero? then 0x11 else 0x15
  {
  }

  lemma Regrouped(k: bytes, a: bytes, g: bytes, s: bytes, p: bytes)
    ensures k + a + g + s + p == k + (a + (g + (s + p)))
  {
  }
}

/**
 * What the handler is given of an early stream, and the inputs for which being early makes a
 * difference: a handler that stops its own request, and a stream that comes before a datagram.
 */
module EarlyHandover {
  import opened Basics
  import opened Reception
  import opened DataPlanes
  import opened DataPlaneInvariants
  import opened DataPlaneTheorems
  import opened Handover
  import opened Settling
  import opened EarlyDatagrams
  import opened EarlyArrivals
  import opened EarlyOrders
  import Delivery
  import Datagrams
  import RetiredRoutes
  import SubgroupSend
  import SubgroupWire
  import Varint

  /** During an installation everything is handed over if and only if nothing is behind an end recorded before. */
  lemma {:induction false} EveryIfAdmitted(r: Delivery.Route, calls: seq<Call>, request: u64)
    requires r.active && Orderly(calls, request)
    ensures EveryVerdict(r, calls) == Callbacks(calls) <==> AllAdmitted(r, calls)
    decreases |calls|
  {
    hide Delivery.Admits;
    if calls != [] {
      var o, rest := calls[0].obj, calls[1..];
      FirstAdmitted(r, calls);
      if !Delivery.Admits(r, Delivery.At(o)) {
        assert EveryVerdict(r, calls)[0] != Callbacks(calls)[0];
      } else if rest == [] {
        assert Callbacks(rest) == [] && EveryVerdict(Delivery.Delivered(r, o), rest) == [];
      } else {
        OrderlyTail(calls, request);
        EveryIfAdmitted(r, rest, request);
        SameTail(HandedOver(o), EveryVerdict(Delivery.Delivered(r, o), rest), Callbacks(rest));
      }
    }
  }

  /** The binding of a stream that a publisher has sent. */
  function BoundTo(request: u64, s: u64, alias: u64, group: u64, subgroup: u64, priority: byte): Binding {
    Binding(SubgroupSend.SentHeader(alias, group, subgroup, priority), request, s)
  }

  lemma EstablishedCalls(x: Context, p: Plane, e: Early, alias: u64, group: u64, subgroup: u64, objs: seq<Published>)
    requires alias in p.routes && ParksFor(x, e, alias)
    requires objs != [] && SubgroupSend.Rising(None, objs) && SubgroupSend.OpenUntilLast(objs)
    requires SubgroupSend.AllDeliverable(objs)
    requires BytesOf(e) == SubgroupSend.StreamBytes(alias, group, subgroup, objs)
    ensures SubgroupWire.ParseHeader(BytesOf(e)).Done?
    ensures var b := BoundTo(p.routes[alias], e.stream, alias, group, subgroup, objs[0].priority);
            && OutcomeOf(x, p, e).calls == SubgroupSend.Expected(b, subgroup, objs)
            && OutcomeOf(x, p, e) == Establish(ParkedAs(e), e.stream, p.routes[alias])
  {
    hide Receive, ReceiveAll, SubgroupSend.StreamBytes, SubgroupSend.Expected, Reception.WellFormed, Establish,
         SubgroupWire.ParseHeader, AllBytes, AnyFin;
    var env := EnvOf(x, p, e.stream);
    FragmentationIndependence(env, e.arrivals);
    SubgroupSend.EndToEnd(env, alias, group, subgroup, objs, e.arrivals);
    ParksOrBinds(x, p, e, alias);
  }

  /**
   * The objects of an early stream reach the handler when its route is installed: all of them, in
   * order, and nothing else, if and only if none is behind an end that the route had recorded by then.
   * Unlike with an established request, it does not matter who stops the request meanwhile.
   */
  lemma EarlyStreamHandedOver(x: Context, p: Plane, e: Early, alias: u64, request: u64, group: u64, subgroup: u64,
                              objs: seq<Published>)
    requires Good(x, p) && alias !in p.routes && request !in p.states && e.stream !in p.receivers
    requires ParksFor(x, e, alias) && PlacesFor(x, p, 1)
    requires objs != [] && SubgroupSend.Rising(None, objs) && SubgroupSend.OpenUntilLast(objs)
    requires SubgroupSend.AllDeliverable(objs)
    requires BytesOf(e) == SubgroupSend.StreamBytes(alias, group, subgroup, objs)
    ensures var b := BoundTo(request, e.stream, alias, group, subgroup, objs[0].priority);
            var r := Replay(x, p, alias, request);
            && request in r.states
            && (Install(x, Begin(x, p, e), alias, request).log == r.log + HandedFor(b, subgroup, objs) <==>
                StreamAdmitted(r.states[request], b, subgroup, objs))
  {
    hide Good, Install, Begin, ParksFor, Replay, Settled, ParkedAs, Establish, ApplyAll, Table, SubgroupSend.Expected,
         SubgroupSend.StreamBytes, Orderly, AllAdmitted, EveryVerdict, BytesOf;
    var b := BoundTo(request, e.stream, alias, group, subgroup, objs[0].priority);
    var r := Replay(x, p, alias, request);
    InstallOne(x, p, e, alias, request);
    InstalledFields(x, p, alias, request);
    EstablishedCalls(x, r, e, alias, group, subgroup, objs);
    var o := Establish(ParkedAs(e), e.stream, request);
    ExpectedOrderly(b, subgroup, objs);
    assert ForRequest(o.calls, request) by { OrderlyRequest(o.calls, request); }
    var r1 := With(r, e.stream, o.rx);
    SameTable(r, r1);
    InstallingActive(r, alias, request);
    AllReplayed(x, r1, e.stream, o.calls, alias, request);
    EveryIfAdmitted(r.states[request], o.calls, request);
    SamePrefix(r.log, EveryVerdict(r.states[request], o.calls), Callbacks(o.calls));
    SettledKeeps(Becomes(x, r, e.stream, o), alias, request);
  }

  // ----- the inputs -----

  const LIMITS := Config(AliasPolicy.Buffer, 1000, 10, 10, 1000)

  /** A handler that does nothing, and one that stops its subscription on the first object. */
  const CALM := Context(LIMITS, n => [])
  const GIVES_UP := Context(LIMITS, n => if n == 0 then [5] else [])

  const SMALL := Published(TrackKey([], []), 0, 0, 0, 128, [], [7], None, DeliveryKind.Datagram, false, false)
  const LONE := SMALL.(kind := DeliveryKind.SubgroupStream)
  const NEXT := LONE.(id := 1)

  lemma SmallDatagram()
    ensures var d := Datagrams.Sent(1, SMALL);
            IsFor(d, 1) && |d| <= 29 && SubgroupSend.ValidPublish(SMALL) && |SubgroupSend.SentProperties(SMALL)| == 0
  {
    hide Varint.Encode, Varint.Take, Datagrams.TypeOf, Datagrams.ParseHead, Datagrams.ParseBody;
    Datagrams.DatagramRoundTrip(0, 1, SMALL);
    NotPadding(1, SMALL);
  }

  /** The plane before anything has happened. */
  lemma EmptyIsGood(x: Context)
    ensures Good(x, EMPTY) && Streams(EMPTY, 1) == [] && Held(EMPTY, 1) == [] && 1 !in EMPTY.routes
    ensures 5 !in EMPTY.states && EMPTY.receivers == map[] && EMPTY.pendingCount == 0 && EMPTY.heldBytes == 0
  {
    hide Good;
    Accounting(x, []);
    assert DataPlanes.Run(x, EMPTY, []) == EMPTY;
  }

  /** The plane while alias 1 is given its route, and after that. */
  lemma OneRoute(x: Context)
    ensures var r := Replay(x, EMPTY, 1, 5); var direct := Install(x, EMPTY, 1, 5);
            && r.log == [] && 5 in r.states && r.states[5] == Delivery.Fresh(5)
            && Installing(r, 1, 5) && Table(r) && r.heldBytes == 0
            && Routed(direct, 1, 5) && direct.states[5] == Delivery.Fresh(5) && direct.log == []
            && direct.receivers == map[] && direct.datagrams == map[] && direct.heldBytes == 0
  {
    hide Table, Good;
    EmptyIsGood(x);
    assert Table(EMPTY) && EMPTY.busy.None? by { GoodTable(x, EMPTY); }
    var r := Replay(x, EMPTY, 1, 5);
    assert r == Claimed(EMPTY, 1, 5);
    ReplayInstalling(x, EMPTY, 1, 5);
    SettledTable(r, 1, 5);
    assert EMPTY.datagrams - {1} == map[];
  }

  // ----- two datagrams -----

  lemma BodyOfSmall(x: Context, p: Plane, allow: bool)
    requires 1 in p.routes && p.routes[1] == 5
    ensures DeliverDatagram(x, p, Datagrams.Sent(1, SMALL), allow) ==
            DataPlanes.Deliver(x, p, Datagrams.Canonical(5, 1, SMALL))
  {
    hide DataPlanes.Deliver, Emit, Datagrams.Sent, Datagrams.ParseHead, Datagrams.ParseBody, Varint.Take, IsFor,
         DeliverDatagram;
    SmallDatagram();
    Datagrams.DatagramRoundTrip(5, 1, SMALL);
    Behind(x, p, Datagrams.Sent(1, SMALL), 1);
  }

  /** While the route is being installed a datagram is handed over. */
  lemma SmallReplayed(x: Context, p: Plane)
    requires Installing(p, 1, 5) && Table(p) && 5 in p.states && p.states[5] == Delivery.Fresh(5)
    ensures var q := DeliverDatagram(x, p, Datagrams.Sent(1, SMALL), false);
            && Installing(q, 1, 5) && Table(q) && 5 in q.states && q.states[5] == Delivery.Fresh(5)
            && q.log == p.log + [HandedOver(Datagrams.Canonical(5, 1, SMALL))] && q.heldBytes == p.heldBytes
  {
    hide DeliverDatagram, Datagrams.Sent, Table, Emit;
    BodyOfSmall(x, p, false);
    DatagramEffect(x, p, Datagrams.Sent(1, SMALL), false);
    OneReplayed(x, p, 0, Datagrams.Canonical(5, 1, SMALL), 1, 5);
  }

  /** Behind an established route the handler that gives up is given the first datagram, and loses the route. */
  lemma SmallGivenUp(p: Plane)
    requires Routed(p, 1, 5) && p.states[5] == Delivery.Fresh(5) && p.log == []
    ensures var q := DeliverDatagram(GIVES_UP, p, Datagrams.Sent(1, SMALL), true);
            && q.log == [HandedOver(Datagrams.Canonical(5, 1, SMALL))] && 1 !in q.routes
            && q.heldBytes == p.heldBytes && q.datagrams == p.datagrams
  {
    hide DeliverDatagram, Datagrams.Sent, Table, Emit;
    var d, c := Datagrams.Sent(1, SMALL), Datagrams.Canonical(5, 1, SMALL);
    var q := DeliverDatagram(GIVES_UP, p, d, true);
    BodyOfSmall(GIVES_UP, p, true);
    OneDelivered(GIVES_UP, p, 0, Call.Deliver(c), 1, 5);
    DeliverCalm(GIVES_UP, p, c);
    assert 1 !in q.routes by { RetiredUnrouted(p, q, 1, 5); }
  }

  lemma RetiredUnrouted(p: Plane, q: Plane, alias: u64, request: u64)
    requires Calm(p, q) && Routed(p, alias, request) && RetiredRoutes.Retired(q, request)
    ensures alias !in q.routes
  {
  }

  /**
   * Two datagrams and a handler that stops its subscription on the first: early, it is given both;
   * with the route there first it is given one, and the other is held.
   */
  lemma GivingUpOnDatagrams()
    ensures var d := Datagrams.Sent(1, SMALL); var c := HandedOver(Datagrams.Canonical(5, 1, SMALL));
            && Install(GIVES_UP, OnDatagrams(GIVES_UP, EMPTY, [d, d]), 1, 5).log == [c, c]
            && var direct := OnDatagrams(GIVES_UP, Install(GIVES_UP, EMPTY, 1, 5), [d, d]);
               direct.log == [c] && Held(direct, 1) == [d]
  {
    hide Install, DeliverDatagram, Datagrams.Sent, IsFor, Good, Replay, Table, Settled, Size;
    var d, c := Datagrams.Sent(1, SMALL), HandedOver(Datagrams.Canonical(5, 1, SMALL));
    var direct := Install(GIVES_UP, EMPTY, 1, 5);
    SmallDatagram();
    OneRoute(GIVES_UP);
    TwoReplayed(d);
    SmallGivenUp(direct);
    var first := DeliverDatagram(GIVES_UP, direct, d, true);
    SizeOfOne(d);
    HeldNow(GIVES_UP, first, d, 1);
    OneDatagram(GIVES_UP, first, d);
    var ds: seq<bytes> := [d, d];
    assert ds[1..] == [d] && [] + [d] == [d];
  }

  lemma TwoReplayed(d: bytes)
    requires d == Datagrams.Sent(1, SMALL)
    ensures var c := HandedOver(Datagrams.Canonical(5, 1, SMALL));
            Install(GIVES_UP, OnDatagrams(GIVES_UP, EMPTY, [d, d]), 1, 5).log == [c, c]
  {
    hide Install, DeliverDatagram, Datagrams.Sent, IsFor, Good, Replay, Table, Settled, OnDatagrams, Size;
    var x, ds: seq<bytes> := GIVES_UP, [d, d];
    EmptyIsGood(x);
    SmallDatagram();
    OneRoute(x);
    SizeFirst(ds);
    SizeFirst(ds[1..]);
    assert ds[1..] == [d] && ds[1..][1..] == [] && Size([]) == 0 by { NothingHeld(); }
    var r := Replay(x, EMPTY, 1, 5);
    assert AllFor(ds, 1);
    EarlyReplay(x, EMPTY, ds, 1, 5);
    var r0 := Counting(r, |d|);
    assert Counting(r, 2 * |d|).(heldBytes := |d|) == r0;
    SameTable(r, r0);
    SmallReplayed(x, r0);
    var r1 := DeliverDatagram(x, r0, d, false);
    var r2 := Counting(r1, 0);
    SameTable(r1, r2);
    SmallReplayed(x, r2);
    var r3 := DeliverDatagram(x, r2, d, false);
    assert ReplayDatagrams(x, r3, []) == r3 && ReplayDatagrams(x, r1, [d]) == ReplayDatagrams(x, r3, ds[1..][1..]);
    assert ReplayDatagrams(x, Counting(r, 2 * |d|), ds) == ReplayDatagrams(x, r1, ds[1..]);
    SettledKeeps(r3, 1, 5);
  }

  // ----- two objects on a stream -----

  function TwoObjects(): Early {
    Early(9, [Arrival(SubgroupSend.StreamBytes(1, 0, 0, [LONE, NEXT]), true)])
  }

  lemma StreamParks(x: Context, objs: seq<Published>)
    requires x.config == LIMITS && (objs == [LONE] || objs == [LONE, NEXT])
    ensures SubgroupSend.Rising(None, objs)
    ensures var e := Early(9, [Arrival(SubgroupSend.StreamBytes(1, 0, 0, objs), true)]);
            ParksFor(x, e, 1) && BytesOf(e) == SubgroupSend.StreamBytes(1, 0, 0, objs)
    ensures SubgroupSend.AllDeliverable(objs) && SubgroupSend.OpenUntilLast(objs)
  {
    hide Varint.Encode, SubgroupWire.ParseHeader, SubgroupSend.EncodeHeader, SubgroupSend.ObjectBytes;
    assert objs[0] == LONE && SubgroupSend.Rising(Some(1), []);
    if |objs| == 1 {
      assert objs[1..] == [] && SubgroupSend.Rising(Some(0), []);
    } else {
      assert objs[1..] == [NEXT] && [NEXT][1..] == [] && SubgroupSend.Rising(Some(0), [NEXT]);
    }
    var sent := SubgroupSend.StreamBytes(1, 0, 0, objs);
    var arrivals := [Arrival(sent, true)];
    assert arrivals[1..] == [] && AllBytes([]) == [] && WellFormed([]);
    assert AllBytes(arrivals) == sent + [] == sent;
    var body := SubgroupSend.Body(None, objs);
    SubgroupSend.HeaderRoundTrip(1, 0, 0, 128, body);
    BodySize(objs);
  }

  lemma BodySize(objs: seq<Published>)
    requires (objs == [LONE] || objs == [LONE, NEXT]) && SubgroupSend.Rising(None, objs)
    ensures |SubgroupSend.Body(None, objs)| <= 1000
  {
    hide Varint.Encode, SubgroupSend.ObjectBytes;
    ObjectSize(None, LONE);
    if |objs| == 1 {
      assert objs[1..] == [] && SubgroupSend.Body(Some(0), []) == [];
    } else {
      ObjectSize(Some(0), NEXT);
      assert objs[1..] == [NEXT] && [NEXT][1..] == [] && SubgroupSend.Body(Some(1), []) == [];
    }
  }

  lemma ObjectSize(last: Option<u64>, o: Published)
    requires (last.None? && o == LONE) || (last == Some(0) && o == NEXT)
    ensures |SubgroupSend.ObjectBytes(last, o)| <= 100
  {
    hide Varint.Encode;
  }

  /** The calls of the stream for request 5. */
  lemma TwoCalls(b: Binding)
    ensures SubgroupSend.AllDeliverable([LONE, NEXT])
    ensures SubgroupSend.Expected(b, 0, [LONE, NEXT]) ==
            [Call.Deliver(SubgroupSend.Canonical(b, 0, LONE)), Call.Deliver(SubgroupSend.Canonical(b, 0, NEXT))]
  {
    assert [LONE, NEXT][1..] == [NEXT] && [NEXT][1..] == [];
    assert SubgroupSend.Expected(b, 0, []) == [];
  }

  /**
   * Two objects on one stream and a handler that stops its subscription on the first: early, it is
   * given both; with the route there first it is given one.
   */
  lemma GivingUpInsideAStream()
    ensures var e := TwoObjects(); var b := BoundTo(5, 9, 1, 0, 0, 128);
            var c, d := SubgroupSend.Canonical(b, 0, LONE), SubgroupSend.Canonical(b, 0, NEXT);
            && Install(GIVES_UP, Begin(GIVES_UP, EMPTY, e), 1, 5).log == [HandedOver(c), HandedOver(d)]
            && Begin(GIVES_UP, Install(GIVES_UP, EMPTY, 1, 5), e).log == [HandedOver(c)]
  {
    hide Install, Begin, Good, Replay, Table, ParksFor, SubgroupSend.StreamBytes, SubgroupSend.Expected, BytesOf,
         Establish, ApplyAll, Receive;
    var x, e, b, objs := GIVES_UP, TwoObjects(), BoundTo(5, 9, 1, 0, 0, 128), [LONE, NEXT];
    var c, d := SubgroupSend.Canonical(b, 0, LONE), SubgroupSend.Canonical(b, 0, NEXT);
    EmptyIsGood(x);
    OneRoute(x);
    StreamParks(x, objs);
    TwoCalls(b);
    EarlyStreamHandedOver(x, EMPTY, e, 1, 5, 0, 0, objs);
    assert StreamAdmitted(Delivery.Fresh(5), b, 0, objs);
    var calls := SubgroupSend.Expected(b, 0, objs);
    assert calls[1..] == [Call.Deliver(d)] && [Call.Deliver(d)][1..] == [] && Callbacks([]) == [];
    assert Callbacks([Call.Deliver(d)]) == [HandedOver(d)];
    assert HandedFor(b, 0, objs) == [HandedOver(c), HandedOver(d)];
    var direct := Install(x, EMPTY, 1, 5);
    DirectlyOne(direct, e, b);
  }

  lemma DirectlyOne(p: Plane, e: Early, b: Binding)
    requires Routed(p, 1, 5) && p.states[5] == Delivery.Fresh(5) && p.log == [] && p.receivers == map[]
    requires e == TwoObjects() && b == BoundTo(5, 9, 1, 0, 0, 128)
    ensures Begin(GIVES_UP, p, e).log == [HandedOver(SubgroupSend.Canonical(b, 0, LONE))]
  {
    hide Begin, Table, ParksFor, SubgroupSend.StreamBytes, SubgroupSend.Expected, BytesOf, ApplyAll, Receive,
         Establish;
    var objs := [LONE, NEXT];
    StreamParks(GIVES_UP, objs);
    TwoCalls(b);
    EstablishedCalls(GIVES_UP, p, e, 1, 0, 0, objs);
    var o := OutcomeOf(GIVES_UP, p, e);
    assert Begin(GIVES_UP, p, e) == Becomes(GIVES_UP, p, 9, o) by { BegunAtOnce(GIVES_UP, p, e, 1); }
    var p1 := With(p, 9, o.rx);
    SameTable(p, p1);
    AllDelivered(GIVES_UP, p1, 9, o.calls, 1, 5);
  }

  lemma BegunAtOnce(x: Context, p: Plane, e: Early, alias: u64)
    requires ParksFor(x, e, alias) && e.stream !in p.receivers
    ensures Begin(x, p, e) == Becomes(x, p, e.stream, OutcomeOf(x, p, e))
  {
    BeginAtOnce(x, p, e);
  }

  // ----- a stream and then a datagram -----

  function LoneStream(): Early {
    Early(9, [Arrival(SubgroupSend.StreamBytes(1, 0, 0, [LONE]), true)])
  }

  /** A stream with an object and then a datagram, both early: they reach the handler in the other order. */
  lemma MixedOrderMakesADifference()
    ensures var d := Datagrams.Sent(1, SMALL);
            Install(CALM, DeliverDatagram(CALM, Begin(CALM, EMPTY, LoneStream()), d, true), 1, 5) !=
            DeliverDatagram(CALM, Begin(CALM, Install(CALM, EMPTY, 1, 5), LoneStream()), d, true)
  {
    hide Install, Begin, Good, Replay, Table, ParksFor, SubgroupSend.StreamBytes, BytesOf, Datagrams.Sent, IsFor,
         Establish, DeliverDatagram, OutcomeOf, Size;
    var d, e, direct := Datagrams.Sent(1, SMALL), LoneStream(), Install(CALM, EMPTY, 1, 5);
    EmptyIsGood(CALM);
    OneRoute(CALM);
    SmallDatagram();
    StreamParks(CALM, [LONE]);
    SizeOfOne(d);
    EstablishedCalls(CALM, direct, e, 1, 0, 0, [LONE]);
    MixedOrderExact(CALM, EMPTY, e, d, 1, 5);
  }
}

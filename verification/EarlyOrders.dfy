/**
 * Early arrivals put together: datagrams and streams in any order, a stream that the installation cuts
 * in two, and the inputs for which being early does make a difference.
 */
module EarlyOrders {
  import opened Basics
  import opened Reception
  import opened DataPlanes
  import opened DataPlaneInvariants
  import opened DataPlaneTheorems
  import opened Handover
  import opened Settling
  import opened EarlyDatagrams
  import opened EarlyArrivals
  import Delivery
  import Datagrams
  import RetiredRoutes
  import SubgroupWire
  import Varint

  // ----- what is held, and what is routed -----

  /** Calls of a stream leave the held datagrams alone, and only take routes away. */
  lemma ApplyTables(x: Context, p: Plane, s: u64, c: Call)
    ensures var q := Apply(x, p, s, c);
            && q.datagrams == p.datagrams && q.heldBytes == p.heldBytes
            && (forall a :: a in q.routes ==> a in p.routes)
  {
    hide Table, Emit, DataPlanes.Deliver, Mark;
    if !c.Park? && !c.Unpark? {
      ApplyCalm(x, p, s, c);
    }
  }

  lemma {:induction false} ApplyAllTables(x: Context, p: Plane, s: u64, calls: seq<Call>)
    ensures var q := ApplyAll(x, p, s, calls);
            && q.datagrams == p.datagrams && q.heldBytes == p.heldBytes
            && (forall a :: a in q.routes ==> a in p.routes)
    decreases |calls|
  {
    hide Apply;
    if calls != [] {
      ApplyTables(x, p, s, calls[0]);
      ApplyAllTables(x, Apply(x, p, s, calls[0]), s, calls[1..]);
    }
  }

  lemma BeginTables(x: Context, p: Plane, e: Early, alias: u64)
    requires e.stream !in p.receivers && ParksFor(x, e, alias)
    ensures var q := Begin(x, p, e);
            && q.datagrams == p.datagrams && q.heldBytes == p.heldBytes
            && (forall a :: a in q.routes ==> a in p.routes)
  {
    hide Receive, ApplyAll, Begin, SubgroupWire.ParseHeader, Reception.WellFormed;
    BeginAtOnce(x, p, e);
    var o := OutcomeOf(x, p, e);
    ApplyAllTables(x, With(p, e.stream, o.rx), e.stream, o.calls);
  }

  lemma {:induction false} BeginAllTables(x: Context, p: Plane, es: seq<Early>, alias: u64)
    requires AllPark(x, es, alias) && Newcomers(p, es)
    ensures var q := BeginAll(x, p, es); q.datagrams == p.datagrams && (forall a :: a in q.routes ==> a in p.routes)
    decreases |es|
  {
    hide Begin, SubgroupWire.ParseHeader, Reception.WellFormed, Newcomers;
    if es != [] {
      assert ParksFor(x, es[0], alias);
      FirstIsNew(p, es);
      BeginTables(x, p, es[0], alias);
      BegunReceivers(x, p, es[0], alias);
      FewerNewcomers(p, es, Begin(x, p, es[0]));
      assert AllPark(x, es[1..], alias);
      BeginAllTables(x, Begin(x, p, es[0]), es[1..], alias);
    }
  }

  lemma {:induction false} ReplayStreamsHoldNothing(x: Context, p: Plane, ss: seq<u64>, request: u64)
    ensures ReplayStreams(x, p, ss, request).datagrams == p.datagrams
    decreases |ss|
  {
    hide ApplyAll, Establish;
    if ss != [] && ss[0] in p.receivers {
      var o := Establish(p.receivers[ss[0]], ss[0], request);
      ApplyAllTables(x, With(p, ss[0], o.rx), ss[0], o.calls);
      ReplayStreamsHoldNothing(x, Becomes(x, p, ss[0], o), ss[1..], request);
    } else if ss != [] {
      ReplayStreamsHoldNothing(x, p, ss[1..], request);
    }
  }

  /** The installation takes what is held for its alias out of the table. */
  lemma InstalledHoldsNothing(x: Context, p: Plane, alias: u64, request: u64)
    requires alias !in p.routes
    ensures alias !in Install(x, p, alias, request).datagrams
  {
    hide ReplayStreams, ReplayDatagrams, Claimed, Settled;
    ClaimedFields(p, alias, request);
    var q := Claimed(p, alias, request);
    ReplayHoldsNothing(x, q, Held(p, alias));
    ReplayStreamsHoldNothing(x, ReplayDatagrams(x, q, Held(p, alias)), Streams(p, alias), request);
    SettledHolds(Replay(x, p, alias, request), alias, request);
  }

  lemma {:induction false} FeedGood(x: Context, p: Plane, ds: seq<bytes>)
    requires Good(x, p)
    ensures Good(x, OnDatagrams(x, p, ds))
    decreases |ds|
  {
    hide Good, DeliverDatagram;
    if ds != [] {
      DatagramGood(x, p, ds[0]);
      FeedGood(x, DeliverDatagram(x, p, ds[0], true), ds[1..]);
    }
  }

  lemma FedFields(x: Context, p: Plane, ds: seq<bytes>, alias: u64)
    requires alias !in p.routes && AllFor(ds, alias) && RoomFor(x, p, ds, alias)
    ensures var q := OnDatagrams(x, p, ds);
            && q.receivers == p.receivers && q.routes == p.routes && q.states == p.states
            && q.pendingCount == p.pendingCount && q.pending == p.pending
  {
    hide DeliverDatagram, AllFor;
    if ds != [] {
      AllHeld(x, p, ds, alias);
    }
  }

  // ----- datagrams and streams -----

  /**
   * Parking is transparent for everything that came early in this order: any number of datagrams for
   * the alias, then any number of streams for it, each cut in any way, within the limits. Installing
   * the route then leaves the plane as installing it first would, if and only if the alias would have
   * its route whenever one of the datagrams arrives, one of the streams begins, or one of their objects
   * is delivered.
   */
  lemma EarlyIsDirect(x: Context, p: Plane, ds: seq<bytes>, es: seq<Early>, alias: u64, request: u64)
    requires Good(x, p) && alias !in p.routes && request !in p.states && Streams(p, alias) == []
    requires AllFor(ds, alias) && RoomFor(x, p, ds, alias)
    requires AllPark(x, es, alias) && PlacesFor(x, p, |es|) && Newcomers(p, es)
    ensures var direct := OnDatagrams(x, Install(x, p, alias, request), ds);
            Install(x, BeginAll(x, OnDatagrams(x, p, ds), es), alias, request) == BeginAll(x, direct, es) <==>
            RoutedFor(x, Install(x, p, alias, request), ds, alias) && LiveStarts(x, direct, es, alias)
  {
    hide Good, Install, BeginAll, AllFor, AllPark, Newcomers, RoutedFor, LiveStarts, OnDatagrams;
    var fed, r := OnDatagrams(x, p, ds), Install(x, p, alias, request);
    var direct := OnDatagrams(x, r, ds);
    EarlyDatagramsExact(x, p, ds, alias, request);
    FeedGood(x, p, ds);
    FedFields(x, p, ds, alias);
    assert Newcomers(fed, es) by { SameNewcomers(p, fed, es); }
    if RoutedFor(x, r, ds, alias) {
      EarlyStreamsExact(x, fed, es, alias, request);
    } else {
      HeldInstead(x, p, ds, alias, request);
      assert Newcomers(direct, es) by { SameNewcomers(p, direct, es); }
      BeginAllTables(x, direct, es, alias);
      assert alias !in BeginAll(x, fed, es).routes by { BeginAllTables(x, fed, es, alias); }
      InstalledHoldsNothing(x, BeginAll(x, fed, es), alias, request);
    }
  }

  /** With the route gone, direct arrival holds a datagram for the alias. */
  lemma HeldInstead(x: Context, p: Plane, ds: seq<bytes>, alias: u64, request: u64)
    requires Good(x, p) && alias !in p.routes && request !in p.states && Streams(p, alias) == []
    requires AllFor(ds, alias) && RoomFor(x, p, ds, alias)
    requires !RoutedFor(x, Install(x, p, alias, request), ds, alias)
    ensures var direct := OnDatagrams(x, Install(x, p, alias, request), ds);
            alias in direct.datagrams && direct.receivers.Keys == p.receivers.Keys
  {
    hide Good, Install, AllFor, RoutedFor, OnDatagrams, Replay, Settled, Table, Size;
    var r := Install(x, p, alias, request);
    InstalledFields(x, p, alias, request);
    ReplayedFields(x, p, alias, request);
    SettledFields(Replay(x, p, alias, request), alias, request);
    UnroutedIsHeld(x, r, ds, alias);
    OnDatagramsTables(x, r, ds);
  }

  lemma {:induction false} OnDatagramsTables(x: Context, p: Plane, ds: seq<bytes>)
    ensures var q := OnDatagrams(x, p, ds);
            q.receivers == p.receivers && (forall a :: a in q.routes ==> a in p.routes)
    decreases |ds|
  {
    hide DeliverDatagram;
    if ds != [] {
      DatagramTables(x, p, ds[0]);
      OnDatagramsTables(x, DeliverDatagram(x, p, ds[0], true), ds[1..]);
    }
  }

  lemma DatagramTables(x: Context, p: Plane, d: bytes)
    ensures var q := DeliverDatagram(x, p, d, true);
            q.receivers == p.receivers && (forall a :: a in q.routes ==> a in p.routes)
  {
    hide DeliverDatagram, Emit, Table;
    DatagramEffect(x, p, d, true);
    EmitCalm(x, p, ProtocolError);
  }

  /**
   * If the request still has its route when everything has been taken in directly, then being early
   * makes no difference.
   */
  lemma EarlyIfStillRouted(x: Context, p: Plane, ds: seq<bytes>, es: seq<Early>, alias: u64, request: u64)
    requires Good(x, p) && alias !in p.routes && request !in p.states && Streams(p, alias) == []
    requires AllFor(ds, alias) && RoomFor(x, p, ds, alias)
    requires AllPark(x, es, alias) && PlacesFor(x, p, |es|) && Newcomers(p, es)
    requires alias in BeginAll(x, OnDatagrams(x, Install(x, p, alias, request), ds), es).routes
    ensures Install(x, BeginAll(x, OnDatagrams(x, p, ds), es), alias, request) ==
            BeginAll(x, OnDatagrams(x, Install(x, p, alias, request), ds), es)
  {
    hide Good, Install, BeginAll, AllFor, AllPark, Newcomers, RoutedFor, LiveStarts, OnDatagrams, Replay;
    var r := Install(x, p, alias, request);
    var direct := OnDatagrams(x, r, ds);
    EarlyIsDirect(x, p, ds, es, alias, request);
    InstalledFields(x, p, alias, request);
    SettledFields(Replay(x, p, alias, request), alias, request);
    OnDatagramsTables(x, r, ds);
    assert Newcomers(direct, es) by { SameNewcomers(p, direct, es); }
    BeginAllTables(x, direct, es, alias);
    RoutedToTheEnd(x, r, ds, alias);
    LiveToTheEnd(x, direct, es, alias);
  }

  lemma {:induction false} RoutedToTheEnd(x: Context, p: Plane, ds: seq<bytes>, alias: u64)
    requires alias in OnDatagrams(x, p, ds).routes
    ensures RoutedFor(x, p, ds, alias)
    decreases |ds|
  {
    hide DeliverDatagram;
    if ds != [] {
      OnDatagramsTables(x, p, ds);
      RoutedToTheEnd(x, DeliverDatagram(x, p, ds[0], true), ds[1..], alias);
    }
  }

  lemma {:induction false} CallsToTheEnd(x: Context, p: Plane, s: u64, calls: seq<Call>, alias: u64)
    requires alias in ApplyAll(x, p, s, calls).routes
    ensures LiveCalls(x, p, s, calls, alias)
    decreases |calls|
  {
    hide Apply;
    if calls != [] {
      ApplyAllTables(x, p, s, calls);
      CallsToTheEnd(x, Apply(x, p, s, calls[0]), s, calls[1..], alias);
    }
  }

  lemma {:induction false} LiveToTheEnd(x: Context, p: Plane, es: seq<Early>, alias: u64)
    requires AllPark(x, es, alias) && Newcomers(p, es) && alias in BeginAll(x, p, es).routes
    ensures LiveStarts(x, p, es, alias)
    decreases |es|
  {
    hide Begin, Receive, ApplyAll, SubgroupWire.ParseHeader, Reception.WellFormed, Newcomers;
    if es != [] {
      var e := es[0];
      assert ParksFor(x, e, alias);
      FirstIsNew(p, es);
      BeginAllTables(x, p, es, alias);
      BegunReceivers(x, p, e, alias);
      FewerNewcomers(p, es, Begin(x, p, e));
      assert AllPark(x, es[1..], alias);
      BeginAllTables(x, Begin(x, p, e), es[1..], alias);
      BeginAtOnce(x, p, e);
      var o := OutcomeOf(x, p, e);
      CallsToTheEnd(x, With(p, e.stream, o.rx), e.stream, o.calls, alias);
      LiveToTheEnd(x, Begin(x, p, e), es[1..], alias);
    }
  }

  // ----- any order -----

  datatype Item = Packet(datagram: bytes) | Stream(early: Early)

  /** Datagrams and streams, as they come. */
  function Arrive(x: Context, p: Plane, items: seq<Item>): Plane
    decreases |items|
  {
    if items == [] then p else
    Arrive(x, match items[0] case Packet(d) => DeliverDatagram(x, p, d, true) case Stream(e) => Begin(x, p, e),
           items[1..])
  }

  function Packets(items: seq<Item>): seq<bytes> {
    if items == [] then [] else (if items[0].Packet? then [items[0].datagram] else []) + Packets(items[1..])
  }

  function Starts(items: seq<Item>): seq<Early> {
    if items == [] then [] else (if items[0].Stream? then [items[0].early] else []) + Starts(items[1..])
  }

  /** Holding datagrams and parking a stream do not get in each other's way. */
  lemma BeginThenFeed(x: Context, p: Plane, e: Early, ds: seq<bytes>, alias: u64)
    requires alias !in p.routes && AllFor(ds, alias) && RoomFor(x, p, ds, alias)
    requires ParksFor(x, e, alias) && PlacesFor(x, p, 1) && e.stream !in p.receivers
    ensures OnDatagrams(x, Begin(x, p, e), ds) == Begin(x, OnDatagrams(x, p, ds), e)
  {
    hide Begin, DeliverDatagram, ParksFor, AllFor, Size;
    if ds != [] {
      ParkedNow(x, p, e, alias);
      AllHeld(x, p, ds, alias);
      ParkedNow(x, OnDatagrams(x, p, ds), e, alias);
      AllHeld(x, Begin(x, p, e), ds, alias);
    }
  }

  /** Everything may be held that comes early for the alias. */
  predicate MayCome(x: Context, p: Plane, items: seq<Item>, alias: u64) {
    && alias !in p.routes && AllFor(Packets(items), alias) && RoomFor(x, p, Packets(items), alias)
    && AllPark(x, Starts(items), alias) && PlacesFor(x, p, |Starts(items)|) && Newcomers(p, Starts(items))
  }

  lemma PacketFirst(x: Context, p: Plane, items: seq<Item>, alias: u64)
    requires MayCome(x, p, items, alias) && items != [] && items[0].Packet?
    ensures var p1 := DeliverDatagram(x, p, items[0].datagram, true);
            && MayCome(x, p1, items[1..], alias) && Starts(items) == Starts(items[1..])
            && OnDatagrams(x, p, Packets(items)) == OnDatagrams(x, p1, Packets(items[1..]))
  {
    hide DeliverDatagram, AllFor, AllPark, Newcomers, Size, IsFor;
    var ds, d, es := Packets(items), items[0].datagram, Starts(items);
    assert ds[0] == d && ds[1..] == Packets(items[1..]) && es == Starts(items[1..]);
    ForFirst(ds, alias);
    SizeFirst(ds);
    HeldNow(x, p, d, alias);
    var p1 := DeliverDatagram(x, p, d, true);
    assert Newcomers(p1, es) by { SameNewcomers(p, p1, es); }
  }

  lemma StreamFirst(x: Context, p: Plane, items: seq<Item>, alias: u64)
    requires MayCome(x, p, items, alias) && items != [] && items[0].Stream?
    ensures var p1 := Begin(x, p, items[0].early);
            && MayCome(x, p1, items[1..], alias) && Packets(items) == Packets(items[1..])
            && BeginAll(x, OnDatagrams(x, p, Packets(items)), Starts(items)) ==
               BeginAll(x, OnDatagrams(x, p1, Packets(items)), Starts(items[1..]))
  {
    hide Begin, OnDatagrams, RoomFor, AllFor, AllPark, Newcomers, ParksFor, ParkedAs, DataPlanes.Park, With, BeginAll;
    var ds, e, es := Packets(items), items[0].early, Starts(items);
    assert es[0] == e && es[1..] == Starts(items[1..]) && ds == Packets(items[1..]);
    ParkFirst(x, es, alias);
    FirstIsNew(p, es);
    RoomToPark(x, p, e, ds, alias);
    FewerNewcomers(p, es, Begin(x, p, e));
    BeginThenFeed(x, p, e, ds, alias);
    BeginNext(x, OnDatagrams(x, p, ds), es);
  }

  lemma BeginNext(x: Context, p: Plane, es: seq<Early>)
    requires es != []
    ensures BeginAll(x, p, es) == BeginAll(x, Begin(x, p, es[0]), es[1..])
  {
    hide Begin;
  }

  /** A parked stream takes one place, and none from the datagrams. */
  lemma RoomToPark(x: Context, p: Plane, e: Early, ds: seq<bytes>, alias: u64)
    requires ParksFor(x, e, alias) && alias !in p.routes && PlacesFor(x, p, 1) && e.stream !in p.receivers
    ensures var q := Begin(x, p, e);
            && (RoomFor(x, p, ds, alias) ==> RoomFor(x, q, ds, alias)) && q.routes == p.routes
            && q.receivers.Keys == p.receivers.Keys + {e.stream} && q.pendingCount == p.pendingCount + 1
  {
    hide Begin, ParksFor, ParkedAs, Size, DataPlanes.Park, With;
    ParkFirst(x, [e], alias);
    ParkedNow(x, p, e, alias);
    ParkFields(p, e.stream, ParkedAs(e), alias);
    ParkHolds(p, e.stream, ParkedAs(e), alias);
  }

  lemma ParkHolds(p: Plane, s: u64, rx: Receiver, alias: u64)
    ensures var q := DataPlanes.Park(With(p, s, rx), alias, s);
            q.routes == p.routes && q.heldBytes == p.heldBytes && q.datagrams == p.datagrams
  {
  }

  /** Without the route, the order in which datagrams and streams come leaves no trace. */
  lemma {:induction false} OrderIsForgotten(x: Context, p: Plane, items: seq<Item>, alias: u64)
    requires MayCome(x, p, items, alias)
    ensures Arrive(x, p, items) == BeginAll(x, OnDatagrams(x, p, Packets(items)), Starts(items))
    decreases |items|
  {
    hide Begin, DeliverDatagram, MayCome;
    if items != [] {
      if items[0].Packet? {
        PacketFirst(x, p, items, alias);
        OrderIsForgotten(x, DeliverDatagram(x, p, items[0].datagram, true), items[1..], alias);
      } else {
        StreamFirst(x, p, items, alias);
        OrderIsForgotten(x, Begin(x, p, items[0].early), items[1..], alias);
      }
    }
  }

  lemma ForFirst(ds: seq<bytes>, alias: u64)
    requires ds != [] && AllFor(ds, alias)
    ensures IsFor(ds[0], alias) && AllFor(ds[1..], alias)
  {
    hide IsFor;
  }

  lemma ParkFirst(x: Context, es: seq<Early>, alias: u64)
    requires es != [] && AllPark(x, es, alias)
    ensures ParksFor(x, es[0], alias) && AllPark(x, es[1..], alias)
    ensures SubgroupWire.ParseHeader(BytesOf(es[0])).Done?
  {
    hide SubgroupWire.ParseHeader, Reception.WellFormed;
    assert ParksFor(x, es[0], alias);
  }

  /**
   * Datagrams and streams that come early, in whatever order: the installation leaves the plane as if,
   * with the route in place, the datagrams had come first and then the streams, each in their own
   * order, if and only if the alias would have its route for all of them.
   */
  lemma EarlyInAnyOrder(x: Context, p: Plane, items: seq<Item>, alias: u64, request: u64)
    requires Good(x, p) && alias !in p.routes && request !in p.states && Streams(p, alias) == []
    requires MayCome(x, p, items, alias)
    ensures var direct := OnDatagrams(x, Install(x, p, alias, request), Packets(items));
            Install(x, Arrive(x, p, items), alias, request) == BeginAll(x, direct, Starts(items)) <==>
            && RoutedFor(x, Install(x, p, alias, request), Packets(items), alias)
            && LiveStarts(x, direct, Starts(items), alias)
  {
    hide Good, Install, BeginAll, AllFor, AllPark, Newcomers, RoutedFor, LiveStarts, OnDatagrams, Arrive;
    OrderIsForgotten(x, p, items, alias);
    EarlyIsDirect(x, p, Packets(items), Starts(items), alias, request);
  }

  // ----- one stream, cut by the installation -----

  lemma {:induction false} ReceiveEachJoin(x: Context, p: Plane, s: u64, a: seq<Arrival>, b: seq<Arrival>)
    ensures ReceiveEach(x, p, s, a + b) == ReceiveEach(x, ReceiveEach(x, p, s, a), s, b)
    decreases |a|
  {
    hide StreamReceive;
    if a == [] {
      assert a + b == b;
    } else {
      assert (a + b)[0] == a[0] && (a + b)[1..] == a[1..] + b;
      ReceiveEachJoin(x, StreamReceive(x, p, s, a[0].received, a[0].fin), s, a[1..], b);
    }
  }

  lemma BeginOne(x: Context, p: Plane, e: Early)
    ensures BeginAll(x, p, [e]) == Begin(x, p, e)
  {
    hide Begin;
    assert [e][1..] == [] && BeginAll(x, Begin(x, p, e), []) == Begin(x, p, e);
  }

  /** The installation behind one early stream establishes it last. */
  lemma InstallOne(x: Context, p: Plane, e: Early, alias: u64, request: u64)
    requires Good(x, p) && alias !in p.routes && request !in p.states && e.stream !in p.receivers
    requires ParksFor(x, e, alias) && PlacesFor(x, p, 1)
    ensures SubgroupWire.ParseHeader(BytesOf(e)).Done?
    ensures var r := Replay(x, p, alias, request);
            Install(x, Begin(x, p, e), alias, request) ==
            Settled(Becomes(x, r, e.stream, Establish(ParkedAs(e), e.stream, request)), alias, request)
  {
    hide Good, Install, Begin, ParksFor, Becomes, Establish, Replay, Settled, ParkedAs;
    BeginOne(x, p, e);
    assert Newcomers(p, [e]) && AllPark(x, [e], alias);
    ParkFirst(x, [e], alias);
    ParkedAreKnown(x, p, alias);
    InstallAfter(x, p, [e], alias, request);
    var r := Replay(x, p, alias, request);
    InstalledFields(x, p, alias, request);
    assert Newcomers(r, [e]) by { SameNewcomers(p, r, [e]); }
    EstablishFirst(x, r, [e], request);
    var p1 := Becomes(x, r, e.stream, Establish(ParkedAs(e), e.stream, request));
    assert [e][1..] == [] && WithAll(p1, []) == p1 && ReplayStreams(x, p1, [], request) == p1;
  }

  /** A parked stream whose route never comes: it waits, or has been aborted since the n-th callback. */
  predicate Forsaken(p: Plane, s: u64, n: nat) {
    && s in p.receivers
    && n <= |p.log| && (p.receivers[s].Waiting? || (p.receivers[s].Closed? && AbortReceive(s) in p.log[n..]))
  }

  /** A stream that found its route: it does not wait, and is not aborted. */
  predicate Taken(p: Plane, s: u64, n: nat) {
    && s in p.receivers && !p.receivers[s].Waiting? && !p.receivers[s].Opening?
    && n <= |p.log| && AbortReceive(s) !in p.log[n..]
  }

  lemma {:induction false} NoAborts(x: Context, p: Plane, s: u64, calls: seq<Call>, request: u64, n: nat)
    requires OnBehalf(calls, request) && n <= |p.log| && AbortReceive(s) !in p.log[n..]
    ensures var q := ApplyAll(x, p, s, calls); n <= |q.log| && AbortReceive(s) !in q.log[n..]
    decreases |calls|
  {
    hide Apply;
    if calls != [] {
      var c := calls[0];
      assert c in calls;
      NoAbort(x, p, s, c);
      var q := Apply(x, p, s, c);
      assert q.log[n..] == p.log[n..] + q.log[|p.log|..];
      assert OnBehalf(calls[1..], request);
      NoAborts(x, q, s, calls[1..], request, n);
    }
  }

  lemma NoAbort(x: Context, p: Plane, s: u64, c: Call)
    requires !c.Abort?
    ensures var q := Apply(x, p, s, c); p.log <= q.log && AbortReceive(s) !in q.log[|p.log|..]
  {
    hide Emit;
    match c
    case Deliver(o) =>
      if o.request in p.states {
        EmitLog(x, p, TrackError(o.request));
        EmitLog(x, p.(states := p.states[o.request := Delivery.Delivered(p.states[o.request], o)]), HandedOver(o));
      }
    case Fail => EmitLog(x, p, ProtocolError);
    case GroupFinal(_, _, _) =>
    case Park(_) =>
    case Unpark(_) =>
  }

  lemma {:induction false} StaysTaken(x: Context, p: Plane, s: u64, arrivals: seq<Arrival>, n: nat)
    requires Taken(p, s, n)
    ensures Taken(ReceiveEach(x, p, s, arrivals), s, n)
    decreases |arrivals|
  {
    hide StreamReceive, Taken;
    if arrivals != [] {
      TakenOnce(x, p, s, arrivals[0].received, arrivals[0].fin, n);
      StaysTaken(x, StreamReceive(x, p, s, arrivals[0].received, arrivals[0].fin), s, arrivals[1..], n);
    }
  }

  lemma TakenOnce(x: Context, p: Plane, s: u64, received: bytes, fin: bool, n: nat)
    requires Taken(p, s, n)
    ensures Taken(StreamReceive(x, p, s, received, fin), s, n)
  {
    hide Feed, ApplyAll;
    var rx := p.receivers[s];
    var o := Receive(rx, EnvOf(x, p, s), received, fin);
    if rx.Bound? {
      FeedOnBehalf(rx.binding, rx.pos, rx.stash + received, fin);
      NoAborts(x, With(p, s, o.rx), s, o.calls, rx.binding.request, n);
    } else {
      assert o == Outcome(Closed, []);
      NoCalls(x, With(p, s, Closed), s);
    }
    NewReceiver(x, p, s, o);
  }

  lemma {:induction false} StaysForsaken(x: Context, p: Plane, s: u64, arrivals: seq<Arrival>, n: nat)
    requires Forsaken(p, s, n)
    ensures Forsaken(ReceiveEach(x, p, s, arrivals), s, n)
    decreases |arrivals|
  {
    hide StreamReceive, Forsaken;
    if arrivals != [] {
      ForsakenOnce(x, p, s, arrivals[0].received, arrivals[0].fin, n);
      StaysForsaken(x, StreamReceive(x, p, s, arrivals[0].received, arrivals[0].fin), s, arrivals[1..], n);
    }
  }

  lemma ForsakenOnce(x: Context, p: Plane, s: u64, received: bytes, fin: bool, n: nat)
    requires Forsaken(p, s, n)
    ensures Forsaken(StreamReceive(x, p, s, received, fin), s, n)
  {
    hide Feed, ApplyAll, Discard, Open;
    var rx := p.receivers[s];
    var o := Receive(rx, EnvOf(x, p, s), received, fin);
    NewReceiver(x, p, s, o);
    var p1 := With(p, s, o.rx);
    if rx.Closed? {
      assert o == Outcome(Closed, []);
      NoCalls(x, p1, s);
    } else if !o.rx.Waiting? {
      assert o.calls == [Unpark(rx.header.alias), Abort];
      ApplyTwo(x, p1, s, Unpark(rx.header.alias), Abort);
      assert Discard(p1, rx.header.alias, s).log == p.log by { DiscardLog(p1, rx.header.alias, s); }
      var log := p.log + [AbortReceive(s)];
      assert log[n..] == p.log[n..] + [AbortReceive(s)];
    } else {
      assert o.calls == [];
      NoCalls(x, p1, s);
    }
  }

  lemma DiscardLog(p: Plane, alias: u64, s: u64)
    ensures Discard(p, alias, s).log == p.log
  {
  }

  lemma ReceiveEachGrows(x: Context, p: Plane, s: u64, arrivals: seq<Arrival>)
    ensures p.log <= ReceiveEach(x, p, s, arrivals).log
    decreases |arrivals|
  {
    hide Receive, ApplyAll;
    if arrivals != [] {
      var a := arrivals[0];
      if s in p.receivers {
        var o := Receive(p.receivers[s], EnvOf(x, p, s), a.received, a.fin);
        ApplyAllGrows(x, With(p, s, o.rx), s, o.calls);
      }
      ReceiveEachGrows(x, StreamReceive(x, p, s, a.received, a.fin), s, arrivals[1..]);
    }
  }

  /**
   * A stream of which some events come before its route and some after: the plane ends as if the route
   * had been there for all of them, if and only if the alias would have its route when the stream
   * begins and whenever an object is delivered that came before the route.
   */
  lemma EarlyStreamCut(x: Context, p: Plane, s: u64, before: seq<Arrival>, after: seq<Arrival>, alias: u64,
                       request: u64)
    requires Good(x, p) && alias !in p.routes && request !in p.states && s !in p.receivers
    requires ParksFor(x, Early(s, before), alias) && PlacesFor(x, p, 1)
    ensures ReceiveEach(x, Install(x, Begin(x, p, Early(s, before)), alias, request), s, after) ==
            Begin(x, Install(x, p, alias, request), Early(s, before + after)) <==>
            LiveStart(x, Install(x, p, alias, request), Early(s, before), alias)
  {
    hide Good, Install, ReceiveEach, StartStream, ParksFor, LiveStart, Replay, Settled, Becomes, Establish, Table,
         ParkedAs, Parted, Forsaken, Taken;
    var e, r, direct := Early(s, before), Replay(x, p, alias, request), Install(x, p, alias, request);
    InstallOne(x, p, e, alias, request);
    InstalledFields(x, p, alias, request);
    StartSettled(x, r, e, alias, request);
    ReceiveEachJoin(x, StartStream(x, direct, s, [], false), s, before, after);
    var early := Becomes(x, r, s, Establish(ParkedAs(e), s, request));
    assert Begin(x, direct, Early(s, before + after)) == ReceiveEach(x, Begin(x, direct, e), s, after);
    LiveIsRouted(x, direct, e, alias);
    if alias !in direct.routes {
      CutForsaken(x, p, s, before, after, alias, request);
    } else if !LiveStart(x, direct, e, alias) {
      PartedCut(x, early, Begin(x, direct, e), s, after, alias, request);
    }
  }

  lemma PartedCut(x: Context, early: Plane, direct: Plane, s: u64, after: seq<Arrival>, alias: u64, request: u64)
    requires Parted(early.log, direct, request) && Installing(early, alias, request)
    ensures ReceiveEach(x, Settled(early, alias, request), s, after) != ReceiveEach(x, direct, s, after)
  {
    hide ReceiveEach, Settled, RetiredRoutes.LogExtends;
    var settled := Settled(early, alias, request);
    SettledFields(early, alias, request);
    ReceiveEachGrows(x, settled, s, after);
    ReceiveEachSilent(x, direct, s, after, request);
    PartedGrows(early.log, ReceiveEach(x, settled, s, after).log, direct, ReceiveEach(x, direct, s, after), request);
    PartedDiffers(ReceiveEach(x, settled, s, after), ReceiveEach(x, direct, s, after), request);
  }

  /** Where the alias has lost its route, direct arrival parks the stream and the early one was taken. */
  lemma CutForsaken(x: Context, p: Plane, s: u64, before: seq<Arrival>, after: seq<Arrival>, alias: u64, request: u64)
    requires Good(x, p) && alias !in p.routes && request !in p.states && s !in p.receivers
    requires ParksFor(x, Early(s, before), alias) && PlacesFor(x, p, 1)
    requires alias !in Install(x, p, alias, request).routes
    ensures ReceiveEach(x, Install(x, Begin(x, p, Early(s, before)), alias, request), s, after) !=
            ReceiveEach(x, Begin(x, Install(x, p, alias, request), Early(s, before)), s, after)
  {
    hide Good, Install, ReceiveEach, ParksFor, Replay, Settled, Establish, Table, ParkedAs, ApplyAll, Begin;
    var e, r, direct := Early(s, before), Replay(x, p, alias, request), Install(x, p, alias, request);
    InstallOne(x, p, e, alias, request);
    InstalledFields(x, p, alias, request);
    SettledFields(r, alias, request);
    var o := Establish(ParkedAs(e), s, request);
    var early := Becomes(x, r, s, o);
    assert ParkedAs(e).Waiting? by { ParkedWaits(e); }
    EstablishOnBehalf(ParkedAs(e), s, request);
    NoAborts(x, With(r, s, o.rx), s, o.calls, request, |r.log|);
    NewReceiver(x, r, s, o);
    SettledKeeps(early, alias, request);
    assert Taken(Settled(early, alias, request), s, |r.log|);
    ParkedNow(x, direct, e, alias);
    assert Forsaken(Begin(x, direct, e), s, |r.log|);
    StaysTaken(x, Settled(early, alias, request), s, after, |r.log|);
    StaysForsaken(x, Begin(x, direct, e), s, after, |r.log|);
  }

  lemma ParkedWaits(e: Early)
    requires SubgroupWire.ParseHeader(BytesOf(e)).Done?
    ensures ParkedAs(e).Waiting?
  {
  }

  lemma SettledKeeps(p: Plane, alias: u64, request: u64)
    ensures var q := Settled(p, alias, request); q.log == p.log && q.receivers == p.receivers
  {
  }

  // ----- a stream and then a datagram -----

  lemma OneDatagram(x: Context, p: Plane, d: bytes)
    ensures OnDatagrams(x, p, [d]) == DeliverDatagram(x, p, d, true)
  {
    hide DeliverDatagram;
    var ds: seq<bytes> := [d];
    assert ds[1..] == [] && OnDatagrams(x, DeliverDatagram(x, p, d, true), []) == DeliverDatagram(x, p, d, true);
  }

  /** A datagram for an active route makes one callback, and no object of a stream. */
  lemma DatagramSays(x: Context, p: Plane, d: bytes, alias: u64, request: u64)
    requires IsFor(d, alias) && Installing(p, alias, request) && Table(p)
    ensures var q := DeliverDatagram(x, p, d, false);
            && |q.log| == |p.log| + 1 && q.log[..|p.log|] == p.log
            && (q.log[|p.log|].HandedOver? ==> q.log[|p.log|].obj.kind == DeliveryKind.Datagram)
  {
    hide Emit, DeliverDatagram, Datagrams.ParseHead, IsFor, Table, Delivery.Admits, Varint.Take;
    Behind(x, p, d, alias);
    var head := Datagrams.ParseHead(d);
    var h := head.value;
    InstallingActive(p, alias, request);
    EmitLog(x, p, ProtocolError);
    var body := Datagrams.ParseBody(h, head.rest, request);
    if body.Done? {
      var o := body.value;
      BodyOf(h, head.rest, request);
      var p1 := if h.flags.endOfGroup then Mark(p, request, h.group, h.id) else p;
      EmitLog(x, p1, TrackError(request));
      EmitLog(x, p1.(states := p1.states[request := Delivery.Delivered(p1.states[request], o)]), HandedOver(o));
    }
  }

  lemma BodyOf(h: Datagrams.Head, rest: bytes, request: u64)
    requires Datagrams.ParseBody(h, rest, request).Done?
    ensures var o := Datagrams.ParseBody(h, rest, request).value;
            o.request == request && o.kind == DeliveryKind.Datagram
  {
  }

  /** The first thing that an established stream does, if anything, is to deliver an object or to fail. */
  lemma FirstCall(b: Binding, subgroup: Option<u64>, s: bytes, fin: bool)
    ensures var calls := Feed(b, Position(subgroup, None), s, fin).calls;
            calls != [] ==>
              calls[0].Fail? || (calls[0].Deliver? && calls[0].obj.request == b.request
                                 && calls[0].obj.kind == DeliveryKind.SubgroupStream)
  {
    hide SubgroupWire.ParseObject;
  }

  /** Behind the route of an established request the first call of a stream tells it from a datagram. */
  lemma StreamSays(x: Context, p: Plane, s: u64, c: Call, alias: u64, request: u64)
    requires Routed(p, alias, request)
    requires c.Fail? || (c.Deliver? && c.obj.request == request && c.obj.kind == DeliveryKind.SubgroupStream)
    ensures var q := Apply(x, p, s, c);
            && |q.log| == |p.log| + 1
            && (alias in q.routes ==>
                  q.log[|p.log|].HandedOver? && q.log[|p.log|].obj.kind == DeliveryKind.SubgroupStream)
  {
    hide Emit, Table, Delivery.Admits;
    RoutedActive(p, alias, request);
    if c.Fail? {
      EmitLog(x, p, ProtocolError);
      FailRetires(x, p, alias);
    } else {
      var p1 := p.(states := p.states[request := Delivery.Delivered(p.states[request], c.obj)]);
      EmitLog(x, p1, HandedOver(c.obj));
      EmitLog(x, p, TrackError(request));
      ErrorUnroutes(x, p, alias, request);
    }
  }

  lemma FailRetires(x: Context, p: Plane, alias: u64)
    requires Table(p) && p.busy.None?
    ensures alias !in Emit(x, p, ProtocolError).routes
  {
    hide StopAll;
    var p1 := React(p.(log := p.log + [ProtocolError]), ProtocolError);
    assert alias !in p1.routes;
    assert Calm(p1, StopAll(p1, x.stops(|p.log|))) by { StopAllCalm(p1, x.stops(|p.log|)); }
  }

  lemma ErrorUnroutes(x: Context, p: Plane, alias: u64, request: u64)
    requires Routed(p, alias, request)
    ensures alias !in Emit(x, p, TrackError(request)).routes
  {
    hide StopAll;
    var p1 := React(p.(log := p.log + [TrackError(request)]), TrackError(request));
    assert request in p.owned && p.owned[request] == alias;
    assert alias !in p1.routes;
    assert Calm(p1, StopAll(p1, x.stops(|p.log|))) by { StopAllCalm(p1, x.stops(|p.log|)); }
  }

  /** One datagram held behind an installation: it is delivered as the installation goes on. */
  lemma ReplayOne(x: Context, p: Plane, d: bytes, alias: u64, request: u64)
    requires Good(x, p) && alias !in p.routes && Streams(p, alias) == []
    requires IsFor(d, alias) && RoomFor(x, p, [d], alias)
    ensures Replay(x, DeliverDatagram(x, p, d, true), alias, request) ==
            DeliverDatagram(x, Replay(x, p, alias, request), d, false)
  {
    hide Good, DeliverDatagram, Replay, IsFor, Size, Install, Settled;
    var r := Replay(x, p, alias, request);
    var ds: seq<bytes> := [d];
    OneDatagram(x, p, d);
    EarlyReplay(x, p, ds, alias, request);
    SizeFirst(ds);
    var q := Counting(r, r.heldBytes + |d|);
    assert Size([]) == 0 by { NothingHeld(); }
    assert ds[1..] == [] && q.(heldBytes := r.heldBytes) == r;
    var after := DeliverDatagram(x, r, d, false);
    assert ReplayDatagrams(x, after, []) == after;
    assert ReplayDatagrams(x, q, ds) == ReplayDatagrams(x, after, ds[1..]);
  }

  /** Both early: the stream is established after the datagram has been delivered. */
  lemma MixedEarly(x: Context, p: Plane, e: Early, d: bytes, alias: u64, request: u64)
    requires Good(x, p) && alias !in p.routes && request !in p.states && Streams(p, alias) == []
    requires e.stream !in p.receivers && ParksFor(x, e, alias) && PlacesFor(x, p, 1)
    requires IsFor(d, alias) && RoomFor(x, p, [d], alias)
    ensures SubgroupWire.ParseHeader(BytesOf(e)).Done?
    ensures var r := DeliverDatagram(x, Replay(x, p, alias, request), d, false);
            var early := Install(x, DeliverDatagram(x, Begin(x, p, e), d, true), alias, request);
            && early == Settled(Becomes(x, r, e.stream, Establish(ParkedAs(e), e.stream, request)), alias, request)
            && alias !in early.datagrams
  {
    hide Good, Install, DeliverDatagram, Begin, ParksFor, Becomes, Establish, Replay, Settled, ParkedAs, IsFor, Size;
    assert AllFor([d], alias);
    OneDatagram(x, p, d);
    OneDatagram(x, Begin(x, p, e), d);
    BeginThenFeed(x, p, e, [d], alias);
    var fed := DeliverDatagram(x, p, d, true);
    FeedGood(x, p, [d]);
    FedFields(x, p, [d], alias);
    InstallOne(x, fed, e, alias, request);
    ReplayOne(x, p, d, alias, request);
    assert alias !in Begin(x, fed, e).routes by { BeginTables(x, fed, e, alias); }
    InstalledHoldsNothing(x, Begin(x, fed, e), alias, request);
  }

  /** A datagram whose alias has no route is held. */
  lemma DirectHolds(x: Context, p: Plane, d: bytes, alias: u64)
    requires alias !in p.routes && IsFor(d, alias) && alias !in p.datagrams
    requires x.config.policy.Buffer? && p.heldBytes + |d| <= x.config.maxDatagramBytes
             && 1 <= x.config.maxDatagramsPerAlias
    ensures alias in DeliverDatagram(x, p, d, true).datagrams
  {
    hide IsFor, DeliverDatagram, Size;
    SizeOfOne(d);
    HeldNow(x, p, d, alias);
  }

  /** What the installation leaves of the tables that matter to a datagram. */
  lemma MixedFields(x: Context, p: Plane, alias: u64, request: u64)
    requires Good(x, p) && alias !in p.routes && request !in p.states && Streams(p, alias) == []
    ensures var r := Replay(x, p, alias, request); var direct := Settled(r, alias, request);
            && direct == Install(x, p, alias, request) && Installing(r, alias, request) && Table(r)
            && direct.receivers.Keys == p.receivers.Keys && r.receivers.Keys == p.receivers.Keys
            && alias !in direct.datagrams && direct.heldBytes <= p.heldBytes && direct.log == r.log
            && direct.pendingCount <= p.pendingCount && (alias in direct.routes <==> !r.stopped)
            && (alias in direct.routes ==> Routed(direct, alias, request))
  {
    hide Good, Install, Replay, Settled, Table;
    var r := Replay(x, p, alias, request);
    InstalledFields(x, p, alias, request);
    ReplayedFields(x, p, alias, request);
    SettledFields(r, alias, request);
    SettledTable(r, alias, request);
    InstallingActive(r, alias, request);
  }

  /** A stream that makes no call may as well come after the datagram. */
  lemma MixedQuiet(x: Context, r: Plane, s: u64, rx: Receiver, d: bytes, alias: u64, request: u64)
    requires Installing(r, alias, request) && Table(r) && !r.stopped && IsFor(d, alias)
    ensures Settled(With(DeliverDatagram(x, r, d, false), s, rx), alias, request) ==
            DeliverDatagram(x, With(Settled(r, alias, request), s, rx), d, true)
  {
    hide DeliverDatagram, Settled, Table, IsFor, DeliverBody, Datagrams.ParseHead, Datagrams.ParseBody;
    var direct := Settled(r, alias, request);
    SettledFields(r, alias, request);
    SettledWith(DeliverDatagram(x, r, d, false), s, rx, alias, request);
    DatagramSettled(x, r, d, alias, request);
    Behind(x, direct, d, alias);
    Behind(x, With(direct, s, rx), d, alias);
    DatagramWith(x, direct, d, s, rx);
  }

  /**
   * An early stream and then an early datagram, whatever datagrams were held before them: they leave
   * the plane as they would have with the route there first, if and only if the alias would have its
   * route when they come and establishing the parked stream makes no call. Otherwise the datagram is
   * delivered first, or is held in the one case and delivered in the other.
   */
  lemma MixedOrderExact(x: Context, p: Plane, e: Early, d: bytes, alias: u64, request: u64)
    requires Good(x, p) && alias !in p.routes && request !in p.states && Streams(p, alias) == []
    requires e.stream !in p.receivers && ParksFor(x, e, alias) && PlacesFor(x, p, 1)
    requires IsFor(d, alias) && RoomFor(x, p, [d], alias)
    ensures SubgroupWire.ParseHeader(BytesOf(e)).Done?
    ensures Install(x, DeliverDatagram(x, Begin(x, p, e), d, true), alias, request) ==
            DeliverDatagram(x, Begin(x, Install(x, p, alias, request), e), d, true) <==>
            && alias in Install(x, p, alias, request).routes
            && Establish(ParkedAs(e), e.stream, request).calls == []
  {
    hide Good, Install, DeliverDatagram, Begin, ParksFor, Becomes, Establish, Replay, Settled, ParkedAs, IsFor, Size,
         Routed;
    MixedEarly(x, p, e, d, alias, request);
    MixedFields(x, p, alias, request);
    SizeOfOne(d);
    var r, direct := Replay(x, p, alias, request), Install(x, p, alias, request);
    var o := Establish(ParkedAs(e), e.stream, request);
    BeginTables(x, direct, e, alias);
    var begun := Begin(x, direct, e);
    if alias !in direct.routes {
      DirectHolds(x, begun, d, alias);
    } else {
      assert direct.routes[alias] == request by { RoutedRequest(direct, alias, request); }
      BegunCalm(x, direct, e, alias);
      MixedRouted(x, r, direct, e, o, d, alias, request);
    }
  }

  /** The routed case of it. */
  lemma MixedRouted(x: Context, r: Plane, direct: Plane, e: Early, o: Outcome, d: bytes, alias: u64, request: u64)
    requires SubgroupWire.ParseHeader(BytesOf(e)).Done? && o == Establish(ParkedAs(e), e.stream, request)
    requires Installing(r, alias, request) && Table(r) && direct == Settled(r, alias, request) && !r.stopped
    requires direct.log == r.log && Routed(direct, alias, request) && IsFor(d, alias)
    requires alias !in direct.datagrams && x.config.policy.Buffer?
    requires direct.heldBytes + |d| <= x.config.maxDatagramBytes && 1 <= x.config.maxDatagramsPerAlias
    requires alias !in Settled(Becomes(x, DeliverDatagram(x, r, d, false), e.stream, o), alias, request).datagrams
    ensures Settled(Becomes(x, DeliverDatagram(x, r, d, false), e.stream, o), alias, request) ==
            DeliverDatagram(x, Becomes(x, direct, e.stream, o), d, true) <==>
            o.calls == []
  {
    hide DeliverDatagram, ApplyAll, Establish, Settled, ParkedAs, IsFor, Routed, SubgroupWire.ParseHeader, Table;
    var begun := Becomes(x, direct, e.stream, o);
    ApplyAllTables(x, With(direct, e.stream, o.rx), e.stream, o.calls);
    if o.calls == [] {
      Quiet(x, direct, e.stream, o);
      Quiet(x, DeliverDatagram(x, r, d, false), e.stream, o);
      MixedQuiet(x, r, e.stream, o.rx, d, alias, request);
    } else if alias in begun.routes {
      MixedLoud(x, r, direct, e, o, d, alias, request);
    } else {
      DirectHolds(x, begun, d, alias);
    }
  }

  lemma RoutedRequest(p: Plane, alias: u64, request: u64)
    requires Routed(p, alias, request)
    ensures alias in p.routes && p.routes[alias] == request
  {
  }

  lemma Quiet(x: Context, p: Plane, s: u64, o: Outcome)
    requires o.calls == []
    ensures Becomes(x, p, s, o) == With(p, s, o.rx)
  {
  }

  lemma MixedLoud(x: Context, r: Plane, direct: Plane, e: Early, o: Outcome, d: bytes, alias: u64, request: u64)
    requires SubgroupWire.ParseHeader(BytesOf(e)).Done? && o == Establish(ParkedAs(e), e.stream, request)
    requires Installing(r, alias, request) && Table(r) && direct.log == r.log && Routed(direct, alias, request)
    requires IsFor(d, alias) && o.calls != []
    requires alias in Becomes(x, direct, e.stream, o).routes
    ensures Settled(Becomes(x, DeliverDatagram(x, r, d, false), e.stream, o), alias, request) !=
            DeliverDatagram(x, Becomes(x, direct, e.stream, o), d, true)
  {
    hide ApplyAll, Apply, DeliverDatagram, Table, IsFor, Settled, SubgroupWire.ParseHeader, Feed;
    var n, s := |r.log|, e.stream;
    DatagramSays(x, r, d, alias, request);
    var r1 := DeliverDatagram(x, r, d, false);
    var early := Becomes(x, r1, s, o);
    ApplyAllGrows(x, With(r1, s, o.rx), s, o.calls);
    SettledKeeps(early, alias, request);
    assert early.log[n] == r1.log[n];
    var h := SubgroupWire.ParseHeader(BytesOf(e));
    FirstCall(Binding(h.value, request, s), h.value.subgroup, h.rest, AnyFin(e.arrivals));
    var p0 := With(direct, s, o.rx);
    assert Routed(p0, alias, request) by { SameTable(direct, p0); }
    StreamSays(x, p0, s, o.calls[0], alias, request);
    ApplyFirst(x, p0, s, o.calls);
    var p1 := Apply(x, p0, s, o.calls[0]);
    ApplyAllTables(x, p1, s, o.calls[1..]);
    ApplyAllGrows(x, p1, s, o.calls[1..]);
    var begun := Becomes(x, direct, s, o);
    assert begun.log[n] == p1.log[n];
    DatagramGrows(x, begun, d);
    assert DeliverDatagram(x, begun, d, true).log[n] == begun.log[n];
  }

  lemma DatagramGrows(x: Context, p: Plane, d: bytes)
    ensures p.log <= DeliverDatagram(x, p, d, true).log
  {
    hide Emit, DataPlanes.Deliver, Datagrams.ParseHead, Datagrams.ParseBody, Varint.Take;
    EmitLog(x, p, ProtocolError);
    var head := Datagrams.ParseHead(d);
    if head.Done? && head.value.alias in p.routes {
      var h := head.value;
      var body := Datagrams.ParseBody(h, head.rest, p.routes[h.alias]);
      if body.Done? {
        DeliverGrows(x, p, body.value);
        DeliverGrows(x, Mark(p, body.value.request, h.group, h.id), body.value);
      }
    }
  }
}

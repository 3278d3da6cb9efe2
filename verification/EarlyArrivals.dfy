/**
 * Streams that come before their route: like early datagrams, they leave the plane as they would have
 * with the route there first, if and only if the request is not stopped before the last of their
 * objects is delivered.
 */
module EarlyArrivals {
  import opened Basics
  import opened Reception
  import opened DataPlanes
  import opened DataPlaneInvariants
  import opened DataPlaneTheorems
  import opened Handover
  import opened Settling
  import opened EarlyDatagrams
  import Datagrams
  import RetiredRoutes
  import SubgroupWire
  import Varint

  /** A stream and the events on it. */
  datatype Early = Early(stream: u64, arrivals: seq<Arrival>)

  function BytesOf(e: Early): bytes {
    AllBytes(e.arrivals)
  }

  /** The stream is started and its events arrive. */
  function Begin(x: Context, p: Plane, e: Early): Plane {
    ReceiveEach(x, StartStream(x, p, e.stream, [], false), e.stream, e.arrivals)
  }

  function BeginAll(x: Context, p: Plane, es: seq<Early>): Plane
    decreases |es|
  {
    if es == [] then p else BeginAll(x, Begin(x, p, es[0]), es[1..])
  }

  /** The header is complete and names the alias, and the rest may be held. */
  predicate ParksFor(x: Context, e: Early, alias: u64) {
    && e.arrivals != [] && Reception.WellFormed(e.arrivals)
    && var h := SubgroupWire.ParseHeader(BytesOf(e));
       h.Done? && h.value.alias == alias && |h.rest| <= x.config.maxStreamBytes
  }

  /** The receiver of a stream that has been parked. */
  function ParkedAs(e: Early): Receiver
    requires SubgroupWire.ParseHeader(BytesOf(e)).Done?
  {
    var h := SubgroupWire.ParseHeader(BytesOf(e));
    Waiting(h.value, h.rest, AnyFin(e.arrivals))
  }

  predicate Newcomers(p: Plane, es: seq<Early>) {
    && (forall i :: 0 <= i < |es| ==> es[i].stream !in p.receivers)
    && (forall i, j :: 0 <= i < j < |es| ==> es[i].stream != es[j].stream)
  }

  predicate AllPark(x: Context, es: seq<Early>, alias: u64) {
    forall i :: 0 <= i < |es| ==> ParksFor(x, es[i], alias)
  }

  predicate PlacesFor(x: Context, p: Plane, n: nat) {
    x.config.policy.Buffer? && p.pendingCount + n <= x.config.maxPending
  }

  /** What the receiver of a stream makes of all its bytes when the stream begins. */
  function OutcomeOf(x: Context, p: Plane, e: Early): Outcome {
    Receive(Opening([]), EnvOf(x, p, e.stream), BytesOf(e), AnyFin(e.arrivals))
  }

  /** The alias has its route when the stream begins, and whenever one of its objects is delivered. */
  predicate LiveStart(x: Context, p: Plane, e: Early, alias: u64) {
    var o := OutcomeOf(x, p, e);
    alias in p.routes && LiveCalls(x, With(p, e.stream, o.rx), e.stream, o.calls, alias)
  }

  predicate LiveStarts(x: Context, p: Plane, es: seq<Early>, alias: u64)
    decreases |es|
  {
    es == [] || (LiveStart(x, p, es[0], alias) && LiveStarts(x, Begin(x, p, es[0]), es[1..], alias))
  }

  function Ids(es: seq<Early>): seq<u64> {
    if es == [] then [] else [es[0].stream] + Ids(es[1..])
  }

  function WithAll(p: Plane, es: seq<Early>): Plane
    requires forall i :: 0 <= i < |es| ==> SubgroupWire.ParseHeader(BytesOf(es[i])).Done?
    decreases |es|
  {
    if es == [] then p else WithAll(With(p, es[0].stream, ParkedAs(es[0])), es[1..])
  }

  /** All its events at once: the stream is as if it had been started with all its bytes. */
  lemma BeginAtOnce(x: Context, p: Plane, e: Early)
    requires e.stream !in p.receivers && e.arrivals != [] && Reception.WellFormed(e.arrivals)
    ensures Begin(x, p, e) == Becomes(x, p, e.stream, OutcomeOf(x, p, e))
  {
    hide Receive, ApplyAll, ReceiveEach, Reception.WellFormed;
    var p0 := With(p, e.stream, Opening([]));
    StartsEmpty(x, p, e.stream);
    PlaneFragmentation(x, p0, e.stream, e.arrivals);
    var o := OutcomeOf(x, p, e);
    assert With(p0, e.stream, o.rx) == With(p, e.stream, o.rx);
  }

  lemma StartsEmpty(x: Context, p: Plane, s: u64)
    requires s !in p.receivers
    ensures StartStream(x, p, s, [], false) == With(p, s, Opening([]))
  {
    hide Drain;
    var p0 := With(p, s, Opening([]));
    assert SubgroupWire.ParseHeader([]) == More by { EmptyHeader(); }
    assert Receive(Opening([]), EnvOf(x, p0, s), [], false) == Outcome(Opening([]), []);
    assert With(p0, s, Opening([])) == p0;
  }

  lemma EmptyHeader()
    ensures SubgroupWire.ParseHeader([]) == More
  {
    assert Varint.Take([]).More?;
  }

  /** What a stream that can be parked makes of its bytes, without and with a route. */
  lemma ParksOrBinds(x: Context, p: Plane, e: Early, alias: u64)
    requires ParksFor(x, e, alias)
    ensures var o := OutcomeOf(x, p, e);
            && (alias !in p.routes && PlacesFor(x, p, 1) ==> o == Outcome(ParkedAs(e), [Call.Park(alias)]))
            && (alias in p.routes ==> o == Establish(ParkedAs(e), e.stream, p.routes[alias]))
  {
    hide Feed, SubgroupWire.ParseHeader, Reception.WellFormed;
    assert [] + BytesOf(e) == BytesOf(e);
    var h := SubgroupWire.ParseHeader(BytesOf(e));
    if alias in p.routes {
      FeedPlain(Binding(h.value, p.routes[alias], e.stream), Position(h.value.subgroup, None), h.rest,
          AnyFin(e.arrivals));
    }
  }

  lemma ParkedNow(x: Context, p: Plane, e: Early, alias: u64)
    requires ParksFor(x, e, alias) && alias !in p.routes && PlacesFor(x, p, 1) && e.stream !in p.receivers
    ensures Begin(x, p, e) == DataPlanes.Park(With(p, e.stream, ParkedAs(e)), alias, e.stream)
  {
    hide Receive, ApplyAll, Begin, DataPlanes.Park, SubgroupWire.ParseHeader, Reception.WellFormed;
    BeginAtOnce(x, p, e);
    ParksOrBinds(x, p, e, alias);
    ApplyOne(x, With(p, e.stream, ParkedAs(e)), e.stream, Call.Park(alias));
  }

  /** Claiming the alias takes a parked stream out of the tables again. */
  lemma ClaimedParked(p: Plane, s: u64, rx: Receiver, alias: u64, request: u64)
    requires |Streams(p, alias)| <= p.pendingCount
    ensures var q := DataPlanes.Park(With(p, s, rx), alias, s);
            && Claimed(q, alias, request) == With(Claimed(p, alias, request), s, rx)
            && Streams(q, alias) == Streams(p, alias) + [s] && |Streams(q, alias)| <= q.pendingCount
            && q.routes == p.routes && q.datagrams == p.datagrams
  {
    var q := DataPlanes.Park(With(p, s, rx), alias, s);
    assert q.pending - {alias} == p.pending - {alias};
  }

  lemma FewerNewcomers(p: Plane, es: seq<Early>, q: Plane)
    requires es != [] && Newcomers(p, es) && q.receivers.Keys == p.receivers.Keys + {es[0].stream}
    ensures Newcomers(q, es[1..])
  {
    assert forall i :: 0 <= i < |es| - 1 ==> es[1..][i] == es[i + 1];
  }

  lemma {:induction false} AllParked(x: Context, p: Plane, es: seq<Early>, alias: u64, request: u64)
    requires alias !in p.routes && AllPark(x, es, alias) && PlacesFor(x, p, |es|) && Newcomers(p, es)
    requires |Streams(p, alias)| <= p.pendingCount
    ensures var q := BeginAll(x, p, es);
            && Claimed(q, alias, request) == WithAll(Claimed(p, alias, request), es)
            && Streams(q, alias) == Streams(p, alias) + Ids(es) && Held(q, alias) == Held(p, alias)
                && alias !in q.routes
    decreases |es|
  {
    hide Begin, Claimed, DataPlanes.Park, SubgroupWire.ParseHeader, Reception.WellFormed, Newcomers;
    if es == [] {
      assert Streams(p, alias) + [] == Streams(p, alias);
    } else {
      var e := es[0];
      assert ParksFor(x, e, alias);
      assert e.stream !in p.receivers by { FirstIsNew(p, es); }
      ParkedNow(x, p, e, alias);
      ClaimedParked(p, e.stream, ParkedAs(e), alias, request);
      var p1 := Begin(x, p, e);
      ParkFields(p, e.stream, ParkedAs(e), alias);
      FewerNewcomers(p, es, p1);
      assert AllPark(x, es[1..], alias);
      AllParked(x, p1, es[1..], alias, request);
      assert Streams(p, alias) + [e.stream] + Ids(es[1..]) == Streams(p, alias) + Ids(es);
    }
  }

  lemma FirstIsNew(p: Plane, es: seq<Early>)
    requires es != [] && Newcomers(p, es)
    ensures es[0].stream !in p.receivers
  {
  }

  lemma ParkFields(p: Plane, s: u64, rx: Receiver, alias: u64)
    ensures var q := DataPlanes.Park(With(p, s, rx), alias, s);
            q.receivers.Keys == p.receivers.Keys + {s} && q.pendingCount == p.pendingCount + 1
  {
  }

  // ----- replays do not look at the receivers of other streams -----

  lemma DatagramWith(x: Context, p: Plane, d: bytes, s: u64, rx: Receiver)
    ensures DeliverDatagram(x, With(p, s, rx), d, false) == With(DeliverDatagram(x, p, d, false), s, rx)
  {
    hide Emit, DataPlanes.Deliver, Datagrams.ParseHead, Datagrams.ParseBody, Varint.Take;
    EmitWith(x, p, ProtocolError, s, rx);
    var head := Datagrams.ParseHead(d);
    if head.Done? && head.value.alias in p.routes {
      var h := head.value;
      var body := Datagrams.ParseBody(h, head.rest, p.routes[h.alias]);
      if body.Done? {
        DeliverWith(x, p, body.value, s, rx);
        DeliverWith(x, Mark(p, body.value.request, h.group, h.id), body.value, s, rx);
      }
    }
  }

  lemma CountingWith(p: Plane, n: nat, s: u64, rx: Receiver)
    ensures With(p, s, rx).heldBytes == p.heldBytes
    ensures With(p, s, rx).(heldBytes := n) == With(p.(heldBytes := n), s, rx)
  {
  }

  lemma {:induction false} ReplayDatagramsWith(x: Context, p: Plane, ds: seq<bytes>, s: u64, rx: Receiver)
    ensures ReplayDatagrams(x, With(p, s, rx), ds) == With(ReplayDatagrams(x, p, ds), s, rx)
    decreases |ds|
  {
    hide DeliverDatagram, With;
    if ds != [] {
      var left := if |ds[0]| <= p.heldBytes then p.heldBytes - |ds[0]| else 0;
      var p1 := p.(heldBytes := left);
      assert With(p, s, rx).heldBytes == p.heldBytes && With(p, s, rx).(heldBytes := left) == With(p1, s, rx) by {
        CountingWith(p, left, s, rx);
      }
      DatagramWith(x, p1, ds[0], s, rx);
      ReplayDatagramsWith(x, DeliverDatagram(x, p1, ds[0], false), ds[1..], s, rx);
    }
  }

  lemma BecomesWith(x: Context, p: Plane, t: u64, o: Outcome, s: u64, rx: Receiver)
    requires s != t
    ensures Becomes(x, With(p, s, rx), t, o) == With(Becomes(x, p, t, o), s, rx)
  {
    hide ApplyAll;
    ApplyAllWith(x, With(p, t, o.rx), t, o.calls, s, rx);
    assert With(With(p, s, rx), t, o.rx) == With(With(p, t, o.rx), s, rx);
  }

  lemma {:induction false} ReplayStreamsWith(x: Context, p: Plane, ss: seq<u64>, request: u64, s: u64, rx: Receiver)
    requires s !in ss
    ensures ReplayStreams(x, With(p, s, rx), ss, request) == With(ReplayStreams(x, p, ss, request), s, rx)
    decreases |ss|
  {
    hide Becomes, Establish;
    if ss != [] {
      if ss[0] in p.receivers {
        var o := Establish(p.receivers[ss[0]], ss[0], request);
        BecomesWith(x, p, ss[0], o, s, rx);
        ReplayStreamsWith(x, Becomes(x, p, ss[0], o), ss[1..], request, s, rx);
      } else {
        ReplayStreamsWith(x, p, ss[1..], request, s, rx);
      }
    }
  }

  predicate Apartness(es: seq<Early>, ss: seq<u64>) {
    forall i :: 0 <= i < |es| ==> es[i].stream !in ss
  }

  /** Both replays of what was there before, with the newcomers' receivers in place. */
  lemma {:induction false} ReplaysWithAll(x: Context, p: Plane, ds: seq<bytes>, ss: seq<u64>, request: u64,
                                          es: seq<Early>)
    requires Apartness(es, ss) && forall i :: 0 <= i < |es| ==> SubgroupWire.ParseHeader(BytesOf(es[i])).Done?
    ensures ReplayStreams(x, ReplayDatagrams(x, WithAll(p, es), ds), ss, request) ==
            WithAll(ReplayStreams(x, ReplayDatagrams(x, p, ds), ss, request), es)
    decreases |es|
  {
    hide ReplayStreams, ReplayDatagrams, SubgroupWire.ParseHeader, ParkedAs;
    if es != [] {
      var s, rx := es[0].stream, ParkedAs(es[0]);
      ReplayDatagramsWith(x, p, ds, s, rx);
      ReplayStreamsWith(x, ReplayDatagrams(x, p, ds), ss, request, s, rx);
      ReplaysWithAll(x, With(p, s, rx), ds, ss, request, es[1..]);
    }
  }

  lemma {:induction false} ReplayStreamsJoin(x: Context, p: Plane, a: seq<u64>, b: seq<u64>, request: u64)
    ensures ReplayStreams(x, p, a + b, request) == ReplayStreams(x, ReplayStreams(x, p, a, request), b, request)
    decreases |a|
  {
    hide Becomes, Establish;
    if a == [] {
      assert a + b == b;
    } else {
      assert (a + b)[0] == a[0] && (a + b)[1..] == a[1..] + b;
      if a[0] in p.receivers {
        ReplayStreamsJoin(x, Becomes(x, p, a[0], Establish(p.receivers[a[0]], a[0], request)), a[1..], b, request);
      } else {
        ReplayStreamsJoin(x, p, a[1..], b, request);
      }
    }
  }

  /** Early installation: what was there is replayed first, then the newcomers in the order in which they came. */
  lemma InstallAfter(x: Context, p: Plane, es: seq<Early>, alias: u64, request: u64)
    requires alias !in p.routes && AllPark(x, es, alias) && PlacesFor(x, p, |es|) && Newcomers(p, es)
    requires |Streams(p, alias)| <= p.pendingCount && forall s :: s in Streams(p, alias) ==> s in p.receivers
    ensures forall i :: 0 <= i < |es| ==> SubgroupWire.ParseHeader(BytesOf(es[i])).Done?
    ensures Install(x, BeginAll(x, p, es), alias, request) ==
            Settled(ReplayStreams(x, WithAll(Replay(x, p, alias, request), es), Ids(es), request), alias, request)
  {
    hide Settled, ReplayStreams, ReplayDatagrams, Claimed, BeginAll, WithAll, SubgroupWire.ParseHeader,
         Reception.WellFormed, Streams, Held;
    AllParked(x, p, es, alias, request);
    assert forall i :: 0 <= i < |es| ==> ParksFor(x, es[i], alias);
    var q := Claimed(p, alias, request);
    ReplayStreamsJoin(x, ReplayDatagrams(x, WithAll(q, es), Held(p, alias)), Streams(p, alias), Ids(es), request);
    ReplaysWithAll(x, q, Held(p, alias), Streams(p, alias), request, es);
  }

  // ----- the newcomers -----

  /** A newcomer's start, seen with the receivers of later ones in place. */
  lemma {:induction false} BecomesWithAll(x: Context, p: Plane, t: u64, o: Outcome, es: seq<Early>)
    requires forall i :: 0 <= i < |es| ==> SubgroupWire.ParseHeader(BytesOf(es[i])).Done? && es[i].stream != t
    ensures Becomes(x, WithAll(p, es), t, o) == WithAll(Becomes(x, p, t, o), es)
    decreases |es|
  {
    hide Becomes, SubgroupWire.ParseHeader, ParkedAs;
    if es != [] {
      BecomesWith(x, p, t, o, es[0].stream, ParkedAs(es[0]));
      BecomesWithAll(x, With(p, es[0].stream, ParkedAs(es[0])), t, o, es[1..]);
    }
  }

  lemma {:induction false} WithAllReceivers(p: Plane, es: seq<Early>, s: u64)
    requires forall i :: 0 <= i < |es| ==> SubgroupWire.ParseHeader(BytesOf(es[i])).Done? && es[i].stream != s
    requires s in p.receivers
    ensures s in WithAll(p, es).receivers && WithAll(p, es).receivers[s] == p.receivers[s]
    decreases |es|
  {
    hide SubgroupWire.ParseHeader, ParkedAs;
    if es != [] {
      WithAllReceivers(With(p, es[0].stream, ParkedAs(es[0])), es[1..], s);
    }
  }

  /** The receivers that are there before and after a newcomer has begun. */
  lemma BegunReceivers(x: Context, p: Plane, e: Early, alias: u64)
    requires e.stream !in p.receivers && ParksFor(x, e, alias)
    ensures var q := Begin(x, p, e);
            && q.receivers.Keys == p.receivers.Keys + {e.stream}
            && (forall s :: s in p.receivers ==> q.receivers[s] == p.receivers[s])
            && (alias !in p.routes && PlacesFor(x, p, 1) ==> q.receivers[e.stream].Waiting?)
  {
    hide Receive, ApplyAll, Begin, SubgroupWire.ParseHeader, Reception.WellFormed;
    BeginAtOnce(x, p, e);
    ParksOrBinds(x, p, e, alias);
    var o := OutcomeOf(x, p, e);
    RetiredRoutes.KeepsReceivers(x, With(p, e.stream, o.rx), e.stream, o.calls);
  }

  /** Behind its route a newcomer changes nothing that is held; the route table only shrinks. */
  lemma BegunCalm(x: Context, p: Plane, e: Early, alias: u64)
    requires e.stream !in p.receivers && ParksFor(x, e, alias) && alias in p.routes
    ensures var q := Begin(x, p, e);
            && Begin(x, p, e) == Becomes(x, p, e.stream, Establish(ParkedAs(e), e.stream, p.routes[alias]))
            && q.pendingCount == p.pendingCount && (alias in q.routes ==> q.routes[alias] == p.routes[alias])
  {
    hide Receive, ApplyAll, Begin, Feed, SubgroupWire.ParseHeader, Reception.WellFormed, Table;
    BeginAtOnce(x, p, e);
    ParksOrBinds(x, p, e, alias);
    var h := SubgroupWire.ParseHeader(BytesOf(e));
    FeedPlain(Binding(h.value, p.routes[alias], e.stream), Position(h.value.subgroup, None), h.rest,
        AnyFin(e.arrivals));
    var o := Establish(ParkedAs(e), e.stream, p.routes[alias]);
    ApplyAllCalm(x, With(p, e.stream, o.rx), e.stream, o.calls);
  }

  lemma TailsApart(es: seq<Early>)
    requires es != [] && forall i, j :: 0 <= i < j < |es| ==> es[i].stream != es[j].stream
    ensures forall i :: 0 <= i < |es| - 1 ==> es[1..][i].stream != es[0].stream
  {
  }

  lemma {:induction false} IdsAre(es: seq<Early>)
    ensures |Ids(es)| == |es| && forall i :: 0 <= i < |es| ==> Ids(es)[i] == es[i].stream
  {
    if es != [] {
      IdsAre(es[1..]);
      assert forall i :: 1 <= i < |es| ==> es[i] == es[1..][i - 1];
    }
  }

  /** Establishing the newcomers begins with the first of them. */
  lemma EstablishFirst(x: Context, p: Plane, es: seq<Early>, request: u64)
    requires es != [] && Newcomers(p, es)
    requires forall i :: 0 <= i < |es| ==> SubgroupWire.ParseHeader(BytesOf(es[i])).Done?
    ensures var o := Establish(ParkedAs(es[0]), es[0].stream, request);
            ReplayStreams(x, WithAll(p, es), Ids(es), request) ==
            ReplayStreams(x, WithAll(Becomes(x, p, es[0].stream, o), es[1..]), Ids(es[1..]), request)
  {
    hide Becomes, Establish, SubgroupWire.ParseHeader, ParkedAs, Newcomers;
    var e, rest := es[0], es[1..];
    TailsApart(es) by { DistinctNewcomers(p, es); }
    var o := Establish(ParkedAs(e), e.stream, request);
    var pe := With(p, e.stream, ParkedAs(e));
    WithAllReceivers(pe, rest, e.stream);
    BecomesWithAll(x, pe, e.stream, o, rest);
    Overwritten(x, p, e.stream, ParkedAs(e), o);
    assert Ids(es)[0] == e.stream && Ids(es)[1..] == Ids(rest);
  }

  /** One newcomer, established during the installation and beginning after it. */
  lemma StartSettled(x: Context, p: Plane, e: Early, alias: u64, request: u64)
    requires Installing(p, alias, request) && Table(p) && e.stream !in p.receivers && ParksFor(x, e, alias)
    ensures var direct := Settled(p, alias, request);
            var early := Becomes(x, p, e.stream, Establish(ParkedAs(e), e.stream, request));
            && Installing(early, alias, request) && Table(early)
            && (LiveStart(x, direct, e, alias) ==> Settled(early, alias, request) == Begin(x, direct, e))
            && (alias in direct.routes && !LiveStart(x, direct, e, alias) ==>
                  Parted(early.log, Begin(x, direct, e), request))
  {
    hide Receive, ApplyAll, Begin, Establish, Settled, SubgroupWire.ParseHeader, Reception.WellFormed, Table, ParkedAs,
         Parted;
    var o, direct := Establish(ParkedAs(e), e.stream, request), Settled(p, alias, request);
    EstablishOnBehalf(ParkedAs(e), e.stream, request);
    var p1 := With(p, e.stream, o.rx);
    SameTable(p, p1);
    InstallingCalls(x, p1, e.stream, o.calls, alias, request);
    SettledFields(p, alias, request);
    if alias in direct.routes {
      BeginAtOnce(x, direct, e);
      ParksOrBinds(x, direct, e, alias);
      SettledWith(p, e.stream, o.rx, alias, request);
      CallsSettled(x, p1, e.stream, o.calls, alias, request);
    }
  }

  lemma SettledWith(p: Plane, s: u64, rx: Receiver, alias: u64, request: u64)
    ensures Settled(With(p, s, rx), alias, request) == With(Settled(p, alias, request), s, rx)
  {
    hide Retire;
    RetireWith(p, alias, s, rx);
  }

  /** A stream waits in one plane and not in the other. */
  predicate WaitsOnlyIn(direct: Plane, early: Plane) {
    exists s :: s in direct.receivers && s in early.receivers && direct.receivers[s].Waiting?
                && !early.receivers[s].Waiting?
  }

  /** The newcomers, established one by one during the installation or beginning one by one after it. */
  lemma {:induction false} StartsSettled(x: Context, p: Plane, es: seq<Early>, alias: u64, request: u64)
    requires Installing(p, alias, request) && Table(p)
    requires AllPark(x, es, alias) && Newcomers(p, es) && PlacesFor(x, p, |es|)
    ensures forall i :: 0 <= i < |es| ==> SubgroupWire.ParseHeader(BytesOf(es[i])).Done?
    ensures var early := ReplayStreams(x, WithAll(p, es), Ids(es), request);
            var direct := BeginAll(x, Settled(p, alias, request), es);
            if LiveStarts(x, Settled(p, alias, request), es, alias) then Settled(early, alias, request) == direct
            else Parted(early.log, direct, request) || WaitsOnlyIn(direct, early)
    decreases |es|
  {
    hide Becomes, Establish, Begin, SubgroupWire.ParseHeader, Reception.WellFormed, ParkedAs, Newcomers, Settled,
         Table, Parted, WaitsOnlyIn, LiveStart;
    assert forall i :: 0 <= i < |es| ==> ParksFor(x, es[i], alias);
    if es != [] {
      var e, rest, direct := es[0], es[1..], Settled(p, alias, request);
      FirstIsNew(p, es);
      SettledFields(p, alias, request);
      StartSettled(x, p, e, alias, request);
      EstablishFirst(x, p, es, request);
      var p1 := Becomes(x, p, e.stream, Establish(ParkedAs(e), e.stream, request));
      EstablishedFields(x, p, e, request);
      FewerNewcomers(p, es, p1);
      assert AllPark(x, rest, alias);
      LiveIsRouted(x, direct, e, alias);
      if alias !in direct.routes {
        UnroutedWaits(x, p, es, alias, request);
      } else if LiveStart(x, direct, e, alias) {
        StartsSettled(x, p1, rest, alias, request);
      } else {
        PartedStarts(x, p1, Begin(x, direct, e), rest, request);
      }
    }
  }

  lemma LiveIsRouted(x: Context, p: Plane, e: Early, alias: u64)
    ensures LiveStart(x, p, e, alias) ==> alias in p.routes
  {
  }

  lemma EstablishedFields(x: Context, p: Plane, e: Early, request: u64)
    requires SubgroupWire.ParseHeader(BytesOf(e)).Done?
    ensures var q := Becomes(x, p, e.stream, Establish(ParkedAs(e), e.stream, request));
            q.receivers.Keys == p.receivers.Keys + {e.stream} && q.pendingCount == p.pendingCount
  {
    hide ApplyAll, Establish, SubgroupWire.ParseHeader, ParkedAs, Table;
    var o := Establish(ParkedAs(e), e.stream, request);
    EstablishOnBehalf(ParkedAs(e), e.stream, request);
    ApplyAllCalm(x, With(p, e.stream, o.rx), e.stream, o.calls);
  }

  /** A newcomer that begins after the route has been retired is parked, and waits. */
  lemma UnroutedWaits(x: Context, p: Plane, es: seq<Early>, alias: u64, request: u64)
    requires Installing(p, alias, request) && alias !in Settled(p, alias, request).routes
    requires es != [] && AllPark(x, es, alias) && Newcomers(p, es) && PlacesFor(x, p, |es|)
    ensures forall i :: 0 <= i < |es| ==> SubgroupWire.ParseHeader(BytesOf(es[i])).Done?
    ensures WaitsOnlyIn(BeginAll(x, Settled(p, alias, request), es),
                        ReplayStreams(x, WithAll(p, es), Ids(es), request))
  {
    hide Begin, SubgroupWire.ParseHeader, Reception.WellFormed, Newcomers, Settled, ReplayStreams, ParkedAs;
    assert forall i :: 0 <= i < |es| ==> ParksFor(x, es[i], alias);
    var e, direct := es[0], Settled(p, alias, request);
    FirstIsNew(p, es);
    SettledFields(p, alias, request);
    SameNewcomers(p, direct, es);
    BegunReceivers(x, direct, e, alias);
    FewerNewcomers(direct, es, Begin(x, direct, e));
    assert AllPark(x, es[1..], alias);
    ReceiverStays(x, Begin(x, direct, e), es[1..], alias, e.stream);
    assert e.stream in Ids(es) by { assert Ids(es)[0] == e.stream; }
    NewcomersArePlaced(p, es, e.stream);
    EstablishedDoNotWait(x, WithAll(p, es), Ids(es), request, e.stream);
    assert BeginAll(x, direct, es) == BeginAll(x, Begin(x, direct, e), es[1..]);
  }

  lemma BeginSilent(x: Context, p: Plane, e: Early, request: u64)
    requires RetiredRoutes.Retired(p, request)
    ensures RetiredRoutes.LogExtends(p, Begin(x, p, e), request)
  {
    hide StartStream, ReceiveEach, RetiredRoutes.LogExtends;
    var p1 := StartStream(x, p, e.stream, [], false);
    RetiredRoutes.StepSilent(x, p, Start(e.stream, [], false), request);
    assert RetiredRoutes.Retired(p1, request) by { RetiredRoutes.SilentRetired(p, p1, request); }
    ReceiveEachSilent(x, p1, e.stream, e.arrivals, request);
    RetiredRoutes.ExtendsJoin(p, p1, Begin(x, p, e), request);
  }

  lemma {:induction false} ReceiveEachSilent(x: Context, p: Plane, s: u64, arrivals: seq<Arrival>, request: u64)
    requires RetiredRoutes.Retired(p, request)
    ensures RetiredRoutes.LogExtends(p, ReceiveEach(x, p, s, arrivals), request)
    decreases |arrivals|
  {
    hide StreamReceive, RetiredRoutes.LogExtends;
    if arrivals == [] {
      RetiredRoutes.SameSilent(p, request);
    } else {
      var a := arrivals[0];
      var p1 := StreamReceive(x, p, s, a.received, a.fin);
      RetiredRoutes.StepSilent(x, p, Data(s, a.received, a.fin), request);
      assert RetiredRoutes.Retired(p1, request) by { RetiredRoutes.SilentRetired(p, p1, request); }
      ReceiveEachSilent(x, p1, s, arrivals[1..], request);
      RetiredRoutes.ExtendsJoin(p, p1, ReceiveEach(x, p, s, arrivals), request);
    }
  }

  lemma {:induction false} BeginAllSilent(x: Context, p: Plane, es: seq<Early>, request: u64)
    requires RetiredRoutes.Retired(p, request)
    ensures RetiredRoutes.LogExtends(p, BeginAll(x, p, es), request)
    decreases |es|
  {
    hide Begin, RetiredRoutes.LogExtends;
    if es == [] {
      RetiredRoutes.SameSilent(p, request);
    } else {
      var p1 := Begin(x, p, es[0]);
      BeginSilent(x, p, es[0], request);
      assert RetiredRoutes.Retired(p1, request) by { RetiredRoutes.SilentRetired(p, p1, request); }
      BeginAllSilent(x, p1, es[1..], request);
      RetiredRoutes.ExtendsJoin(p, p1, BeginAll(x, p, es), request);
    }
  }

  lemma {:induction false} WithAllLog(p: Plane, es: seq<Early>)
    requires forall i :: 0 <= i < |es| ==> SubgroupWire.ParseHeader(BytesOf(es[i])).Done?
    ensures WithAll(p, es).log == p.log
    decreases |es|
  {
    hide SubgroupWire.ParseHeader, ParkedAs;
    if es != [] {
      WithAllLog(With(p, es[0].stream, ParkedAs(es[0])), es[1..]);
    }
  }

  /** Planes that have parted do not meet again. */
  lemma PartedStarts(x: Context, early: Plane, direct: Plane, es: seq<Early>, request: u64)
    requires Parted(early.log, direct, request)
    requires forall i :: 0 <= i < |es| ==> SubgroupWire.ParseHeader(BytesOf(es[i])).Done?
    ensures Parted(ReplayStreams(x, WithAll(early, es), Ids(es), request).log, BeginAll(x, direct, es), request)
  {
    hide ReplayStreams, BeginAll, SubgroupWire.ParseHeader, RetiredRoutes.LogExtends;
    WithAllLog(early, es);
    ReplayStreamsGrows(x, WithAll(early, es), Ids(es), request);
    BeginAllSilent(x, direct, es, request);
    PartedGrows(early.log, ReplayStreams(x, WithAll(early, es), Ids(es), request).log, direct,
                BeginAll(x, direct, es), request);
  }

  lemma DistinctNewcomers(p: Plane, es: seq<Early>)
    requires Newcomers(p, es)
    ensures forall i, j :: 0 <= i < j < |es| ==> es[i].stream != es[j].stream
  {
  }

  lemma Overwritten(x: Context, p: Plane, s: u64, rx: Receiver, o: Outcome)
    ensures Becomes(x, With(p, s, rx), s, o) == Becomes(x, p, s, o)
  {
    hide ApplyAll;
    assert With(With(p, s, rx), s, o.rx) == With(p, s, o.rx);
  }

  // ----- and without the route -----

  /** A newcomer keeps the receiver it has been given, whatever comes after it. */
  lemma {:induction false} ReceiverStays(x: Context, p: Plane, es: seq<Early>, alias: u64, s: u64)
    requires AllPark(x, es, alias) && Newcomers(p, es) && s in p.receivers
    ensures s in BeginAll(x, p, es).receivers && BeginAll(x, p, es).receivers[s] == p.receivers[s]
    decreases |es|
  {
    hide Begin, SubgroupWire.ParseHeader, Reception.WellFormed, Newcomers;
    if es != [] {
      assert ParksFor(x, es[0], alias);
      FirstIsNew(p, es);
      BegunReceivers(x, p, es[0], alias);
      FewerNewcomers(p, es, Begin(x, p, es[0]));
      assert AllPark(x, es[1..], alias);
      ReceiverStays(x, Begin(x, p, es[0]), es[1..], alias, s);
    }
  }

  /** A stream that has been established does not wait any more. */
  lemma {:induction false} EstablishedDoNotWait(x: Context, p: Plane, ss: seq<u64>, request: u64, s: u64)
    requires s in p.receivers && (s in ss || !p.receivers[s].Waiting?)
    ensures var q := ReplayStreams(x, p, ss, request); s in q.receivers && !q.receivers[s].Waiting?
    decreases |ss|
  {
    hide Becomes, Feed;
    if ss != [] {
      if ss[0] in p.receivers {
        var rx := p.receivers[ss[0]];
        var o := Establish(rx, ss[0], request);
        if rx.Waiting? {
          FeedPlain(Binding(rx.header, request, ss[0]), Position(rx.header.subgroup, None), rx.stash, rx.finPending);
        }
        BecomesReceivers(x, p, ss[0], o);
        EstablishedDoNotWait(x, Becomes(x, p, ss[0], o), ss[1..], request, s);
      } else {
        EstablishedDoNotWait(x, p, ss[1..], request, s);
      }
    }
  }

  lemma BecomesReceivers(x: Context, p: Plane, s: u64, o: Outcome)
    ensures Becomes(x, p, s, o).receivers == p.receivers[s := o.rx]
  {
    hide ApplyAll;
    RetiredRoutes.KeepsReceivers(x, With(p, s, o.rx), s, o.calls);
  }

  lemma {:induction false} NewcomersArePlaced(p: Plane, es: seq<Early>, s: u64)
    requires forall i :: 0 <= i < |es| ==> SubgroupWire.ParseHeader(BytesOf(es[i])).Done?
    requires s in Ids(es) || s in p.receivers
    ensures s in WithAll(p, es).receivers
    decreases |es|
  {
    hide SubgroupWire.ParseHeader, ParkedAs;
    if es != [] {
      NewcomersArePlaced(With(p, es[0].stream, ParkedAs(es[0])), es[1..], s);
    }
  }

  /** What the replays leave of the tables that matter to newcomers. */
  lemma InstalledFields(x: Context, p: Plane, alias: u64, request: u64)
    requires alias !in p.routes && Good(x, p) && request !in p.states
    ensures var q := Replay(x, p, alias, request);
            && q.receivers.Keys == p.receivers.Keys && q.pendingCount <= p.pendingCount
            && Installing(q, alias, request) && Table(q)
            && Install(x, p, alias, request) == Settled(q, alias, request)
  {
    hide ReplayStreams, ReplayDatagrams, Claimed, Good, Table, Settled;
    ClaimedFields(p, alias, request);
    ReplayDatagramsFields(x, Claimed(p, alias, request), Held(p, alias));
    ReplayStreamsFields(x, ReplayDatagrams(x, Claimed(p, alias, request), Held(p, alias)), Streams(p, alias), request);
    assert Table(p) && p.busy.None? by { GoodTable(x, p); }
    ReplayInstalling(x, p, alias, request);
  }

  lemma {:induction false} ReplayDatagramsFields(x: Context, p: Plane, ds: seq<bytes>)
    ensures var q := ReplayDatagrams(x, p, ds);
            && q.receivers == p.receivers && q.pendingCount == p.pendingCount
            && (forall a :: a in q.routes ==> a in p.routes && q.routes[a] == p.routes[a])
    decreases |ds|
  {
    hide DeliverDatagram, Table;
    if ds != [] {
      var left := if |ds[0]| <= p.heldBytes then p.heldBytes - |ds[0]| else 0;
      DatagramEffect(x, p.(heldBytes := left), ds[0], false);
      ReplayDatagramsFields(x, DeliverDatagram(x, p.(heldBytes := left), ds[0], false), ds[1..]);
    }
  }

  lemma {:induction false} ReplayStreamsFields(x: Context, p: Plane, ss: seq<u64>, request: u64)
    ensures var q := ReplayStreams(x, p, ss, request);
            && q.receivers.Keys == p.receivers.Keys && q.pendingCount == p.pendingCount
            && (forall a :: a in q.routes ==> a in p.routes && q.routes[a] == p.routes[a])
    decreases |ss|
  {
    hide Feed, ApplyAll, Table;
    if ss != [] && ss[0] in p.receivers {
      var rx := p.receivers[ss[0]];
      var o := Establish(rx, ss[0], request);
      if rx.Waiting? {
        FeedPlain(Binding(rx.header, request, ss[0]), Position(rx.header.subgroup, None), rx.stash, rx.finPending);
      }
      ApplyAllCalm(x, With(p, ss[0], o.rx), ss[0], o.calls);
      ReplayStreamsFields(x, Becomes(x, p, ss[0], o), ss[1..], request);
    } else if ss != [] {
      ReplayStreamsFields(x, p, ss[1..], request);
    }
  }

  /**
   * Early streams, however many and however each is cut, behind whatever was held before them: if all
   * of them can be parked, then installing the route leaves the plane as installing it first would, if
   * and only if, with the route first, the alias would have its route whenever one of them begins and
   * whenever one of their objects is delivered.
   */
  lemma EarlyStreamsExact(x: Context, p: Plane, es: seq<Early>, alias: u64, request: u64)
    requires Good(x, p) && alias !in p.routes && request !in p.states
    requires AllPark(x, es, alias) && PlacesFor(x, p, |es|) && Newcomers(p, es)
    ensures Install(x, BeginAll(x, p, es), alias, request) == BeginAll(x, Install(x, p, alias, request), es) <==>
            LiveStarts(x, Install(x, p, alias, request), es, alias)
  {
    hide Install, BeginAll, WithAll, ReplayStreams, Good, SubgroupWire.ParseHeader, Reception.WellFormed, Newcomers,
         LiveStarts, Replay, Settled, Table, Parted, WaitsOnlyIn;
    var r := Replay(x, p, alias, request);
    ParkedAreKnown(x, p, alias);
    InstallAfter(x, p, es, alias, request);
    InstalledFields(x, p, alias, request);
    assert Newcomers(r, es) by { SameNewcomers(p, r, es); }
    StartsSettled(x, r, es, alias, request);
    SettledApart(ReplayStreams(x, WithAll(r, es), Ids(es), request), BeginAll(x, Install(x, p, alias, request), es),
                 alias, request);
  }

  lemma SettledApart(early: Plane, direct: Plane, alias: u64, request: u64)
    ensures Parted(early.log, direct, request) || WaitsOnlyIn(direct, early) ==>
            Settled(early, alias, request) != direct
  {
    var settled := Settled(early, alias, request);
    assert settled.log == early.log && settled.receivers == early.receivers;
  }

  lemma SameNewcomers(p: Plane, q: Plane, es: seq<Early>)
    requires Newcomers(p, es) && q.receivers.Keys == p.receivers.Keys
    ensures Newcomers(q, es)
  {
  }
}

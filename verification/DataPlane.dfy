/**
 * The receive plane in the form of the source: tables and counters that its methods update in place,
 * and the part of the subscription requests that goes with them: which alias each has been given.
 */
module DataPlaneObject {
  import opened Basics
  import opened Reception
  import opened DataPlanes
  import opened DataPlaneInvariants
  import opened DataPlaneTheorems
  import Delivery
  import Datagrams
  import Varint

  class DataPlane {
    const x: Context
    var routes: map<u64, u64>
    var states: map<u64, Delivery.Route>
    var owned: map<u64, u64>
    var busy: Option<u64>
    var stopped: bool
    var pending: map<u64, seq<u64>>
    var pendingCount: nat
    var datagrams: map<u64, seq<bytes>>
    var heldBytes: nat
    var receivers: map<u64, Receiver>
    var log: seq<Callback>

    ghost function State(): Plane
      reads this
    {
      Plane(routes, states, owned, busy, stopped, pending, pendingCount, datagrams, heldBytes, receivers, log)
    }

    /** The accounting that holds whenever no method is running. */
    ghost predicate Valid()
      reads this
    {
      Good(x, State())
    }

    constructor (x: Context)
      ensures this.x == x && State() == EMPTY && Valid()
    {
      this.x := x;
      routes, states, owned, busy, stopped, pending, pendingCount := map[], map[], map[], None, false, map[], 0;
      datagrams, heldBytes, receivers, log := map[], 0, map[], [];
      new;
      Accounting(x, []);
    }

    /** A route is active exactly if it is in the table, also while callbacks and replays are running. */
    ghost predicate Consistent()
      reads this
    {
      Table(State())
    }

    /** retire_route. */
    method RetireRoute(alias: u64)
      modifies this
      ensures State() == Retire(old(State()), alias)
    {
      if alias in routes {
        var request := routes[alias];
        if request in states {
          states := states[request := states[request].(active := false)];
        }
        routes := routes - {alias};
      }
    }

    /** terminate: an alias that the request has not been given yet is left to the end of SUBSCRIBE_OK. */
    method StopSubscription(request: u64)
      modifies this
      ensures State() == Stop(old(State()), request)
      ensures old(Consistent()) ==> Consistent()
      ensures old(Valid()) ==> Valid()
    {
      hide Good, Table, Calm;
      ghost var was := State();
      if busy == Some(request) {
        stopped := true;
      } else if request in owned {
        RetireRoute(owned[request]);
        owned := owned - {request};
      }
      if Table(was) {
        StoppedTable(was, request);
      }
      if Good(x, was) {
        StopGood(x, was, request);
      }
    }

    /** terminate_subscriptions: every request is stopped, in whatever order. */
    method StopSubscriptions()
      requires Consistent()
      modifies this
      ensures State() == StopEvery(old(State())) && Consistent()
    {
      hide Table, Stop, StopEvery;
      ghost var was := State();
      var left := owned.Keys + (if busy.Some? then {busy.value} else {});
      while left != {}
        invariant Consistent() && StopEvery(State()) == StopEvery(was)
        invariant forall q :: q in owned ==> q in left
        invariant busy.Some? && !stopped ==> busy.value in left
      {
        var request :| request in left;
        StopEveryAfter(State(), request);
        StopFewer(State(), request);
        StopSubscription(request);
        left := left - {request};
      }
      NothingToStop(State());
    }

    /** A callback: what the session does about it, and then what the application stops while it runs. */
    method Callback(c: Callback)
      requires Consistent()
      modifies this
      ensures State() == Emit(x, old(State()), c) && Consistent()
    {
      hide Good, Stop, StopEvery, Table;
      ghost var was := State();
      var requests := x.stops(|log|);
      log := log + [c];
      SameTable(was, State());
      match c {
        case TrackError(request) => StopSubscription(request);
        case ProtocolError => StopSubscriptions();
        case HandedOver(_) =>
        case AbortReceive(_) =>
      }
      ghost var first := State();
      var i := 0;
      assert requests[0..] == requests;
      while i < |requests|
        invariant 0 <= i <= |requests| && Consistent()
        invariant StopAll(State(), requests[i..]) == StopAll(first, requests)
      {
        assert requests[i..][0] == requests[i] && requests[i..][1..] == requests[i + 1..];
        StopSubscription(requests[i]);
        i := i + 1;
      }
      assert requests[|requests|..] == [];
    }

    /** deliver. */
    method DeliverObject(o: Object)
      requires Consistent()
      modifies this
      ensures State() == DataPlanes.Deliver(x, old(State()), o) && Consistent()
    {
      hide Emit, Table;
      ghost var was := State();
      if o.request in states {
        var r := states[o.request];
        match Delivery.FateOf(r, o)
        case Ignored =>
        case Malformed => Callback(TrackError(o.request));
        case Handed =>
          RecordCalm(was, o.request, Delivery.Delivered(r, o));
          states := states[o.request := Delivery.Delivered(r, o)];
          Callback(HandedOver(o));
      }
    }

    method MarkEnd(request: u64, group: u64, id: u64)
      modifies this
      ensures State() == Mark(old(State()), request, group, id)
    {
      if request in states {
        states := states[request := Delivery.Marked(states[request], group, id)];
      }
    }

    /** find_or_park_subgroup: the route, or a place in the list, or neither. */
    method FindOrPark(alias: u64, stream: u64) returns (found: bool, route: Option<u64>)
      modifies this
      ensures alias in old(routes) ==> found && route == Some(old(routes)[alias]) && State() == old(State())
      ensures alias !in old(routes) ==> route == None && (found <==> old(pendingCount) < x.config.maxPending)
      ensures alias !in old(routes) ==>
                State() == if found then DataPlanes.Park(old(State()), alias, stream) else old(State())
    {
      if alias in routes {
        return true, Some(routes[alias]);
      }
      if pendingCount >= x.config.maxPending {
        return false, None;
      }
      ParkStream(alias, stream);
      return true, None;
    }

    method ParkStream(alias: u64, stream: u64)
      modifies this
      ensures State() == DataPlanes.Park(old(State()), alias, stream)
    {
      pending := pending[alias := (if alias in pending then pending[alias] else []) + [stream]];
      pendingCount := pendingCount + 1;
    }

    /** discard_pending_subgroup. */
    method DiscardPending(alias: u64, stream: u64)
      modifies this
      ensures State() == Discard(old(State()), alias, stream)
    {
      if alias !in pending {
        return;
      }
      var list := pending[alias];
      var left := RemoveStream(list, stream);
      var removed := |list| - |left|;
      pendingCount := if removed <= pendingCount then pendingCount - removed else 0;
      pending := if left == [] then pending - {alias} else pending[alias := left];
    }

    method ApplyCall(stream: u64, c: Call)
      requires Consistent() && (c.Park? ==> MayPark(c.alias))
      modifies this
      ensures State() == Apply(x, old(State()), stream, c) && Consistent()
    {
      hide Emit, DataPlanes.Deliver, Mark, DataPlanes.Park, Discard, Table;
      ghost var was := State();
      match c
      case Deliver(o) => DeliverObject(o);
      case Fail => Callback(ProtocolError);
      case GroupFinal(request, group, id) =>
        MarkCalm(was, request, group, id);
        MarkEnd(request, group, id);
      case Park(alias) =>
        var found, route := FindOrPark(alias, stream);
        assert found && route.None?;
        ParkTable(was, alias, stream);
      case Unpark(alias) =>
        DiscardPending(alias, stream);
        DiscardTable(was, alias, stream);
      case Abort =>
        log := log + [AbortReceive(stream)];
        SameTable(was, State());
    }

    /** find_or_park_subgroup would park a stream for the alias. */
    ghost predicate MayPark(alias: u64)
      reads this
    {
      alias !in routes && pendingCount < x.config.maxPending
    }

    /** A receiver takes on its new state and its calls reach the plane, in order. */
    method TakeOutcome(stream: u64, o: Outcome)
      requires Consistent()
      requires ParksFirst(o.calls) && (o.calls != [] && o.calls[0].Park? ==> MayPark(o.calls[0].alias))
      modifies this
      ensures State() == Becomes(x, old(State()), stream, o) && Consistent()
    {
      hide Apply, Table;
      ghost var was := State();
      receivers := receivers[stream := o.rx];
      ghost var first := State();
      SameTable(was, first);
      var i := 0;
      assert o.calls[0..] == o.calls;
      while i < |o.calls|
        invariant 0 <= i <= |o.calls| && (i == 0 ==> State() == first) && Consistent()
        invariant ApplyAll(x, State(), stream, o.calls[i..]) == ApplyAll(x, first, stream, o.calls)
      {
        assert o.calls[i..][0] == o.calls[i] && o.calls[i..][1..] == o.calls[i + 1..];
        ApplyCall(stream, o.calls[i]);
        i := i + 1;
      }
      assert o.calls[|o.calls|..] == [];
    }

    /** on_receive of the stream's receiver. */
    method OnReceive(stream: u64, received: bytes, fin: bool)
      requires Valid()
      modifies this
      ensures Valid() && State() == StreamReceive(x, old(State()), stream, received, fin)
    {
      hide Good, Becomes, Receive, Table;
      ReceiveGood(x, State(), stream, received, fin);
      GoodTable(x, State());
      if stream in receivers {
        var env := Env(x.config.policy, routes, pendingCount < x.config.maxPending, x.config.maxStreamBytes, stream);
        var o := Receive(receivers[stream], env, received, fin);
        ReceiveShape(receivers[stream], env, received, fin);
        ShapeParks(receivers[stream], env, o);
        TakeOutcome(stream, o);
      }
    }

    /** start_subgroup_stream. */
    method StartSubgroupStream(stream: u64, prefix: bytes, fin: bool)
      requires Valid()
      modifies this
      ensures Valid() && State() == StartStream(x, old(State()), stream, prefix, fin)
    {
      hide Good, StreamReceive;
      if stream !in receivers {
        UnparkedStays(x, State(), stream, Opening(prefix));
        receivers := receivers[stream := Opening(prefix)];
        OnReceive(stream, [], fin);
      }
    }

    /** on_peer_send_aborted. */
    method OnPeerSendAborted(stream: u64)
      requires Valid()
      modifies this
      ensures Valid() && State() == StreamAborted(old(State()), stream)
    {
      hide Good, Discard;
      AbortedGood(x, State(), stream);
      if stream in receivers {
        var rx := receivers[stream];
        if rx.Waiting? {
          DiscardPending(rx.header.alias, stream);
          assert State().receivers == old(receivers) by {
            DiscardKeepsReceivers(old(State()), rx.header.alias, stream);
          }
        }
        receivers := receivers[stream := Closed];
      }
    }

    /** on_datagram. */
    method OnDatagram(d: bytes)
      requires Valid()
      modifies this
      ensures Valid() && State() == DeliverDatagram(x, old(State()), d, true)
    {
      hide Good, Table;
      DatagramGood(x, State(), d);
      GoodTable(x, State());
      Dispatch(d, true);
    }

    /** deliver_datagram. */
    method Dispatch(d: bytes, allow: bool)
      requires Consistent()
      modifies this
      ensures State() == DeliverDatagram(x, old(State()), d, allow)
    {
      hide Emit, DataPlanes.Deliver, Mark, Hold, Datagrams.ParseHead, Datagrams.ParseBody, Varint.Take, Table;
      ghost var was := State();
      var kind := Varint.Take(d);
      if !kind.Done? {
        Callback(ProtocolError);
        return;
      }
      if kind.value == Datagrams.PADDING_TYPE {
        if !forall i :: 0 <= i < |kind.rest| ==> kind.rest[i] == 0 {
          Callback(ProtocolError);
        }
        return;
      }
      var head := Datagrams.ParseHead(d);
      if !head.Done? {
        Callback(ProtocolError);
        return;
      }
      var h := head.value;
      if h.alias !in routes {
        if allow {
          BufferUnknown(h.alias, d);
        }
        return;
      }
      var body := Datagrams.ParseBody(h, head.rest, routes[h.alias]);
      if !body.Done? {
        Callback(ProtocolError);
        return;
      }
      if h.flags.endOfGroup {
        MarkCalm(was, body.value.request, h.group, h.id);
        MarkEnd(body.value.request, h.group, h.id);
      }
      DeliverObject(body.value);
    }

    /** buffer_unknown_datagram. */
    method BufferUnknown(alias: u64, d: bytes)
      requires Consistent()
      modifies this
      ensures State() == Hold(x, old(State()), alias, d)
    {
      hide Emit, Table;
      match x.config.policy
      case Drop =>
      case Error => Callback(ProtocolError);
      case Buffer =>
        if |d| > x.config.maxDatagramBytes || heldBytes + |d| > x.config.maxDatagramBytes {
          return;
        }
        var list := if alias in datagrams then datagrams[alias] else [];
        datagrams := datagrams[alias := list];
        if |list| >= x.config.maxDatagramsPerAlias {
          return;
        }
        heldBytes := heldBytes + |d|;
        datagrams := datagrams[alias := list + [d]];
    }

    /** install_route: false if the alias has a route; else everything held for it is replayed. */
    method InstallRoute(alias: u64, request: u64) returns (installed: bool)
      requires Valid() && request !in states
      modifies this
      ensures installed <==> alias !in old(routes)
      ensures State() == if installed then Replay(x, old(State()), alias, request) else old(State())
    {
      hide Good, ReplayStreams, ReplayDatagrams, Replaying, Size, Claimed, Held, Streams;
      if alias in routes {
        return false;
      }
      ClaimedReplays(x, State(), alias, request);
      var held, streams := ClaimAlias(alias, request);
      ReplayHeld(held, streams);
      EstablishAll(streams, request);
      return true;
    }

    /** The first half of install_route: what is held for the alias leaves the tables. */
    method ClaimAlias(alias: u64, request: u64) returns (held: seq<bytes>, streams: seq<u64>)
      requires |Streams(State(), alias)| <= pendingCount
      modifies this
      ensures State() == Claimed(old(State()), alias, request)
      ensures held == Held(old(State()), alias) && streams == Streams(old(State()), alias)
    {
      streams := if alias in pending then pending[alias] else [];
      held := if alias in datagrams then datagrams[alias] else [];
      busy, stopped := Some(request), false;
      routes, states := routes[alias := request], states[request := Delivery.Fresh(request)];
      pending, pendingCount := pending - {alias}, pendingCount - |streams|;
      datagrams := datagrams - {alias};
    }

    /** SUBSCRIBE_OK: the alias becomes the request's own, unless it has been stopped during the replay. */
    method OnSubscribeOk(alias: u64, request: u64)
      requires Valid() && request !in states
      modifies this
      ensures Valid() && State() == Install(x, old(State()), alias, request)
    {
      hide Good, Replay, StopEvery, Table;
      InstallGood(x, State(), alias, request);
      GoodTable(x, State());
      var installed := InstallRoute(alias, request);
      if !installed {
        StopSubscriptions();
        return;
      }
      if stopped {
        RetireRoute(alias);
      } else {
        owned := owned[request := alias];
      }
      busy, stopped := None, false;
    }

    /** The datagram loop of install_route. The byte counter never falls below what is left to replay. */
    method ReplayHeld(held: seq<bytes>, ghost moved: seq<u64>)
      requires Replaying(x, State(), Size(held), moved)
      modifies this
      ensures State() == ReplayDatagrams(x, old(State()), held) && Replaying(x, State(), 0, moved)
    {
      hide Replaying, DeliverDatagram, Calm, Hold, Table;
      var i := 0;
      assert held[0..] == held;
      while i < |held|
        invariant 0 <= i <= |held|
        invariant Replaying(x, State(), Size(held[i..]), moved)
        invariant ReplayDatagrams(x, State(), held[i..]) == ReplayDatagrams(x, old(State()), held)
      {
        assert held[i..][0] == held[i] && held[i..][1..] == held[i + 1..];
        BytesAtLeast(x, State(), |held[i]|, Size(held[i + 1..]), moved);
        heldBytes := heldBytes - |held[i]|;
        ghost var before := State();
        ReplayingTable(x, before, Size(held[i + 1..]), moved);
        DatagramEffect(x, before, held[i], false);
        CalmReplaying(x, before, DeliverDatagram(x, before, held[i], false), Size(held[i + 1..]), moved);
        Dispatch(held[i], false);
        i := i + 1;
      }
      assert held[|held|..] == [];
    }

    /** The stream loop of install_route. */
    method EstablishAll(streams: seq<u64>, request: u64)
      requires Replaying(x, State(), 0, streams)
      modifies this
      ensures State() == ReplayStreams(x, old(State()), streams, request)
    {
      hide Replaying, Becomes, Establish, Table;
      var i := 0;
      assert streams[0..] == streams;
      while i < |streams|
        invariant 0 <= i <= |streams|
        invariant Replaying(x, State(), 0, streams[i..])
        invariant ReplayStreams(x, State(), streams[i..], request) == ReplayStreams(x, old(State()), streams, request)
      {
        assert streams[i..][0] == streams[i] && streams[i..][1..] == streams[i + 1..];
        EstablishedOne(x, State(), streams[i..], request);
        ReplayingTable(x, State(), 0, streams[i..]);
        EstablishParksNot(receivers[streams[i]], streams[i], request);
        TakeOutcome(streams[i], Establish(receivers[streams[i]], streams[i], request));
        i := i + 1;
      }
      assert streams[|streams|..] == [];
    }
  }

  /** A stream is parked, if at all, by the first call of an outcome. */
  predicate ParksFirst(calls: seq<Call>) {
    forall i :: 0 <= i < |calls| && calls[i].Park? ==> i == 0
  }

  lemma ShapeParks(rx: Receiver, env: Env, o: Outcome)
    requires Shape(rx, env, o)
    ensures ParksFirst(o.calls)
    ensures o.calls != [] && o.calls[0].Park? ==> o.calls[0].alias !in env.routes && env.room
  {
    if Plain(o.calls) {
      forall i | 0 <= i < |o.calls| ensures !o.calls[i].Park? {
        assert o.calls[i] in o.calls;
      }
    }
  }

  lemma EstablishParksNot(rx: Receiver, stream: u64, request: u64)
    ensures var o := Establish(rx, stream, request); ParksFirst(o.calls) && (o.calls != [] ==> !o.calls[0].Park?)
  {
    hide Feed;
    if rx.Waiting? {
      FeedPlain(Binding(rx.header, request, stream), Position(rx.header.subgroup, None), rx.stash, rx.finPending);
      var o := Establish(rx, stream, request);
      forall i | 0 <= i < |o.calls| ensures !o.calls[i].Park? {
        assert o.calls[i] in o.calls;
      }
    }
  }

  lemma GoodTable(x: Context, p: Plane)
    requires Good(x, p)
    ensures Table(p)
  {
  }

  lemma ReplayingTable(x: Context, p: Plane, bytes: nat, moved: seq<u64>)
    requires Replaying(x, p, bytes, moved)
    ensures Table(p)
  {
  }

  lemma ParkTable(p: Plane, alias: u64, stream: u64)
    requires Table(p)
    ensures Table(DataPlanes.Park(p, alias, stream))
  {
    hide Table;
    SameTable(p, DataPlanes.Park(p, alias, stream));
  }

  lemma DiscardTable(p: Plane, alias: u64, stream: u64)
    requires Table(p)
    ensures Table(Discard(p, alias, stream))
  {
    hide Table;
    SameTable(p, Discard(p, alias, stream));
  }

  /** Stopping one request first does not change what stopping all of them comes to. */
  lemma StopEveryAfter(p: Plane, request: u64)
    requires Table(p)
    ensures StopEvery(Stop(p, request)) == StopEvery(p)
  {
    if p.busy != Some(request) && request in p.owned {
      var alias, q := p.owned[request], Stop(p, request);
      assert alias in p.routes && p.routes[alias] == request && request in p.states;
      assert Others(q.routes, q.owned) == Others(p.routes, p.owned) by { OthersAfter(p, request); }
      assert SwitchAllOff(q.states, q.owned) == SwitchAllOff(p.states, p.owned);
    }
  }

  lemma OthersAfter(p: Plane, request: u64)
    requires Table(p) && request in p.owned
    ensures Others(p.routes - {p.owned[request]}, p.owned - {request}) == Others(p.routes, p.owned)
  {
    var alias := p.owned[request];
    assert p.routes[alias] == request;
    assert forall a :: a in p.routes && a != alias ==> p.routes[a] != request;
  }

  lemma StopFewer(p: Plane, request: u64)
    requires Table(p)
    ensures var q := Stop(p, request);
            && q.busy == p.busy && (p.stopped ==> q.stopped) && (p.busy == Some(request) ==> q.stopped)
            && (forall r :: r in q.owned ==> r in p.owned && r != request)
  {
  }

  lemma NothingToStop(p: Plane)
    requires p.owned == map[] && (p.busy.Some? ==> p.stopped)
    ensures StopEvery(p) == p
  {
    assert Others(p.routes, map[]) == p.routes && SwitchAllOff(p.states, map[]) == p.states;
  }

  lemma DiscardKeepsReceivers(p: Plane, alias: u64, stream: u64)
    ensures Discard(p, alias, stream).receivers == p.receivers
  {
  }

  /** std::remove_if on a list of parked streams. */
  method RemoveStream(list: seq<u64>, stream: u64) returns (left: seq<u64>)
    ensures left == Without(list, stream)
  {
    left := [];
    var i := 0;
    assert list[0..] == list && [] + Without(list, stream) == Without(list, stream);
    while i < |list|
      invariant 0 <= i <= |list|
      invariant left + Without(list[i..], stream) == Without(list, stream)
    {
      assert list[i..][0] == list[i] && list[i..][1..] == list[i + 1..];
      ghost var rest := Without(list[i + 1..], stream);
      assert left + ([list[i]] + rest) == left + [list[i]] + rest;
      if list[i] != stream {
        left := left + [list[i]];
      }
      i := i + 1;
    }
    assert list[|list|..] == [] && left + [] == left;
  }
}

/**
 * A stream through the whole receive plane: however it is cut, the plane ends in the same state,
 * and what a publisher sends on a stream is what the handler is given.
 */
module Handover {
  import opened Basics
  import opened SubgroupWire
  import opened SubgroupSend
  import opened Reception
  import opened DataPlanes
  import opened DataPlaneTheorems
  import DataPlaneInvariants
  import RetiredRoutes
  import Datagrams
  import Delivery
  import FanOut
  import Publishing
  import PublishingInvariants
  import RequestRuns
  import SendStreams
  import Varint

  lemma StopWith(p: Plane, request: u64, s: u64, rx: Receiver)
    ensures Stop(With(p, s, rx), request) == With(Stop(p, request), s, rx)
  {
    hide Retire;
    if request in p.owned {
      RetireWith(p, p.owned[request], s, rx);
    }
  }

  lemma RetireWith(p: Plane, alias: u64, s: u64, rx: Receiver)
    ensures Retire(With(p, s, rx), alias) == With(Retire(p, alias), s, rx)
  {
  }

  lemma {:induction false} StopAllWith(p: Plane, requests: seq<u64>, s: u64, rx: Receiver)
    ensures StopAll(With(p, s, rx), requests) == With(StopAll(p, requests), s, rx)
    decreases |requests|
  {
    hide Stop, With;
    if requests != [] {
      StopWith(p, requests[0], s, rx);
      StopAllWith(Stop(p, requests[0]), requests[1..], s, rx);
    }
  }

  lemma StopEveryWith(p: Plane, s: u64, rx: Receiver)
    ensures StopEvery(With(p, s, rx)) == With(StopEvery(p), s, rx)
  {
  }

  lemma EmitWith(x: Context, p: Plane, c: Callback, s: u64, rx: Receiver)
    ensures Emit(x, With(p, s, rx), c) == With(Emit(x, p, c), s, rx)
  {
    hide StopAll, Stop, StopEvery;
    var p1 := p.(log := p.log + [c]);
    assert With(p, s, rx).(log := p.log + [c]) == With(p1, s, rx);
    if c.TrackError? {
      StopWith(p1, c.request, s, rx);
    }
    StopEveryWith(p1, s, rx);
    StopAllWith(React(p1, c), x.stops(|p.log|), s, rx);
  }

  lemma DeliverWith(x: Context, p: Plane, o: Object, s: u64, rx: Receiver)
    ensures DataPlanes.Deliver(x, With(p, s, rx), o) == With(DataPlanes.Deliver(x, p, o), s, rx)
  {
    hide Emit, Delivery.FateOf, Delivery.Delivered;
    if o.request in p.states {
      var p1 := p.(states := p.states[o.request := Delivery.Delivered(p.states[o.request], o)]);
      EmitWith(x, p, TrackError(o.request), s, rx);
      EmitWith(x, p1, HandedOver(o), s, rx);
    }
  }

  /** Calls on the plane do not look at the receivers. */
  lemma ApplyWith(x: Context, p: Plane, stream: u64, c: Call, s: u64, rx: Receiver)
    ensures Apply(x, With(p, s, rx), stream, c) == With(Apply(x, p, stream, c), s, rx)
  {
    hide Emit, DataPlanes.Deliver;
    match c
    case Deliver(o) => DeliverWith(x, p, o, s, rx);
    case Fail => EmitWith(x, p, ProtocolError, s, rx);
    case GroupFinal(_, _, _) =>
    case Park(_) =>
    case Unpark(_) =>
    case Abort =>
  }

  lemma {:induction false} ApplyAllWith(x: Context, p: Plane, stream: u64, calls: seq<Call>, s: u64, rx: Receiver)
    ensures ApplyAll(x, With(p, s, rx), stream, calls) == With(ApplyAll(x, p, stream, calls), s, rx)
    decreases |calls|
  {
    hide Apply;
    if calls != [] {
      ApplyWith(x, p, stream, calls[0], s, rx);
      ApplyAllWith(x, Apply(x, p, stream, calls[0]), stream, calls[1..], s, rx);
    }
  }

  lemma {:induction false} ApplyAllJoin(x: Context, p: Plane, s: u64, a: seq<Call>, b: seq<Call>)
    ensures ApplyAll(x, p, s, a + b) == ApplyAll(x, ApplyAll(x, p, s, a), s, b)
    decreases |a|
  {
    hide Apply;
    if a == [] {
      assert a + b == b;
    } else {
      assert (a + b)[0] == a[0] && (a + b)[1..] == a[1..] + b;
      ApplyAllJoin(x, Apply(x, p, s, a[0]), s, a[1..], b);
    }
  }

  /** One outcome after another is both at once. */
  lemma BecomesJoin(x: Context, p: Plane, s: u64, first: Outcome, second: Outcome)
    ensures Becomes(x, Becomes(x, p, s, first), s, second) == Becomes(x, p, s, Then(first, second))
  {
    hide ApplyAll;
    ApplyAllWith(x, p, s, first.calls, s, first.rx);
    ApplyAllWith(x, p, s, first.calls, s, second.rx);
    ApplyAllJoin(x, With(p, s, second.rx), s, first.calls, second.calls);
    assert With(With(ApplyAll(x, p, s, first.calls), s, first.rx), s, second.rx) ==
           With(ApplyAll(x, p, s, first.calls), s, second.rx);
  }

  /** A stream past its header does not consult the tables any more. */
  lemma PastTheHeader(rx: Receiver, env: Env, other: Env, received: bytes, fin: bool)
    requires !rx.Opening? && env.limit == other.limit
    ensures Receive(rx, env, received, fin) == Receive(rx, other, received, fin)
  {
  }

  /** A stream whose header is not complete has not called anything. */
  lemma StillOpening(rx: Receiver, env: Env, received: bytes)
    requires Receive(rx, env, received, false).rx.Opening?
    ensures Receive(rx, env, received, false).calls == []
  {
    hide Drain, ParseHeader;
  }

  /** Two receives in a row are one receive, whatever the callbacks of the first do to the plane. */
  lemma ReceiveTwice(x: Context, p: Plane, s: u64, a: bytes, b: bytes, fin: bool)
    requires s in p.receivers
    ensures StreamReceive(x, StreamReceive(x, p, s, a, false), s, b, fin) == StreamReceive(x, p, s, a + b, fin)
  {
    hide Receive, ApplyAll;
    var env := EnvOf(x, p, s);
    var first := Receive(p.receivers[s], env, a, false);
    var p1 := Becomes(x, p, s, first);
    RetiredRoutes.KeepsReceivers(x, With(p, s, first.rx), s, first.calls);
    ReceiveSplit(p.receivers[s], env, a, b, fin);
    if first.rx.Opening? {
      StillOpening(p.receivers[s], env, a);
      NoCalls(x, With(p, s, first.rx), s);
    } else {
      PastTheHeader(first.rx, EnvOf(x, p1, s), env, b, fin);
    }
    BecomesJoin(x, p, s, first, Receive(first.rx, env, b, fin));
  }

  /** The events on one stream, one after another. */
  function ReceiveEach(x: Context, p: Plane, s: u64, arrivals: seq<Arrival>): Plane
    decreases |arrivals|
  {
    if arrivals == [] then p
    else ReceiveEach(x, StreamReceive(x, p, s, arrivals[0].received, arrivals[0].fin), s, arrivals[1..])
  }

  lemma {:induction false} NothingMore(x: Context, p: Plane, s: u64, arrivals: seq<Arrival>)
    requires s in p.receivers && Ended(p.receivers[s]) && AllBytes(arrivals) == []
    requires Within(p.receivers[s], x.config.maxStreamBytes)
    ensures ReceiveEach(x, p, s, arrivals) == p
    decreases |arrivals|
  {
    hide Receive, Becomes;
    if arrivals != [] {
      QuietReceive(x, p, s, arrivals[0].fin);
      NothingMore(x, p, s, arrivals[1..]);
    }
  }

  lemma QuietReceive(x: Context, p: Plane, s: u64, fin: bool)
    requires s in p.receivers && Ended(p.receivers[s]) && Within(p.receivers[s], x.config.maxStreamBytes)
    ensures StreamReceive(x, p, s, [], fin) == p
  {
    hide Drain, ParseHeader;
    var rx := p.receivers[s];
    assert rx.Waiting? ==> rx.stash + [] == rx.stash;
    assert Receive(rx, EnvOf(x, p, s), [], fin) == Outcome(rx, []);
    assert With(p, s, rx) == p;
  }

  /**
   * Fragmentation independence of the plane: however the bytes and the end of a stream are cut into
   * events, and whatever requests the callbacks stop meanwhile, the plane ends in the state it would
   * be in had everything come at once: tables, counters, routes and callbacks.
   */
  lemma {:induction false} PlaneFragmentation(x: Context, p: Plane, s: u64, arrivals: seq<Arrival>)
    requires s in p.receivers && arrivals != [] && Reception.WellFormed(arrivals)
    ensures ReceiveEach(x, p, s, arrivals) == StreamReceive(x, p, s, AllBytes(arrivals), AnyFin(arrivals))
    decreases |arrivals|
  {
    hide Receive, Becomes, Within, Ended;
    var a, rest := arrivals[0], arrivals[1..];
    var p1 := StreamReceive(x, p, s, a.received, a.fin);
    var o := Receive(p.receivers[s], EnvOf(x, p, s), a.received, a.fin);
    assert s in p1.receivers && p1.receivers[s] == o.rx by { NewReceiver(x, p, s, o); }
    assert a.received + [] == a.received;
    if a.fin {
      FinEnds(p.receivers[s], EnvOf(x, p, s), a.received);
      ReceiveWithin(p.receivers[s], EnvOf(x, p, s), a.received, a.fin);
      NothingMore(x, p1, s, rest);
    } else if rest != [] {
      PlaneFragmentation(x, p1, s, rest);
      ReceiveTwice(x, p, s, a.received, AllBytes(rest), AnyFin(rest));
    }
  }

  lemma NewReceiver(x: Context, p: Plane, s: u64, o: Outcome)
    ensures s in Becomes(x, p, s, o).receivers && Becomes(x, p, s, o).receivers[s] == o.rx
  {
    hide ApplyAll;
    RetiredRoutes.KeepsReceivers(x, With(p, s, o.rx), s, o.calls);
  }

  // ----- what the handler is given -----

  /** The route of an established request, in a table whose routes are active and belong to one alias each. */
  predicate Routed(p: Plane, alias: u64, request: u64) {
    && DataPlaneInvariants.Table(p) && p.busy.None?
    && alias in p.routes && p.routes[alias] == request && request in p.states
  }

  /** Requests are stopped: with this one among them its route is retired, else it is as it was. */
  predicate Spared(p: Plane, q: Plane, stopped: bool, alias: u64, request: u64)
    requires request in p.states
  {
    && q.log == p.log
    && (if stopped then RetiredRoutes.Retired(q, request)
        else Routed(q, alias, request) && p.states[request] == q.states[request])
  }

  lemma {:induction false} StopAllSpares(p: Plane, requests: seq<u64>, alias: u64, request: u64)
    requires Routed(p, alias, request)
    ensures request in p.states && Spared(p, StopAll(p, requests), request in requests, alias, request)
    decreases |requests|
  {
    hide DataPlaneInvariants.Table, Stop;
    if requests != [] {
      StopSpares(p, requests[0], alias, request);
      if requests[0] == request {
        RetiredRoutes.StopAllSilent(Stop(p, request), requests[1..], request);
      } else {
        StopAllSpares(Stop(p, requests[0]), requests[1..], alias, request);
      }
    }
  }

  lemma StopSpares(p: Plane, stopped: u64, alias: u64, request: u64)
    requires Routed(p, alias, request)
    ensures Spared(p, Stop(p, stopped), stopped == request, alias, request)
  {
    DataPlaneInvariants.StopCalm(p, stopped);
    if stopped in p.owned && stopped != request {
      assert p.routes[p.owned[stopped]] == stopped;
    }
  }

  /** A callback with an object: the request goes on unless the application stops it. */
  lemma EmitSpares(x: Context, p: Plane, o: Object, alias: u64, request: u64)
    requires Routed(p, alias, request)
    ensures var p1 := p.(log := p.log + [HandedOver(o)]);
            request in p1.states
                && Spared(p1, Emit(x, p, HandedOver(o)), request in x.stops(|p.log|), alias, request)
  {
    hide StopAll, DataPlaneInvariants.Table;
    var p1 := p.(log := p.log + [HandedOver(o)]);
    SameTable(p, p1);
    StopAllSpares(p1, x.stops(|p.log|), alias, request);
  }

  /** An error of the track stops its request. */
  lemma ErrorRetires(x: Context, p: Plane, alias: u64, request: u64)
    requires Routed(p, alias, request)
    ensures var q := Emit(x, p, TrackError(request));
            q.log == p.log + [TrackError(request)] && RetiredRoutes.Retired(q, request)
  {
    hide StopAll, Stop, DataPlaneInvariants.Table;
    var p1 := p.(log := p.log + [TrackError(request)]);
    SameTable(p, p1);
    StopSpares(p1, request, alias, request);
    RetiredRoutes.StopAllSilent(Stop(p1, request), x.stops(|p.log|), request);
  }

  /**
   * What becomes of a list of objects, from the n-th callback on: they are handed over up to the first
   * that is an error of the track, which stops its request, or in whose callback the application does.
   */
  function Verdicts(x: Context, n: nat, r: Delivery.Route, calls: seq<Call>): seq<Callback>
    requires forall i :: 0 <= i < |calls| ==> calls[i].Deliver?
    decreases |calls|
  {
    if calls == [] then [] else
    var o := calls[0].obj;
    if !Delivery.Admits(r, Delivery.At(o)) then [TrackError(o.request)]
    else [HandedOver(o)] + (if o.request in x.stops(n) then []
                            else Verdicts(x, n + 1, Delivery.Delivered(r, o), calls[1..]))
  }

  /** Deliveries for one request. */
  predicate ForRequest(calls: seq<Call>, request: u64) {
    forall i :: 0 <= i < |calls| ==> calls[i].Deliver? && calls[i].obj.request == request
  }

  lemma OneDelivered(x: Context, p: Plane, s: u64, c: Call, alias: u64, request: u64)
    requires c.Deliver? && c.obj.request == request && Routed(p, alias, request)
    ensures var r := p.states[request]; var q := Apply(x, p, s, c);
            if !Delivery.Admits(r, Delivery.At(c.obj)) then
              q.log == p.log + [TrackError(request)] && RetiredRoutes.Retired(q, request)
            else if request in x.stops(|p.log|) then
              q.log == p.log + [HandedOver(c.obj)] && RetiredRoutes.Retired(q, request)
            else
              && q.log == p.log + [HandedOver(c.obj)] && Routed(q, alias, request)
              && q.states[request] == Delivery.Delivered(r, c.obj)
  {
    hide Emit, DataPlaneInvariants.Table;
    var r := p.states[request];
    assert r.active by { RoutedActive(p, alias, request); }
    var p1 := p.(states := p.states[request := Delivery.Delivered(r, c.obj)]);
    DataPlaneInvariants.RecordCalm(p, request, Delivery.Delivered(r, c.obj));
    EmitSpares(x, p1, c.obj, alias, request);
    ErrorRetires(x, p, alias, request);
  }

  lemma RoutedActive(p: Plane, alias: u64, request: u64)
    requires Routed(p, alias, request)
    ensures request in p.states && p.states[request].active
  {
  }

  /** Behind a retired route nothing happens. */
  lemma {:induction false} AllIgnored(x: Context, p: Plane, s: u64, calls: seq<Call>, request: u64)
    requires ForRequest(calls, request) && RetiredRoutes.Retired(p, request)
    ensures ApplyAll(x, p, s, calls) == p
    decreases |calls|
  {
    if calls != [] {
      AllIgnored(x, p, s, calls[1..], request);
    }
  }

  /** The callbacks of a list of deliveries, and nothing after them, whatever the application stops in each. */
  lemma {:induction false} AllDelivered(x: Context, p: Plane, s: u64, calls: seq<Call>, alias: u64, request: u64)
    requires ForRequest(calls, request) && Routed(p, alias, request)
    ensures ApplyAll(x, p, s, calls).log == p.log + Verdicts(x, |p.log|, p.states[request], calls)
    decreases |calls|
  {
    hide ApplyAll, Apply, Routed, RetiredRoutes.Retired, Delivery.Admits, Delivery.Delivered;
    assert request in p.states by { RoutedActive(p, alias, request); }
    if calls == [] {
      NoCalls(x, p, s);
      assert p.log + [] == p.log;
    } else {
      var p1, o := Apply(x, p, s, calls[0]), calls[0].obj;
      OneDelivered(x, p, s, calls[0], alias, request);
      ApplyFirst(x, p, s, calls);
      assert ForRequest(calls[1..], request);
      if Delivery.Admits(p.states[request], Delivery.At(o)) && request !in x.stops(|p.log|) {
        assert request in p1.states by { RoutedActive(p1, alias, request); }
        AllDelivered(x, p1, s, calls[1..], alias, request);
        var rest := Verdicts(x, |p1.log|, p1.states[request], calls[1..]);
        assert p.log + [HandedOver(o)] + rest == p.log + ([HandedOver(o)] + rest);
      } else {
        AllIgnored(x, p1, s, calls[1..], request);
        assert [HandedOver(o)] + [] == [HandedOver(o)];
      }
    }
  }

  lemma ApplyFirst(x: Context, p: Plane, s: u64, calls: seq<Call>)
    requires calls != []
    ensures ApplyAll(x, p, s, calls) == ApplyAll(x, Apply(x, p, s, calls[0]), s, calls[1..])
  {
  }

  predicate EndsSomething(o: Object) {
    o.status == Some(STATUS_END_OF_GROUP) || o.status == Some(STATUS_END_OF_TRACK)
  }

  /** Deliveries for one request, of which only the last may end a group or the track. */
  predicate Orderly(calls: seq<Call>, request: u64) {
    && ForRequest(calls, request)
    && (forall i :: 0 <= i < |calls| - 1 ==> !EndsSomething(calls[i].obj))
  }

  function Callbacks(calls: seq<Call>): (cs: seq<Callback>)
    requires forall i :: 0 <= i < |calls| ==> calls[i].Deliver?
    ensures |cs| == |calls|
  {
    if calls == [] then [] else [HandedOver(calls[0].obj)] + Callbacks(calls[1..])
  }

  /** None of the objects is behind an end that the route has recorded. */
  predicate AllAdmitted(r: Delivery.Route, calls: seq<Call>)
    requires forall i :: 0 <= i < |calls| ==> calls[i].Deliver?
  {
    forall i :: 0 <= i < |calls| ==> Delivery.Admits(r, Delivery.At(calls[i].obj))
  }

  /** In none of `count` callbacks from the n-th on, but perhaps the last, does the application stop the request. */
  predicate Lasts(x: Context, n: nat, count: nat, request: u64) {
    forall m :: n <= m < n + count - 1 ==> request !in x.stops(m)
  }

  /**
   * Everything is handed over if and only if nothing is behind an end recorded before and the request
   * lasts until the last object.
   */
  lemma {:induction false} HandedIfAdmitted(x: Context, n: nat, r: Delivery.Route, calls: seq<Call>, request: u64)
    requires r.active && Orderly(calls, request)
    ensures Verdicts(x, n, r, calls) == Callbacks(calls) <==>
            AllAdmitted(r, calls) && Lasts(x, n, |calls|, request)
    decreases |calls|
  {
    hide Delivery.Admits;
    if calls != [] {
      var o, rest := calls[0].obj, calls[1..];
      FirstAdmitted(r, calls);
      if !Delivery.Admits(r, Delivery.At(o)) {
        assert Verdicts(x, n, r, calls)[0] != Callbacks(calls)[0];
      } else if rest == [] {
        assert Callbacks(rest) == [];
      } else {
        OrderlyTail(calls, request);
        HandedIfAdmitted(x, n + 1, r, rest, request);
        SameTail(HandedOver(o), Verdicts(x, n + 1, Delivery.Delivered(r, o), rest), Callbacks(rest));
        assert Lasts(x, n, |calls|, request) <==> request !in x.stops(n) && Lasts(x, n + 1, |rest|, request);
        assert |Callbacks(calls)| >= 2;
      }
    }
  }

  lemma SameTail(c: Callback, a: seq<Callback>, b: seq<Callback>)
    ensures [c] + a == [c] + b <==> a == b
  {
    assert ([c] + a)[1..] == a && ([c] + b)[1..] == b;
  }

  lemma FirstAdmitted(r: Delivery.Route, calls: seq<Call>)
    requires calls != [] && forall i :: 0 <= i < |calls| ==> calls[i].Deliver?
    ensures AllAdmitted(r, calls) <==> Delivery.Admits(r, Delivery.At(calls[0].obj)) && AllAdmitted(r, calls[1..])
  {
    assert forall i :: 0 <= i < |calls| - 1 ==> calls[1..][i] == calls[i + 1];
    assert forall i :: 1 <= i < |calls| ==> calls[i] == calls[1..][i - 1];
  }

  lemma OrderlyTail(calls: seq<Call>, request: u64)
    requires Orderly(calls, request) && calls != []
    ensures Orderly(calls[1..], request)
  {
    assert forall i :: 0 <= i < |calls| - 1 ==> calls[1..][i] == calls[i + 1];
  }

  lemma {:induction false} ExpectedOrderly(b: Binding, subgroup: u64, objs: seq<Published>)
    requires AllDeliverable(objs) && OpenUntilLast(objs)
    ensures Orderly(Expected(b, subgroup, objs), b.request)
    decreases |objs|
  {
    if objs != [] {
      AllButFirst(objs);
      assert OpenUntilLast(objs[1..]) by { OpenTail(objs); }
      ExpectedOrderly(b, subgroup, objs[1..]);
      if |objs| == 1 {
        assert Expected(b, subgroup, objs[1..]) == [];
      } else {
        assert !Closing(objs[0]);
      }
    }
  }

  lemma OpenTail(objs: seq<Published>)
    requires OpenUntilLast(objs) && objs != []
    ensures OpenUntilLast(objs[1..])
  {
    assert forall i :: 0 <= i < |objs| - 1 ==> objs[1..][i] == objs[i + 1];
  }

  /** The callbacks for a stream of these objects: each in canonical form, and the marker of a group's end. */
  function HandedFor(b: Binding, subgroup: u64, objs: seq<Published>): seq<Callback>
    requires AllDeliverable(objs) && OpenUntilLast(objs)
  {
    ExpectedOrderly(b, subgroup, objs);
    Callbacks(Expected(b, subgroup, objs))
  }

  /** None of the objects of the stream, nor its marker, is behind an end the route has recorded. */
  predicate StreamAdmitted(r: Delivery.Route, b: Binding, subgroup: u64, objs: seq<Published>)
    requires AllDeliverable(objs) && OpenUntilLast(objs)
  {
    ExpectedOrderly(b, subgroup, objs);
    AllAdmitted(r, Expected(b, subgroup, objs))
  }

  /**
   * The objects of a stream reach the handler of an established request: all of them, in order, and
   * nothing else, if and only if none is behind an end that the route had recorded and the application
   * does not stop the request before it has been given the last.
   */
  lemma StreamHandedOver(x: Context, p: Plane, s: u64, alias: u64, group: u64, subgroup: u64, objs: seq<Published>,
                         arrivals: seq<Arrival>)
    requires objs != [] && Rising(None, objs) && OpenUntilLast(objs) && AllDeliverable(objs)
    requires s in p.receivers && p.receivers[s] == Opening([]) && alias in p.routes && Routed(p, alias, p.routes[alias])
    requires arrivals != [] && Reception.WellFormed(arrivals)
    requires AllBytes(arrivals) == StreamBytes(alias, group, subgroup, objs)
    ensures var b := BindingOf(EnvOf(x, p, s), alias, group, subgroup, objs);
            ReceiveEach(x, p, s, arrivals).log == p.log + HandedFor(b, subgroup, objs) <==>
            && StreamAdmitted(p.states[p.routes[alias]], b, subgroup, objs)
            && Lasts(x, |p.log|, |HandedFor(b, subgroup, objs)|, p.routes[alias])
  {
    hide Receive, ReceiveAll, ApplyAll, StreamBytes, Expected, Orderly, ReceiveEach, Reception.WellFormed,
         AllAdmitted, Verdicts, Lasts, DataPlaneInvariants.Table;
    var env := EnvOf(x, p, s);
    var b := BindingOf(env, alias, group, subgroup, objs);
    PlaneFragmentation(x, p, s, arrivals);
    FragmentationIndependence(env, arrivals);
    EndToEnd(env, alias, group, subgroup, objs, arrivals);
    var o := Receive(Opening([]), env, AllBytes(arrivals), AnyFin(arrivals));
    ExpectedOrderly(b, subgroup, objs);
    assert ForRequest(o.calls, b.request) by { OrderlyRequest(o.calls, b.request); }
    var p1 := With(p, s, o.rx);
    SameTable(p, p1);
    AllDelivered(x, p1, s, o.calls, alias, b.request);
    assert p.states[b.request].active by { RoutedActive(p, alias, b.request); }
    HandedIfAdmitted(x, |p.log|, p.states[b.request], o.calls, b.request);
    SamePrefix(p.log, Verdicts(x, |p.log|, p.states[b.request], o.calls), Callbacks(o.calls));
  }

  lemma OrderlyRequest(calls: seq<Call>, request: u64)
    requires Orderly(calls, request)
    ensures ForRequest(calls, request)
  {
  }

  lemma SamePrefix(log: seq<Callback>, a: seq<Callback>, b: seq<Callback>)
    ensures log + a == log + b <==> a == b
  {
    assert (log + a)[|log|..] == a && (log + b)[|log|..] == b;
  }

  /**
   * From publish to on_object: in every run of a publisher, the objects it put on a stream reach the
   * handler of the established request that has the alias its SUBSCRIBE_OK told, however the stream is
   * cut on its way, exactly if none of them is behind an end that the route had recorded and the
   * application does not stop the request before the last.
   */
  lemma PublishedIsHandedOver(limit: nat, events: seq<Publishing.Event>, id: u64, i: nat, x: Context, p: Plane, s: u64,
                              arrivals: seq<Arrival>)
    requires Publishing.AllowedRun(Publishing.Initial(limit), events)
    requires id in Publishing.Run(Publishing.Initial(limit), events).flows
    requires var f := Publishing.Run(Publishing.Initial(limit), events).flows[id];
             && i < |f.streams.wire| && AllDeliverable(f.streams.wire[i].objs) && RequestRuns.WasTold(f)
             && var alias := f.replies[0].alias;
                alias in p.routes && Routed(p, alias, p.routes[alias]) && AllBytes(arrivals) == f.streams.wire[i].sent
    requires s in p.receivers && p.receivers[s] == Opening([]) && arrivals != [] && Reception.WellFormed(arrivals)
    ensures var f := Publishing.Run(Publishing.Initial(limit), events).flows[id];
            var alias, d := f.replies[0].alias, f.streams.wire[i];
            && d.objs != [] && OpenUntilLast(d.objs)
            && var b := BindingOf(EnvOf(x, p, s), alias, d.group, d.subgroup, d.objs);
               ReceiveEach(x, p, s, arrivals).log == p.log + HandedFor(b, d.subgroup, d.objs) <==>
               && StreamAdmitted(p.states[p.routes[alias]], b, d.subgroup, d.objs)
               && Lasts(x, |p.log|, |HandedFor(b, d.subgroup, d.objs)|, p.routes[alias])
  {
    hide Publishing.Run, Publishing.AllowedRun, PublishingInvariants.Good, ReceiveEach, HandedFor, AllDeliverable,
         StreamAdmitted, Reception.WellFormed, Rising, OpenUntilLast, StreamBytes, Lasts;
    PublishingInvariants.Reachable(limit, events);
    var st := Publishing.Run(Publishing.Initial(limit), events);
    FanOut.WireFaithful(st, id, i);
    RequestRuns.ToldAliases(limit, events, id, id);
    var streams := st.flows[id].streams;
    var d := streams.wire[i];
    StreamHandedOver(x, p, s, streams.alias, d.group, d.subgroup, d.objs, arrivals);
  }

  // ----- datagrams -----

  /** The route as an object datagram finds it: the end-of-group bit has been recorded. */
  function Found(r: Delivery.Route, o: Published): Delivery.Route {
    if o.endOfGroup && Datagrams.DatagramStatus(o).None? then Delivery.Marked(r, o.group, o.id) else r
  }

  lemma EmitLog(x: Context, p: Plane, c: Callback)
    ensures Emit(x, p, c).log == p.log + [c]
  {
    hide StopAll;
    StopAllLog(React(p.(log := p.log + [c]), c), x.stops(|p.log|));
  }

  lemma {:induction false} StopAllLog(p: Plane, requests: seq<u64>)
    ensures StopAll(p, requests).log == p.log
    decreases |requests|
  {
    if requests != [] {
      StopAllLog(Stop(p, requests[0]), requests[1..]);
    }
  }

  /**
   * A published object that is sent as a datagram reaches the handler of a routed alias, in canonical
   * form, if and only if its properties fit and it is not behind a recorded end, its own included.
   */
  lemma DatagramHandedOver(x: Context, p: Plane, alias: u64, o: Published)
    requires ValidPublish(o) && alias in p.routes && Routed(p, alias, p.routes[alias])
    ensures var request := p.routes[alias]; var c := Datagrams.Canonical(request, alias, o);
            DeliverDatagram(x, p, Datagrams.Sent(alias, o), true).log == p.log + [HandedOver(c)] <==>
            |SentProperties(o)| <= MAX_PROPERTIES && Delivery.Admits(Found(p.states[request], o), Delivery.At(c))
  {
    hide Emit, Datagrams.ParseHead, Datagrams.ParseBody, Datagrams.Sent, Varint.Take, Delivery.Admits;
    var request := p.routes[alias];
    var d := Datagrams.Sent(alias, o);
    var c := Datagrams.Canonical(request, alias, o);
    Datagrams.DatagramRoundTrip(request, alias, o);
    NotPadding(alias, o);
    var head := Datagrams.ParseHead(d).value;
    var body := Datagrams.ParseBody(head, Datagrams.ParseHead(d).rest, request);
    assert DeliverDatagram(x, p, d, true) == DeliverBody(x, p, head, body);
    EmitLog(x, p, ProtocolError);
    SamePrefix(p.log, [ProtocolError], [HandedOver(c)]);
    var p1 := if head.flags.endOfGroup then Mark(p, request, head.group, head.id) else p;
    assert p.states[request].active && p1.states[request] == Found(p.states[request], o) && p1.log == p.log;
    EmitLog(x, p1, TrackError(request));
    SamePrefix(p.log, [TrackError(request)], [HandedOver(c)]);
    EmitLog(x, p1.(states := p1.states[request := Delivery.Delivered(p1.states[request], c)]), HandedOver(c));
  }

  lemma NotPadding(alias: u64, o: Published)
    ensures var t := Varint.Take(Datagrams.Sent(alias, o)); t.Done? && t.value != Datagrams.PADDING_TYPE
  {
    hide Varint.Encode, Varint.Take, Datagrams.TypeOf, Datagrams.IdBytes, Datagrams.PropertyBytes;
    var status, properties := Datagrams.DatagramStatus(o), SentProperties(o);
    var f := Datagrams.Flags(properties != [], status.None? && o.endOfGroup, o.id == 0, false, status.Some?);
    Datagrams.FlagsRoundTrip(f);
    var rest := if status.Some? then Varint.Encode(status.value) else o.payload;
    Varint.TakeEncoded(Datagrams.TypeOf(f),
                       Varint.Encode(alias) + (Varint.Encode(o.group) + (Datagrams.IdBytes(o.id) + ([o.priority]
                       + (Datagrams.PropertyBytes(properties) + rest)))));
  }

  /**
   * In every run of a publisher, each datagram it sent for a request is handed over under that condition,
   * behind a route for the alias that SUBSCRIBE_OK told.
   */
  lemma PublishedDatagramIsHandedOver(limit: nat, events: seq<Publishing.Event>, id: u64, i: nat, x: Context, p: Plane)
    requires Publishing.AllowedRun(Publishing.Initial(limit), events)
    requires id in Publishing.Run(Publishing.Initial(limit), events).flows
    requires var f := Publishing.Run(Publishing.Initial(limit), events).flows[id];
             && i < |f.datagrams| && RequestRuns.WasTold(f)
             && var alias := f.replies[0].alias; alias in p.routes && Routed(p, alias, p.routes[alias])
    ensures var f := Publishing.Run(Publishing.Initial(limit), events).flows[id];
            var alias, o := f.replies[0].alias, f.datagrams[i];
            var request := p.routes[alias]; var c := Datagrams.Canonical(request, alias, o);
            DeliverDatagram(x, p, Datagrams.Sent(f.streams.alias, o), true).log == p.log + [HandedOver(c)] <==>
            |SentProperties(o)| <= MAX_PROPERTIES && Delivery.Admits(Found(p.states[request], o), Delivery.At(c))
  {
    hide Publishing.Run, Publishing.AllowedRun, PublishingInvariants.Good, DeliverDatagram, Delivery.Admits,
         ValidPublish;
    PublishingInvariants.Reachable(limit, events);
    var st := Publishing.Run(Publishing.Initial(limit), events);
    DatagramIsValid(st, id, i);
    RequestRuns.ToldAliases(limit, events, id, id);
    DatagramHandedOver(x, p, st.flows[id].streams.alias, st.flows[id].datagrams[i]);
  }

  lemma DatagramIsValid(st: Publishing.State, id: u64, i: nat)
    requires PublishingInvariants.Good(st) && id in st.flows && i < |st.flows[id].datagrams|
    ensures ValidPublish(st.flows[id].datagrams[i])
  {
    hide PublishingInvariants.Agreement, PublishingInvariants.Accounted, PublishingInvariants.LiveRanges,
         SendStreams.Sound,
         SendStreams.Carried, ValidPublish;
    assert PublishingInvariants.FlowSound(st.flows[id], PublishingInvariants.StageOf(st, id));
  }
}

/**
 * The route that is being installed. Whatever callbacks do meanwhile, the end of the installation may
 * as well come before it: the plane ends alike, as long as nothing is delivered to a stopped request.
 * Where something is, the installation hands it over, and an established request would not have.
 */
module Settling {
  import opened Basics
  import opened Reception
  import opened DataPlanes
  import opened DataPlaneInvariants
  import opened DataPlaneTheorems
  import opened RetiredRoutes
  import Delivery
  import Handover
  import SubgroupWire

  // ----- stopping requests -----

  lemma SettledFields(p: Plane, alias: u64, request: u64)
    requires Installing(p, alias, request)
    ensures var q := Settled(p, alias, request);
            && (alias in q.routes <==> !p.stopped) && (!p.stopped ==> q.routes == p.routes && q.states == p.states)
            && (forall a :: a in q.routes ==> a in p.routes && q.routes[a] == p.routes[a])
            && q.log == p.log && q.receivers == p.receivers && q.pending == p.pending
            && q.pendingCount == p.pendingCount && q.datagrams == p.datagrams && q.heldBytes == p.heldBytes
  {
  }

  lemma StopOneSettled(p: Plane, q: u64, alias: u64, request: u64)
    requires Installing(p, alias, request) && Table(p)
    ensures Settled(Stop(p, q), alias, request) == Stop(Settled(p, alias, request), q)
  {
    hide Table;
    assert request !in p.owned by { BusyIsNotOwned(p, alias, request); }
    if q == request {
      StopSelfSettled(p, alias, request);
    } else if q in p.owned {
      assert p.owned[q] != alias by { OwnersApart(p, alias); }
      if p.stopped {
        StopOtherLate(p, q, alias, request);
      } else {
        StopOtherSettled(p, q, alias, request);
      }
    }
  }

  lemma BusyIsNotOwned(p: Plane, alias: u64, request: u64)
    requires Installing(p, alias, request) && Table(p)
    ensures request !in p.owned && request in p.states
  {
  }

  lemma StopSelfSettled(p: Plane, alias: u64, request: u64)
    requires Installing(p, alias, request) && request !in p.owned
    ensures Settled(Stop(p, request), alias, request) == Stop(Settled(p, alias, request), request)
  {
    assert p.owned[request := alias] - {request} == p.owned;
  }

  lemma StopOtherSettled(p: Plane, q: u64, alias: u64, request: u64)
    requires Installing(p, alias, request) && !p.stopped && q in p.owned && q != request && p.owned[q] != alias
    ensures Settled(Stop(p, q), alias, request) == Stop(Settled(p, alias, request), q)
  {
    assert (p.owned - {q})[request := alias] == p.owned[request := alias] - {q};
  }

  lemma StopOtherLate(p: Plane, q: u64, alias: u64, request: u64)
    requires Installing(p, alias, request) && Table(p) && p.stopped && q in p.owned && q != request
    requires p.owned[q] != alias
    ensures Settled(Stop(p, q), alias, request) == Stop(Settled(p, alias, request), q)
  {
    var a := p.owned[q];
    assert a in p.routes && p.routes[a] == q && q in p.states && request in p.states;
    assert p.routes - {a} - {alias} == p.routes - {alias} - {a};
    var off, none := p.states[q].(active := false), p.states[request].(active := false);
    assert p.states[q := off][request := none] == p.states[request := none][q := off];
  }

  lemma {:induction false} StopAllSettled(p: Plane, requests: seq<u64>, alias: u64, request: u64)
    requires Installing(p, alias, request) && Table(p)
    ensures Settled(StopAll(p, requests), alias, request) == StopAll(Settled(p, alias, request), requests)
    decreases |requests|
  {
    hide Stop, Settled, Table;
    if requests != [] {
      var p1 := Stop(p, requests[0]);
      StopOneSettled(p, requests[0], alias, request);
      StopCalm(p, requests[0]);
      CalmInstalling(p, p1, alias, request);
      StopAllSettled(p1, requests[1..], alias, request);
    }
  }

  /** Once everything is stopped, no route is left. */
  lemma StopEverySettled(p: Plane, alias: u64, request: u64)
    requires Installing(p, alias, request) && Table(p)
    ensures Settled(StopEvery(p), alias, request) == StopEvery(Settled(p, alias, request))
  {
    hide Settled, StopEvery, Table, Retire;
    var q := StopEvery(p);
    EveryRoute(p, alias, request);
    SettledStopped(q, alias, request);
    RetireOnly(q, alias, request);
    if p.stopped {
      SettledStopped(p, alias, request);
      EveryLate(p, alias, request);
    } else {
      EveryEstablished(p, alias, request);
    }
  }

  /** Stopping every request leaves the route that is being installed, and no other. */
  lemma EveryRoute(p: Plane, alias: u64, request: u64)
    requires Installing(p, alias, request) && Table(p)
    ensures var q := StopEvery(p); q.routes == map[alias := request] && q.stopped && request in q.states
  {
  }

  lemma RetireOnly(p: Plane, alias: u64, request: u64)
    requires p.routes == map[alias := request] && request in p.states
    ensures Retire(p, alias) ==
            p.(routes := map[], states := p.states[request := p.states[request].(active := false)])
  {
    assert p.routes - {alias} == map[];
  }

  lemma SettledStopped(p: Plane, alias: u64, request: u64)
    requires p.stopped
    ensures Settled(p, alias, request) == Retire(p, alias).(busy := None, stopped := false)
  {
    hide Retire;
  }

  lemma EveryLate(p: Plane, alias: u64, request: u64)
    requires Installing(p, alias, request) && Table(p) && p.stopped
    ensures var q := StopEvery(p);
            && request in q.states
            && StopEvery(Retire(p, alias).(busy := None, stopped := false)) ==
               q.(routes := map[], states := q.states[request := q.states[request].(active := false)],
                  busy := None, stopped := false)
  {
    hide Table;
    assert request in p.states && request !in p.owned by { BusyIsNotOwned(p, alias, request); }
    var none := p.states[request].(active := false);
    var r := Retire(p, alias).(busy := None, stopped := false);
    assert StopEvery(r).routes == map[] by { NoRouteLate(p, alias, request); }
    assert SwitchAllOff(p.states[request := none], p.owned) == SwitchAllOff(p.states, p.owned)[request := none];
  }

  lemma NoRouteLate(p: Plane, alias: u64, request: u64)
    requires Installing(p, alias, request) && Table(p)
    ensures forall a :: a in p.routes && a != alias ==> p.routes[a] in p.owned
  {
  }

  lemma EveryEstablished(p: Plane, alias: u64, request: u64)
    requires Installing(p, alias, request) && Table(p) && !p.stopped
    ensures var q := StopEvery(p);
            && request in q.states
            && StopEvery(Settled(p, alias, request)) ==
               q.(routes := map[], states := q.states[request := q.states[request].(active := false)],
                  busy := None, stopped := false)
  {
    hide Table;
    assert request in p.states && request !in p.owned by { BusyIsNotOwned(p, alias, request); }
    var none := p.states[request].(active := false);
    NoRouteLate(p, alias, request);
    assert StopEvery(Settled(p, alias, request)).routes == map[];
    assert SwitchAllOff(p.states, p.owned[request := alias]) == SwitchAllOff(p.states, p.owned)[request := none];
  }

  lemma LogSettled(p: Plane, log: seq<Callback>, alias: u64, request: u64)
    ensures Settled(p.(log := log), alias, request) == Settled(p, alias, request).(log := log)
  {
    hide Retire;
    assert Retire(p.(log := log), alias) == Retire(p, alias).(log := log) by { RetireLog(p, log, alias); }
  }

  lemma RetireLog(p: Plane, log: seq<Callback>, alias: u64)
    ensures Retire(p.(log := log), alias) == Retire(p, alias).(log := log)
  {
    hide SwitchOff;
  }

  /** A callback may as well come after the installation. */
  lemma EmitSettled(x: Context, p: Plane, c: Callback, alias: u64, request: u64)
    requires Installing(p, alias, request) && Table(p)
    ensures Settled(Emit(x, p, c), alias, request) == Emit(x, Settled(p, alias, request), c)
  {
    hide Stop, StopAll, StopEvery, Settled, Table;
    var p1 := p.(log := p.log + [c]);
    LogSettled(p, p.log + [c], alias, request);
    SettledFields(p, alias, request);
    SameTable(p, p1);
    if c.TrackError? {
      StopOneSettled(p1, c.request, alias, request);
      StopCalm(p1, c.request);
    } else if c.ProtocolError? {
      StopEverySettled(p1, alias, request);
      StopEveryCalm(p1);
    }
    assert Table(React(p1, c)) && Installing(React(p1, c), alias, request) by {
      if c.TrackError? || c.ProtocolError? {
        CalmInstalling(p1, React(p1, c), alias, request);
      }
    }
    StopAllSettled(React(p1, c), x.stops(|p.log|), alias, request);
  }

  // ----- calls of a stream -----

  /** An object may as well come after the installation, if the request has not been stopped. */
  lemma DeliverSettled(x: Context, p: Plane, o: Object, alias: u64, request: u64)
    requires Installing(p, alias, request) && Table(p) && !p.stopped
    ensures Settled(DataPlanes.Deliver(x, p, o), alias, request) ==
            DataPlanes.Deliver(x, Settled(p, alias, request), o)
  {
    hide Emit, Table, Delivery.FateOf, Delivery.Delivered;
    if o.request in p.states {
      var r := p.states[o.request];
      var p1 := p.(states := p.states[o.request := Delivery.Delivered(r, o)]);
      assert Table(p1) by { DeliveredTable(p, o); }
      EmitSettled(x, p1, HandedOver(o), alias, request);
      EmitSettled(x, p, TrackError(o.request), alias, request);
    }
  }

  lemma DeliveredTable(p: Plane, o: Object)
    requires Table(p) && o.request in p.states
    ensures Table(p.(states := p.states[o.request := Delivery.Delivered(p.states[o.request], o)]))
  {
    hide Table;
    RecordCalm(p, o.request, Delivery.Delivered(p.states[o.request], o));
  }

  lemma MarkSettled(p: Plane, q: u64, group: u64, id: u64, alias: u64, request: u64)
    requires Installing(p, alias, request)
    ensures Settled(Mark(p, q, group, id), alias, request) == Mark(Settled(p, alias, request), q, group, id)
  {
  }

  lemma ApplySettled(x: Context, p: Plane, s: u64, c: Call, alias: u64, request: u64)
    requires Installing(p, alias, request) && Table(p) && !c.Park? && !c.Unpark? && (c.Deliver? ==> !p.stopped)
    ensures Settled(Apply(x, p, s, c), alias, request) == Apply(x, Settled(p, alias, request), s, c)
  {
    hide Emit, DataPlanes.Deliver, Mark, Settled, Table;
    match c
    case Deliver(o) => DeliverSettled(x, p, o, alias, request);
    case Fail => EmitSettled(x, p, ProtocolError, alias, request);
    case GroupFinal(q, group, id) => MarkSettled(p, q, group, id, alias, request);
    case Abort =>
      LogSettled(p, p.log + [AbortReceive(s)], alias, request);
      SettledFields(p, alias, request);
  }

  /** Calls that a stream makes for one request once it is bound. */
  predicate OnBehalf(calls: seq<Call>, request: u64) {
    forall c :: c in calls ==> !c.Park? && !c.Unpark? && !c.Abort? && (c.Deliver? ==> c.obj.request == request)
  }

  lemma {:induction false} DrainOnBehalf(b: Binding, pos: Position, s: bytes)
    ensures forall c :: c in Drain(b, pos, s).calls ==> c.Deliver? && c.obj.request == b.request
    decreases |s|
  {
    hide SubgroupWire.ParseObject;
    var parsed := SubgroupWire.ParseObject(b.header.properties, s);
    if parsed.Done? && NextId(pos.last, parsed.value.delta).Some? {
      var id := NextId(pos.last, parsed.value.delta).value;
      DrainOnBehalf(b, Reception.Advance(b.header, pos, id), parsed.rest);
    }
  }

  lemma FeedOnBehalf(b: Binding, pos: Position, s: bytes, fin: bool)
    ensures var o := Feed(b, pos, s, fin);
            OnBehalf(o.calls, b.request) && Plain(o.calls) && !o.rx.Waiting? && !o.rx.Opening?
  {
    hide Drain;
    DrainOnBehalf(b, pos, s);
  }

  /** What a waiting stream does when it is established. */
  lemma EstablishOnBehalf(rx: Receiver, stream: u64, request: u64)
    ensures var o := Establish(rx, stream, request);
            OnBehalf(o.calls, request) && Plain(o.calls) && !o.rx.Waiting? && (rx.Waiting? ==> !o.rx.Opening?)
  {
    hide Feed;
    if rx.Waiting? {
      FeedOnBehalf(Binding(rx.header, request, stream), Position(rx.header.subgroup, None), rx.stash, rx.finPending);
    }
  }

  /** The alias has its route whenever an object is delivered. */
  predicate LiveCalls(x: Context, p: Plane, s: u64, calls: seq<Call>, alias: u64)
    decreases |calls|
  {
    || calls == []
    || ((calls[0].Deliver? ==> alias in p.routes) && LiveCalls(x, Apply(x, p, s, calls[0]), s, calls[1..], alias))
  }

  /** A callback on behalf of the request that the other plane, where its route is retired, has not made. */
  predicate Parted(early: seq<Callback>, direct: Plane, request: u64) {
    && Retired(direct, request)
    && exists n :: 0 <= n < |early| && Concerns(early[n], request)
                   && (n < |direct.log| ==> !Concerns(direct.log[n], request))
  }

  lemma PartedGrows(early: seq<Callback>, later: seq<Callback>, p: Plane, q: Plane, request: u64)
    requires Parted(early, p, request) && early <= later && LogExtends(p, q, request)
    ensures Parted(later, q, request)
  {
    var n :| 0 <= n < |early| && Concerns(early[n], request)
             && (n < |p.log| ==> !Concerns(p.log[n], request));
    assert later[n] == early[n];
    if n < |q.log| && n < |p.log| {
      assert q.log[n] == q.log[..|p.log|][n];
    }
  }

  lemma PartedDiffers(early: Plane, direct: Plane, request: u64)
    requires Parted(early.log, direct, request)
    ensures early.log != direct.log
  {
  }

  lemma InstallingCalls(x: Context, p: Plane, s: u64, calls: seq<Call>, alias: u64, request: u64)
    requires Installing(p, alias, request) && Table(p) && Plain(calls)
    ensures var q := ApplyAll(x, p, s, calls); Installing(q, alias, request) && Table(q)
  {
    hide ApplyAll, Table;
    ApplyAllCalm(x, p, s, calls);
    CalmInstalling(p, ApplyAll(x, p, s, calls), alias, request);
  }

  /** An object for a request that has been stopped during its installation is still handed over. */
  lemma StoppedDelivery(x: Context, p: Plane, s: u64, o: Object, alias: u64, request: u64)
    requires Installing(p, alias, request) && Table(p) && p.stopped && o.request == request
    ensures var c := Call.Deliver(o); var direct := Settled(p, alias, request);
            && Parted(Apply(x, p, s, c).log, Apply(x, direct, s, c), request)
            && Retired(direct, request) && Apply(x, direct, s, c) == direct
  {
    hide Emit, Delivery.Admits;
    var r := p.states[request];
    assert r.active;
    var p1 := p.(states := p.states[request := Delivery.Delivered(r, o)]);
    Handover.EmitLog(x, p, TrackError(request));
    Handover.EmitLog(x, p1, HandedOver(o));
    var q := DataPlanes.Deliver(x, p, o);
    assert Concerns(q.log[|p.log|], request);
  }

  /**
   * The calls of a stream, during the installation and after it: the plane is the same in the end if
   * every object meets the route, and else the installation makes a callback that is not made after it.
   */
  lemma {:induction false} CallsSettled(x: Context, p: Plane, s: u64, calls: seq<Call>, alias: u64, request: u64)
    requires Installing(p, alias, request) && Table(p) && OnBehalf(calls, request)
    ensures var early, direct := ApplyAll(x, p, s, calls), ApplyAll(x, Settled(p, alias, request), s, calls);
            if LiveCalls(x, Settled(p, alias, request), s, calls, alias) then
              Settled(early, alias, request) == direct
            else
              Parted(early.log, direct, request)
    decreases |calls|
  {
    hide Apply, Settled, Table, Parted, LogExtends;
    if calls != [] {
      var direct := Settled(p, alias, request);
      var p1, d1 := Apply(x, p, s, calls[0]), Apply(x, direct, s, calls[0]);
      assert calls[0] in calls;
      assert OnBehalf(calls[1..], request);
      SettledFields(p, alias, request);
      if calls[0].Deliver? && p.stopped {
        StoppedDelivery(x, p, s, calls[0].obj, alias, request);
        ApplyAllGrows(x, p1, s, calls[1..]);
        ApplyAllSilent(x, d1, s, calls[1..], request);
        PartedGrows(p1.log, ApplyAll(x, p, s, calls).log, d1, ApplyAll(x, direct, s, calls), request);
      } else {
        ApplySettled(x, p, s, calls[0], alias, request);
        ApplyCalm(x, p, s, calls[0]);
        CalmInstalling(p, p1, alias, request);
        CallsSettled(x, p1, s, calls[1..], alias, request);
      }
    }
  }

  // ----- objects that a request is given while its route is being installed -----

  /** Stopping requests does not touch the route that is being installed. */
  predicate Undisturbed(p: Plane, q: Plane, alias: u64, request: u64) {
    && Installing(q, alias, request) && Table(q)
    && request in p.states && request in q.states && q.states[request] == p.states[request]
  }

  lemma StopUndisturbed(p: Plane, q: u64, alias: u64, request: u64)
    requires Installing(p, alias, request) && Table(p)
    ensures Undisturbed(p, Stop(p, q), alias, request)
  {
    hide Table;
    StopCalm(p, q);
    CalmInstalling(p, Stop(p, q), alias, request);
    BusyIsNotOwned(p, alias, request);
    if q in p.owned {
      assert p.owned[q] in p.routes && p.routes[p.owned[q]] == q by { OwnedRoute(p, q); }
    }
  }

  lemma OwnedRoute(p: Plane, q: u64)
    requires Table(p) && q in p.owned
    ensures p.owned[q] in p.routes && p.routes[p.owned[q]] == q
  {
  }

  lemma {:induction false} StopAllUndisturbed(p: Plane, requests: seq<u64>, alias: u64, request: u64)
    requires Installing(p, alias, request) && Table(p)
    ensures Undisturbed(p, StopAll(p, requests), alias, request)
    decreases |requests|
  {
    hide Stop, Table;
    BusyIsNotOwned(p, alias, request);
    if requests != [] {
      StopUndisturbed(p, requests[0], alias, request);
      StopAllUndisturbed(Stop(p, requests[0]), requests[1..], alias, request);
    }
  }

  lemma EmitUndisturbed(x: Context, p: Plane, c: Callback, alias: u64, request: u64)
    requires Installing(p, alias, request) && Table(p)
    ensures Undisturbed(p, Emit(x, p, c), alias, request) && Emit(x, p, c).log == p.log + [c]
  {
    hide Stop, StopAll, StopEvery, Table;
    var p1 := p.(log := p.log + [c]);
    SameTable(p, p1);
    BusyIsNotOwned(p, alias, request);
    if c.TrackError? {
      StopUndisturbed(p1, c.request, alias, request);
    } else if c.ProtocolError? {
      StopEveryUndisturbed(p1, alias, request);
    }
    StopAllUndisturbed(React(p1, c), x.stops(|p.log|), alias, request);
    Handover.EmitLog(x, p, c);
  }

  lemma StopEveryUndisturbed(p: Plane, alias: u64, request: u64)
    requires Installing(p, alias, request) && Table(p)
    ensures Undisturbed(p, StopEvery(p), alias, request)
  {
    hide Table;
    StopEveryCalm(p);
    CalmInstalling(p, StopEvery(p), alias, request);
    BusyIsNotOwned(p, alias, request);
  }

  /** What a route makes of each of a list of objects, none left out. */
  function EveryVerdict(r: Delivery.Route, calls: seq<Call>): seq<Callback>
    requires forall i :: 0 <= i < |calls| ==> calls[i].Deliver?
    decreases |calls|
  {
    if calls == [] then [] else
    var o := calls[0].obj;
    [if Delivery.Admits(r, Delivery.At(o)) then HandedOver(o) else TrackError(o.request)]
    + EveryVerdict(Delivery.Delivered(r, o), calls[1..])
  }

  /**
   * While its route is being installed a request is given every object, whoever stops it meanwhile:
   * not even an error of its track ends the replay.
   */
  lemma {:induction false} AllReplayed(x: Context, p: Plane, s: u64, calls: seq<Call>, alias: u64, request: u64)
    requires Handover.ForRequest(calls, request) && Installing(p, alias, request) && Table(p)
    ensures request in p.states
    ensures ApplyAll(x, p, s, calls).log == p.log + EveryVerdict(p.states[request], calls)
    decreases |calls|
  {
    hide Emit, Table, ApplyAll, Delivery.Admits, Delivery.Delivered;
    assert request in p.states && p.states[request].active by { InstallingActive(p, alias, request); }
    if calls == [] {
      NoCalls(x, p, s);
      assert p.log + [] == p.log;
    } else {
      var o, r := calls[0].obj, p.states[request];
      OneReplayed(x, p, s, o, alias, request);
      Handover.ApplyFirst(x, p, s, calls);
      assert Handover.ForRequest(calls[1..], request);
      AllReplayed(x, Apply(x, p, s, calls[0]), s, calls[1..], alias, request);
      var first := if Delivery.Admits(r, Delivery.At(o)) then HandedOver(o) else TrackError(request);
      var rest := EveryVerdict(Delivery.Delivered(r, o), calls[1..]);
      assert p.log + [first] + rest == p.log + ([first] + rest);
    }
  }

  lemma InstallingActive(p: Plane, alias: u64, request: u64)
    requires Installing(p, alias, request) && Table(p)
    ensures request in p.states && p.states[request].active
  {
  }

  lemma OneReplayed(x: Context, p: Plane, s: u64, o: Object, alias: u64, request: u64)
    requires o.request == request && Installing(p, alias, request) && Table(p)
    ensures request in p.states
    ensures var r := p.states[request]; var q := Apply(x, p, s, Call.Deliver(o));
            && Installing(q, alias, request) && Table(q) && request in q.states
            && q.states[request] == Delivery.Delivered(r, o)
            && q.log == p.log + [if Delivery.Admits(r, Delivery.At(o)) then HandedOver(o) else TrackError(request)]
  {
    hide Emit, Table;
    InstallingActive(p, alias, request);
    var p1 := p.(states := p.states[request := Delivery.Delivered(p.states[request], o)]);
    assert Table(p1) by { DeliveredTable(p, o); }
    EmitUndisturbed(x, p1, HandedOver(o), alias, request);
    EmitUndisturbed(x, p, TrackError(request), alias, request);
  }

  // ----- logs only grow -----

  lemma DeliverGrows(x: Context, p: Plane, o: Object)
    ensures p.log <= DataPlanes.Deliver(x, p, o).log
  {
    hide Emit;
    if o.request in p.states {
      Handover.EmitLog(x, p, TrackError(o.request));
      Handover.EmitLog(x, p.(states := p.states[o.request := Delivery.Delivered(p.states[o.request], o)]),
                       HandedOver(o));
    }
  }

  lemma ApplyGrows(x: Context, p: Plane, s: u64, c: Call)
    ensures p.log <= Apply(x, p, s, c).log
  {
    hide Emit, DataPlanes.Deliver;
    match c
    case Deliver(o) => DeliverGrows(x, p, o);
    case Fail => Handover.EmitLog(x, p, ProtocolError);
    case GroupFinal(_, _, _) =>
    case Park(_) =>
    case Unpark(_) =>
    case Abort =>
  }

  lemma {:induction false} ApplyAllGrows(x: Context, p: Plane, s: u64, calls: seq<Call>)
    ensures p.log <= ApplyAll(x, p, s, calls).log
    decreases |calls|
  {
    hide Apply;
    if calls != [] {
      ApplyGrows(x, p, s, calls[0]);
      ApplyAllGrows(x, Apply(x, p, s, calls[0]), s, calls[1..]);
    }
  }

  lemma {:induction false} ReplayStreamsGrows(x: Context, p: Plane, ss: seq<u64>, request: u64)
    ensures p.log <= ReplayStreams(x, p, ss, request).log
    decreases |ss|
  {
    hide ApplyAll, Establish;
    if ss != [] && ss[0] in p.receivers {
      var o := Establish(p.receivers[ss[0]], ss[0], request);
      ApplyAllGrows(x, With(p, ss[0], o.rx), ss[0], o.calls);
      ReplayStreamsGrows(x, Becomes(x, p, ss[0], o), ss[1..], request);
    } else if ss != [] {
      ReplayStreamsGrows(x, p, ss[1..], request);
    }
  }
}

/** What does not depend on the order of events: a retired route stays silent, whatever comes after. */
module RetiredRoutes {
  import opened Basics
  import opened Reception
  import opened DataPlanes
  import opened DataPlaneInvariants
  import opened DataPlaneTheorems
  import Delivery
  import Datagrams
  import Varint

  lemma {:induction false} KeepsReceivers(x: Context, p: Plane, s: u64, calls: seq<Call>)
    ensures ApplyAll(x, p, s, calls).receivers == p.receivers
    decreases |calls|
  {
    hide Apply;
    if calls != [] {
      KeepsReceiver(x, p, s, calls[0]);
      KeepsReceivers(x, Apply(x, p, s, calls[0]), s, calls[1..]);
    }
  }

  lemma KeepsReceiver(x: Context, p: Plane, s: u64, c: Call)
    ensures Apply(x, p, s, c).receivers == p.receivers
  {
    if !c.Park? && !c.Unpark? {
      ApplyCalm(x, p, s, c);
    }
  }

  /** A callback on behalf of one request: an object for its handler, or an error of its track. */
  predicate Concerns(c: Callback, request: u64) {
    match c
    case HandedOver(o) => o.request == request
    case TrackError(q) => q == request
    case _ => false
  }

  /** The log has grown, by nothing on behalf of the request, and its route is inactive. */
  predicate LogExtends(p: Plane, q: Plane, request: u64) {
    && |p.log| <= |q.log| && q.log[..|p.log|] == p.log
    && (forall i :: |p.log| <= i < |q.log| ==> !Concerns(q.log[i], request))
    && request in q.states && !q.states[request].active
  }

  predicate Retired(p: Plane, request: u64) {
    request in p.states && !p.states[request].active
  }

  lemma ExtendsJoin(p: Plane, q: Plane, r: Plane, request: u64)
    requires LogExtends(p, q, request) && LogExtends(q, r, request)
    ensures LogExtends(p, r, request)
  {
    assert r.log[..|p.log|] == r.log[..|q.log|][..|p.log|];
    forall i | |p.log| <= i < |r.log|
      ensures !Concerns(r.log[i], request)
    {
      if i < |q.log| {
        assert r.log[i] == r.log[..|q.log|][i];
      }
    }
  }

  lemma {:induction false} StopAllSilent(p: Plane, requests: seq<u64>, request: u64)
    requires Retired(p, request)
    ensures StopAll(p, requests).log == p.log && Retired(StopAll(p, requests), request)
    decreases |requests|
  {
    if requests != [] {
      StopAllSilent(Stop(p, requests[0]), requests[1..], request);
    }
  }

  lemma EmitSilent(x: Context, p: Plane, c: Callback, request: u64)
    requires Retired(p, request) && !Concerns(c, request)
    ensures LogExtends(p, Emit(x, p, c), request)
  {
    hide StopAll;
    var p1 := React(p.(log := p.log + [c]), c);
    assert p1.log == p.log + [c] && Retired(p1, request);
    StopAllSilent(p1, x.stops(|p.log|), request);
  }

  lemma DeliverSilent(x: Context, p: Plane, o: Object, request: u64)
    requires Retired(p, request)
    ensures LogExtends(p, DataPlanes.Deliver(x, p, o), request)
  {
    hide Emit, LogExtends;
    if o.request in p.states {
      var r := p.states[o.request];
      match Delivery.FateOf(r, o)
      case Ignored => SameSilent(p, request);
      case Malformed => EmitSilent(x, p, TrackError(o.request), request);
      case Handed =>
        var p1 := p.(states := p.states[o.request := Delivery.Delivered(r, o)]);
        RecordSilent(p, o.request, Delivery.Delivered(r, o), request);
        EmitSilent(x, p1, HandedOver(o), request);
        ExtendsJoin(p, p1, Emit(x, p1, HandedOver(o)), request);
    } else {
      SameSilent(p, request);
    }
  }

  lemma SameSilent(p: Plane, request: u64)
    requires Retired(p, request)
    ensures LogExtends(p, p, request)
  {
  }

  lemma RecordSilent(p: Plane, request: u64, r: Delivery.Route, silent: u64)
    requires Retired(p, silent) && request in p.states && r.active == p.states[request].active
    ensures LogExtends(p, p.(states := p.states[request := r]), silent)
  {
  }

  lemma ApplySilent(x: Context, p: Plane, s: u64, c: Call, request: u64)
    requires Retired(p, request)
    ensures LogExtends(p, Apply(x, p, s, c), request)
  {
    hide Emit, DataPlanes.Deliver;
    match c
    case Deliver(o) => DeliverSilent(x, p, o, request);
    case Fail => EmitSilent(x, p, ProtocolError, request);
    case GroupFinal(_, _, _) =>
    case Park(_) =>
    case Unpark(_) =>
    case Abort =>
  }

  lemma {:induction false} ApplyAllSilent(x: Context, p: Plane, s: u64, calls: seq<Call>, request: u64)
    requires Retired(p, request)
    ensures LogExtends(p, ApplyAll(x, p, s, calls), request)
    decreases |calls|
  {
    hide Apply;
    if calls == [] {
      SameSilent(p, request);
    } else {
      var p1 := Apply(x, p, s, calls[0]);
      ApplySilent(x, p, s, calls[0], request);
      ApplyAllSilent(x, p1, s, calls[1..], request);
      ExtendsJoin(p, p1, ApplyAll(x, p, s, calls), request);
    }
  }

  lemma BecomesSilent(x: Context, p: Plane, s: u64, o: Outcome, request: u64)
    requires Retired(p, request)
    ensures LogExtends(p, Becomes(x, p, s, o), request)
  {
    hide ApplyAll;
    ApplyAllSilent(x, With(p, s, o.rx), s, o.calls, request);
  }

  lemma DatagramSilent(x: Context, p: Plane, d: bytes, allow: bool, request: u64)
    requires Retired(p, request)
    ensures LogExtends(p, DeliverDatagram(x, p, d, allow), request)
  {
    hide Emit, DeliverBody, Datagrams.ParseHead, Datagrams.ParseBody, Varint.Take, LogExtends, Hold;
    EmitSilent(x, p, ProtocolError, request);
    SameSilent(p, request);
    var head := Datagrams.ParseHead(d);
    if head.Done? {
      HoldSilent(x, p, head.value.alias, d, request);
      if head.value.alias in p.routes {
        BodySilent(x, p, head.value, Datagrams.ParseBody(head.value, head.rest, p.routes[head.value.alias]), request);
      }
    }
  }

  lemma HoldSilent(x: Context, p: Plane, alias: u64, d: bytes, request: u64)
    requires Retired(p, request)
    ensures LogExtends(p, Hold(x, p, alias, d), request)
  {
    hide Emit;
    EmitSilent(x, p, ProtocolError, request);
  }

  lemma BodySilent(x: Context, p: Plane, h: Datagrams.Head, body: Parse<Object>, request: u64)
    requires Retired(p, request)
    ensures LogExtends(p, DeliverBody(x, p, h, body), request)
  {
    hide Emit, DataPlanes.Deliver, LogExtends;
    match body
    case Done(o, _) =>
      var p1 := if h.flags.endOfGroup then Mark(p, o.request, h.group, h.id) else p;
      assert LogExtends(p, p1, request) by { MarkSilent(p, o.request, h.group, h.id, request); SameSilent(p, request); }
      assert Retired(p1, request) by { SilentRetired(p, p1, request); }
      DeliverSilent(x, p1, o, request);
      ExtendsJoin(p, p1, DataPlanes.Deliver(x, p1, o), request);
    case _ => EmitSilent(x, p, ProtocolError, request);
  }

  lemma MarkSilent(p: Plane, r: u64, group: u64, id: u64, request: u64)
    requires Retired(p, request)
    ensures LogExtends(p, Mark(p, r, group, id), request)
  {
  }

  lemma SilentRetired(p: Plane, q: Plane, request: u64)
    requires LogExtends(p, q, request)
    ensures Retired(q, request)
  {
  }

  lemma {:induction false} ReplayDatagramsSilent(x: Context, p: Plane, ds: seq<bytes>, request: u64)
    requires Retired(p, request)
    ensures LogExtends(p, ReplayDatagrams(x, p, ds), request)
    decreases |ds|
  {
    hide DeliverDatagram, LogExtends;
    if ds == [] {
      SameSilent(p, request);
    } else {
      var left := if |ds[0]| <= p.heldBytes then p.heldBytes - |ds[0]| else 0;
      var p1 := p.(heldBytes := left);
      var p2 := DeliverDatagram(x, p1, ds[0], false);
      DatagramSilent(x, p1, ds[0], false, request);
      assert LogExtends(p, p2, request) by { Relabel(p, p1, p2, request); }
      assert Retired(p2, request) by { SilentRetired(p1, p2, request); }
      ReplayDatagramsSilent(x, p2, ds[1..], request);
      ExtendsJoin(p, p2, ReplayDatagrams(x, p, ds), request);
    }
  }

  lemma Relabel(p: Plane, p1: Plane, q: Plane, request: u64)
    requires p1.log == p.log && LogExtends(p1, q, request)
    ensures LogExtends(p, q, request)
  {
  }

  lemma {:induction false} ReplayStreamsSilent(x: Context, p: Plane, ss: seq<u64>, owner: u64, request: u64)
    requires Retired(p, request)
    ensures LogExtends(p, ReplayStreams(x, p, ss, owner), request)
    decreases |ss|
  {
    hide Becomes, Establish, LogExtends;
    if ss == [] {
      SameSilent(p, request);
    } else if ss[0] in p.receivers {
      var p1 := Becomes(x, p, ss[0], Establish(p.receivers[ss[0]], ss[0], owner));
      BecomesSilent(x, p, ss[0], Establish(p.receivers[ss[0]], ss[0], owner), request);
      assert Retired(p1, request) by { SilentRetired(p, p1, request); }
      ReplayStreamsSilent(x, p1, ss[1..], owner, request);
      ExtendsJoin(p, p1, ReplayStreams(x, p, ss, owner), request);
    } else {
      ReplayStreamsSilent(x, p, ss[1..], owner, request);
    }
  }

  lemma InstallSilent(x: Context, p: Plane, alias: u64, owner: u64, request: u64)
    requires Retired(p, request) && owner !in p.states
    ensures LogExtends(p, Install(x, p, alias, owner), request)
  {
    hide ReplayStreams, ReplayDatagrams, LogExtends;
    if alias in p.routes {
      assert LogExtends(p, StopEvery(p), request) by { StopEverySilent(p, request); }
    } else {
      var p1 := Claimed(p, alias, owner);
      var p2 := ReplayDatagrams(x, p1, Held(p, alias));
      ReplayDatagramsSilent(x, p1, Held(p, alias), request);
      assert LogExtends(p, p2, request) by { Relabel(p, p1, p2, request); }
      assert Retired(p2, request) by { SilentRetired(p1, p2, request); }
      var p3 := Replay(x, p, alias, owner);
      ReplayStreamsSilent(x, p2, Streams(p, alias), owner, request);
      ExtendsJoin(p, p2, p3, request);
      assert LogExtends(p, Settled(p3, alias, owner), request) by { SettledSilent(p, p3, alias, owner, request); }
    }
  }

  lemma StopEverySilent(p: Plane, request: u64)
    requires Retired(p, request)
    ensures LogExtends(p, StopEvery(p), request)
  {
  }

  lemma SettledSilent(p: Plane, q: Plane, alias: u64, owner: u64, request: u64)
    requires LogExtends(p, q, request)
    ensures LogExtends(p, Settled(q, alias, owner), request)
  {
  }

  lemma StepSilent(x: Context, p: Plane, e: Event, request: u64)
    requires Retired(p, request) && Allowed(p, e)
    ensures LogExtends(p, Step(x, p, e), request)
  {
    hide Install, DeliverDatagram, Becomes, Receive;
    match e
    case InstallRoute(alias, owner) => InstallSilent(x, p, alias, owner, request);
    case StopRequest(q) =>
    case OnDatagram(d) => DatagramSilent(x, p, d, true, request);
    case Start(s, prefix, fin) =>
      if s !in p.receivers {
        var p1 := With(p, s, Opening(prefix));
        BecomesSilent(x, p1, s, Receive(Opening(prefix), EnvOf(x, p1, s), [], fin), request);
      }
    case Data(s, received, fin) =>
      if s in p.receivers {
        BecomesSilent(x, p, s, Receive(p.receivers[s], EnvOf(x, p, s), received, fin), request);
      }
    case Aborted(s) =>
  }

  /**
   * A retired route never hands an object over again, nor reports an error of its track, whatever
   * streams are still bound to it and whatever becomes of its alias.
   */
  lemma {:induction false} RetiredRouteIsSilent(x: Context, p: Plane, events: seq<Event>, request: u64)
    requires Retired(p, request) && AllowedRun(x, p, events)
    ensures LogExtends(p, DataPlanes.Run(x, p, events), request)
    decreases |events|
  {
    hide Step, LogExtends;
    if events == [] {
      SameSilent(p, request);
    } else {
      var p1 := Step(x, p, events[0]);
      StepSilent(x, p, events[0], request);
      assert Retired(p1, request) by { SilentRetired(p, p1, request); }
      RetiredRouteIsSilent(x, p1, events[1..], request);
      ExtendsJoin(p, p1, DataPlanes.Run(x, p, events), request);
    }
  }

  /** From the moment an established request is stopped, nothing is called on its behalf, over every run. */
  lemma StoppedIsSilent(x: Context, p: Plane, request: u64, events: seq<Event>)
    requires Good(x, p) && request in p.owned && AllowedRun(x, Step(x, p, StopRequest(request)), events)
    ensures LogExtends(p, DataPlanes.Run(x, p, [StopRequest(request)] + events), request)
    ensures p.owned[request] !in Step(x, p, StopRequest(request)).routes
  {
    hide LogExtends, AllowedRun;
    var q := Step(x, p, StopRequest(request));
    assert Retired(q, request) && q.log == p.log && p.owned[request] !in q.routes by {
      StoppedIsRetired(x, p, request);
    }
    assert ([StopRequest(request)] + events)[1..] == events;
    RetiredRouteIsSilent(x, q, events, request);
    Relabel(p, q, DataPlanes.Run(x, q, events), request);
  }

  lemma StoppedIsRetired(x: Context, p: Plane, request: u64)
    requires Good(x, p) && request in p.owned
    ensures var q := Stop(p, request); Retired(q, request) && q.log == p.log && p.owned[request] !in q.routes
  {
    hide BytesExact, ParkedExactly, StashesWithin, Apart;
    assert p.routes[p.owned[request]] == request;
  }
}

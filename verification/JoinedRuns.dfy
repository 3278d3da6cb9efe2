/** What holds in every run of the subscriber session together with its receive plane. */
module JoinedRuns {
  import opened Basics
  import opened DataPlanes
  import opened DataPlaneInvariants
  import opened DataPlaneTheorems
  import opened RetiredRoutes
  import opened Joining
  import opened JoiningTheorems
  import S = Subscribing
  import SI = SubscribingInvariants

  /** Both sides keep their invariants, and know of the same requests. */
  ghost predicate Joined(app: App, w: World) {
    SI.Good(w.session) && Good(ContextOf(app), w.plane) && Linked(w.session, w.plane)
  }

  lemma JoinedPaired(app: App, w: World)
    requires Joined(app, w)
    ensures Paired(w.session, w.plane, None) && w.plane.busy.None?
  {
    hide SI.Sound, SI.Shut, BytesExact, ParkedExactly, StashesWithin, Apart, Table, Linked;
  }

  /** One alias, one owner: the session's table and the plane's say the same. */
  predicate TablesAgree(w: World) {
    && w.plane.routes.Keys == w.session.routes.Keys
    && forall a :: a in w.plane.routes ==>
         && w.session.routes[a] < |w.session.store|
         && w.session.store[w.session.routes[a]] == S.Route(w.plane.routes[a], a, true)
  }

  lemma OwnerKnows(p: Plane, a: u64)
    requires Table(p) && p.busy.None? && a in p.routes
    ensures p.routes[a] in p.owned && p.owned[p.routes[a]] == a
  {
  }

  lemma OwnedIsRouted(p: Plane, q: u64)
    requires Table(p) && q in p.owned
    ensures p.owned[q] in p.routes && p.routes[p.owned[q]] == q
  {
  }

  lemma JoinedTables(app: App, w: World)
    requires Joined(app, w)
    ensures TablesAgree(w)
  {
    hide SI.Core, Table, Good, SI.Good;
    JoinedPaired(app, w);
    var st, p := w.session, w.plane;
    forall a | a in p.routes
      ensures a in st.routes && st.routes[a] < |st.store| && st.store[st.routes[a]] == S.Route(p.routes[a], a, true)
    {
      OwnerKnows(p, a);
      assert Live(st, p.routes[a]);
      assert SI.Bound(st, p.routes[a], None) && SI.RouteOkay(st, a, None);
    }
    forall a | a in st.routes
      ensures a in p.routes
    {
      assert SI.RouteOkay(st, a, None);
      var q := st.store[st.routes[a]].request;
      assert Live(st, q);
      OwnedIsRouted(p, q);
    }
  }

  /** The session just before the n-th callback of the plane. */
  function SessionAt(app: App, w: World, e: Input, n: nat): S.State {
    var st := if Binds(w, e) then S.InstallRoute(w.session, e.id, e.alias) else w.session;
    var log := PlaneStep(app, w, e).log;
    S.DoAll(st, Answers(app, if n <= |log| then log[..n] else log, |w.plane.log|))
  }

  /**
   * Whoever is handed an object or told of an error is live at that moment and has been given its
   * alias, unless it is the request whose route the event installs.
   */
  ghost predicate HandlersAreLive(app: App, w: World, e: Input) {
    var log := PlaneStep(app, w, e).log;
    forall n: nat, r: u64 :: |w.plane.log| <= n < |log| && Concerns(log[n], r) ==>
      Live(SessionAt(app, w, e, n), r) || (Binds(w, e) && r == e.id)
  }

  lemma AttendedHandlers(app: App, w: World, e: Input, p: Plane)
    requires p.log == w.plane.log && p.busy == (if Binds(w, e) then Some(e.id) else None)
    requires var st := if Binds(w, e) then S.InstallRoute(w.session, e.id, e.alias) else w.session;
             Attended(app, st, p, PlaneStep(app, w, e).log)
    ensures HandlersAreLive(app, w, e)
  {
    hide Awaited, PlaneStep, S.DoAll, Live, Concerns;
    var log := PlaneStep(app, w, e).log;
    forall n: nat, r: u64 | |w.plane.log| <= n < |log| && Concerns(log[n], r)
      ensures Live(SessionAt(app, w, e, n), r) || (Binds(w, e) && r == e.id)
    {
      assert p.busy == Some(r) ==> Binds(w, e) && r == e.id;
    }
  }

  // ----- data -----

  lemma LeadsTraffic(app: App, p: Plane, d: DataPlanes.Event)
    requires !d.InstallRoute? && !d.StopRequest?
    ensures Leads(app, p, DataPlanes.Step(ContextOf(app), p, d), None)
  {
    hide Leads, DeliverDatagram, StartStream, StreamReceive, StreamAborted;
    match d
    case OnDatagram(b) => LeadsDatagram(app, p, b, true, None);
    case Start(s, prefix, fin) => LeadsStart(app, p, s, prefix, fin, None);
    case Data(s, received, fin) => LeadsReceive(app, p, s, received, fin, None);
    case Aborted(s) => LeadsAborted(app, p, s, None);
  }

  lemma TrafficJoined(app: App, w: World, e: Input)
    requires Joined(app, w) && AllowedTurn(app, w, e) && e.Traffic?
    ensures Joined(app, Turn(app, w, e)) && HandlersAreLive(app, w, e)
  {
    hide SI.Good, Good, Linked, Table, DataPlanes.Step, S.DoAll, S.AllowedCalls, Live, Concerns, SI.Sound, SI.Shut;
    var x, q := ContextOf(app), DataPlanes.Step(ContextOf(app), w.plane, e.data);
    JoinedPaired(app, w);
    SI.StepGood(w.session, SessionEvent(app, w, e));
    StepGood(x, w.plane, e.data);
    LeadsTraffic(app, w.plane, e.data);
    assert LeadsFrom(app, w.session, w.plane, q, None);
    AttendedHandlers(app, w, e, w.plane);
  }

  // ----- SUBSCRIBE_OK -----

  lemma ClaimedPaired(app: App, w: World, e: Input)
    requires Joined(app, w) && Binds(w, e)
    ensures e.alias !in w.plane.routes && e.id !in w.plane.states
    ensures Paired(S.InstallRoute(w.session, e.id, e.alias), Claimed(w.plane, e.alias, e.id), Some(e.alias))
  {
    hide Table, Good, SI.Core, SI.Routes, Claimed;
    var st, p := w.session, w.plane;
    JoinedPaired(app, w);
    JoinedTables(app, w);
    SI.InstallSound(st, e.id, e.alias);
    SI.RequestsHaveRoles(st);
    PendingHasNone(st, e.id);
    assert Table(Claimed(p, e.alias, e.id)) by { ClaimedTable(p, e.alias, e.id); }
    ClaimedLinked(st, p, e.id, e.alias);
  }

  lemma PendingHasNone(st: S.State, id: u64)
    requires SI.Core(st) && id in st.requests && st.requests[id].phase.Pending?
    ensures st.requests[id].alias.None?
  {
    hide SI.Promised, SI.Histories;
    assert SI.RequestOkay(st, id);
  }

  lemma ClaimedLinked(st: S.State, p: Plane, id: u64, alias: u64)
    requires Linked(st, p) && p.busy.None? && id in st.requests && id in st.roles && st.requests[id].alias.None?
    ensures Linked(S.InstallRoute(st, id, alias), Claimed(p, alias, id))
  {
    var r := S.InstallRoute(st, id, alias);
    assert forall q :: Live(r, q) <==> Live(st, q);
  }

  lemma SettledLinked(st: S.State, p: Plane, id: u64, alias: u64)
    requires Linked(st, p) && p.busy == Some(id) && id !in p.owned
    ensures var r := if id !in st.requests then S.Retire(st, alias) else S.Establish(st, id, alias);
            Linked(r, Settled(p, alias, id))
  {
    hide Linked, Settled, S.Retire, S.Establish;
    if id in st.requests {
      EstablishedLinked(st, p, id, alias);
    } else {
      RetiredLinked(st, p, id, alias);
    }
  }

  lemma EstablishedLinked(st: S.State, p: Plane, id: u64, alias: u64)
    requires Linked(st, p) && p.busy == Some(id) && id in st.requests
    ensures Linked(S.Establish(st, id, alias), Settled(p, alias, id))
  {
    hide Retire;
    var r := S.Establish(st, id, alias);
    assert forall k :: k != id ==> (Live(r, k) <==> Live(st, k));
  }

  lemma RetiredLinked(st: S.State, p: Plane, id: u64, alias: u64)
    requires Linked(st, p) && p.busy == Some(id) && id !in st.requests
    ensures Linked(S.Retire(st, alias), Settled(p, alias, id))
  {
    hide Retire;
    RetireFields(p, alias);
    RetireRest(p, alias);
    var r := S.Retire(st, alias);
    assert r.requests == st.requests && r.roles == st.roles;
    assert forall k :: Live(r, k) <==> Live(st, k);
  }

  lemma BindingJoined(app: App, w: World, e: Input)
    requires Joined(app, w) && AllowedTurn(app, w, e) && Binds(w, e)
    ensures Joined(app, Turn(app, w, e)) && HandlersAreLive(app, w, e)
  {
    hide SI.Good, Good, Linked, Table, Claimed, Replay, Settled, S.DoAll, S.AllowedCalls, Live, Concerns, SI.Sound,
         SI.Shut, S.InstallRoute, Answer, S.Establish, S.Retire;
    var x, st, p := ContextOf(app), w.session, w.plane;
    ClaimedPaired(app, w, e);
    JoinedPaired(app, w);
    InstallGood(x, p, e.alias, e.id);
    SI.StepGood(st, SessionEvent(app, w, e));
    var st0, p0, r := S.InstallRoute(st, e.id, e.alias), Claimed(p, e.alias, e.id), Replay(x, p, e.alias, e.id);
    ClaimedStart(p, e.alias, e.id);
    ReplayInstalling(x, p, e.alias, e.id);
    LeadsReplay(app, p, e.alias, e.id, Some(e.alias));
    assert LeadsFrom(app, st0, p0, r, Some(e.alias));
    BusyApart(r);
    SettledLinked(S.DoAll(st0, Answers(app, r.log, |p.log|)), r, e.id, e.alias);
    assert PlaneStep(app, w, e).log == r.log by { SettledLog(r, e.alias, e.id); }
    AttendedHandlers(app, w, e, p0);
  }

  lemma ClaimedStart(p: Plane, alias: u64, request: u64)
    ensures Claimed(p, alias, request).log == p.log && Claimed(p, alias, request).busy == Some(request)
  {
  }

  lemma SettledLog(p: Plane, alias: u64, request: u64)
    ensures Settled(p, alias, request).log == p.log
  {
  }

  /** SUBSCRIBE_OK with an alias that is taken closes the session, and stops everything in the plane. */
  lemma ReusedJoined(app: App, w: World, e: Input)
    requires Joined(app, w) && AllowedTurn(app, w, e) && e.Accepted? && Awaited(w.session, e.id) && !Binds(w, e)
    ensures Joined(app, Turn(app, w, e)) && PlaneStep(app, w, e).log == w.plane.log
  {
    hide SI.Good, Good, Linked, Table, Replay, Settled, S.DoAll, S.AllowedCalls, S.Shutdown, SI.Sound, SI.Shut;
    var x, st, p := ContextOf(app), w.session, w.plane;
    JoinedPaired(app, w);
    JoinedTables(app, w);
    SI.StepGood(st, SessionEvent(app, w, e));
    StopEveryGood(x, p);
    PairedClose(st, p, e.order, e.reactions, None);
  }

  // ----- everything else that the session is told -----

  lemma LinkedAbort(st: S.State, p: Plane, id: u64, reaction: seq<S.Call>)
    requires Paired(st, p, None) && S.AllowedCalls(S.Terminate(st, id), reaction)
    ensures Linked(S.Abort(st, id, reaction), StopAll(p, [id] + HaltsAll(reaction)))
  {
    hide Linked, Table, Stop, S.Terminate, SI.Sound, SI.Shut, S.DoAll, S.AllowedCalls;
    var c := S.Call.Stop(id);
    LinkedDo(st, p, c, None);
    StopAllJoin(p, [id], HaltsAll(reaction));
    LinkedCalls(S.Do(st, c), StopAll(p, [id]), reaction, None);
  }

  lemma LinkedDone(st: S.State, p: Plane, id: u64, reaction: seq<S.Call>)
    requires Paired(st, p, None) && S.AllowedCalls(st, reaction)
    ensures Linked(S.Terminate(S.DoAll(st, reaction), id), StopAll(p, HaltsAll(reaction) + [id]))
  {
    hide Linked, Table, Stop, S.Terminate, SI.Sound, SI.Shut, S.DoAll, S.AllowedCalls;
    LinkedCalls(st, p, reaction, None);
    StopAllJoin(p, HaltsAll(reaction), [id]);
    LinkedDo(S.DoAll(st, reaction), StopAll(p, HaltsAll(reaction)), S.Call.Stop(id), None);
  }

  /** REQUEST_ERROR: a pending request is rejected; the updates of an established one fail. */
  lemma LinkedError(st: S.State, p: Plane, id: u64, tag: nat, reaction: seq<S.Call>)
    requires Paired(st, p, None) && S.Allowed(st, S.Received(id, S.RequestError(tag, reaction)))
    ensures var m := S.RequestError(tag, reaction);
            Linked(S.Handle(st, id, m), StopAll(p, MessageHalts(st, id, m)))
  {
    hide Linked, Table, Stop, S.Terminate, SI.Sound, SI.Shut, S.DoAll, S.AllowedCalls, S.FailAll, S.Abort, HaltsAll;
    if id in st.requests && id in st.history {
      var r := st.requests[id];
      if r.phase.Pending? {
        var st1 := S.Fail(st, id, S.Rejected(tag)).(requests := st.requests[id := r.(resultHeld := false)]);
        LinkedAlike(st, st1, p);
        LinkedStop(st1, p, id);
        StopOne(p, id);
      } else if r.updates == [] {
        LinkedAbort(st, p, id, reaction);
      } else {
        SI.FailAllEffect(st, r.updates, S.Rejected(tag));
        LinkedAlike(st, S.Handle(st, id, S.RequestError(tag, reaction)), p);
      }
    }
  }

  lemma LinkedMessage(st: S.State, p: Plane, id: u64, m: S.Message)
    requires Paired(st, p, None) && S.Allowed(st, S.Received(id, m))
    requires !(m.SubscribeOk? && Awaited(st, id))
    ensures Linked(S.Handle(st, id, m), StopAll(p, MessageHalts(st, id, m)))
  {
    hide Linked, Table, Stop, S.Terminate, SI.Sound, SI.Shut, S.DoAll, S.AllowedCalls, S.FailAll, S.Abort, HaltsAll,
         S.Bind, S.Shutdown;
    if id in st.requests && id in st.history {
      var r, calls := st.requests[id], S.CallsOf(m);
      if r.phase.Pending? && !m.RequestError? {
        LinkedAbort(st, p, id, calls);
      } else {
        match m
        case SubscribeOk(_, _, _, _) => LinkedAbort(st, p, id, calls);
        case RequestError(tag, reaction) => LinkedError(st, p, id, tag, reaction);
        case RequestOk(tag, properties, _) =>
          if r.updates == [] || properties {
            LinkedAbort(st, p, id, calls);
          } else {
            LinkedAlike(st, S.Handle(st, id, m), p);
          }
        case PublishDone(_) => LinkedDone(st, p, id, calls);
        case GoAway(_) =>
        case Undecodable(_) => LinkedAbort(st, p, id, calls);
        case Unknown(_) => LinkedCalls(st, p, calls, None);
      }
    }
  }

  lemma LinkedControl(st: S.State, p: Plane, e: S.Event)
    requires Paired(st, p, None) && S.Allowed(st, e)
    requires !(e.Received? && e.message.SubscribeOk? && Awaited(st, e.id))
    ensures Linked(S.Step(st, e), StopAll(p, ControlHalts(st, e)))
  {
    hide Linked, Table, Stop, S.Terminate, SI.Sound, SI.Shut, S.DoAll, S.AllowedCalls, S.Abort, HaltsAll, S.Handle,
         MessageHalts;
    match e
    case Received(id, m) => LinkedMessage(st, p, id, m);
    case StreamEnded(id, reaction) =>
      if id in st.requests {
        LinkedAbort(st, p, id, reaction);
      }
    case Calls(calls) => LinkedCalls(st, p, calls, None);
  }

  lemma {:induction false} StopAllGood(x: Context, p: Plane, ids: seq<u64>)
    requires Good(x, p)
    ensures Good(x, StopAll(p, ids)) && StopAll(p, ids).log == p.log
    decreases |ids|
  {
    hide Good, Stop;
    if ids != [] {
      StopGood(x, p, ids[0]);
      StopLog(p, ids[0]);
      StopAllGood(x, Stop(p, ids[0]), ids[1..]);
    }
  }

  lemma StopLog(p: Plane, id: u64)
    ensures Stop(p, id).log == p.log
  {
  }

  lemma ControlJoined(app: App, w: World, e: Input)
    requires Joined(app, w) && AllowedTurn(app, w, e) && !e.Traffic?
    requires e.Accepted? ==> !Awaited(w.session, e.id)
    ensures Joined(app, Turn(app, w, e)) && PlaneStep(app, w, e).log == w.plane.log
  {
    hide SI.Good, Good, Linked, Table, SI.Sound, SI.Shut, S.Step, S.Allowed, ControlHalts, StopAll;
    var c := SessionEvent(app, w, e);
    JoinedPaired(app, w);
    SI.StepGood(w.session, c);
    LinkedControl(w.session, w.plane, c);
    StopAllGood(ContextOf(app), w.plane, ControlHalts(w.session, c));
  }

  // ----- runs -----

  lemma StepJoined(app: App, w: World, e: Input)
    requires Joined(app, w) && AllowedTurn(app, w, e)
    ensures Joined(app, Turn(app, w, e)) && HandlersAreLive(app, w, e)
  {
    hide Joined, AllowedTurn, Turn, PlaneStep, Awaited;
    if e.Traffic? {
      TrafficJoined(app, w, e);
    } else if Binds(w, e) {
      BindingJoined(app, w, e);
    } else if e.Accepted? && Awaited(w.session, e.id) {
      ReusedJoined(app, w, e);
    } else {
      ControlJoined(app, w, e);
    }
  }

  ghost predicate AlwaysLive(app: App, w: World, events: seq<Input>)
    decreases |events|
  {
    events == [] || (HandlersAreLive(app, w, events[0]) && AlwaysLive(app, Turn(app, w, events[0]), events[1..]))
  }

  lemma {:induction false} RunJoined(app: App, w: World, events: seq<Input>)
    requires Joined(app, w) && AllowedTurns(app, w, events)
    ensures Joined(app, Turns(app, w, events)) && AlwaysLive(app, w, events)
    decreases |events|
  {
    hide Joined, AllowedTurn, Turn, HandlersAreLive;
    if events != [] {
      StepJoined(app, w, events[0]);
      RunJoined(app, Turn(app, w, events[0]), events[1..]);
    }
  }

  /**
   * In every run, whatever arrives and whatever the application calls from inside its callbacks: the
   * plane's routes are exactly those of the session's live requests, both sides keep their invariants,
   * and no handler is called for a request that is not live, except by the replay of its own route.
   */
  lemma HandlersOnlyWhileLive(app: App, events: seq<Input>)
    requires AllowedTurns(app, START, events)
    ensures var w := Turns(app, START, events); Joined(app, w) && TablesAgree(w)
    ensures AlwaysLive(app, START, events)
  {
    hide AllowedTurns, Turns, AlwaysLive, TablesAgree, Good, SI.Good;
    StartJoined(app);
    RunJoined(app, START, events);
    JoinedTables(app, Turns(app, START, events));
  }

  lemma StartJoined(app: App)
    ensures Joined(app, START)
  {
    hide Good, SI.Good;
    Accounting(ContextOf(app), []);
    assert DataPlanes.Run(ContextOf(app), EMPTY, []) == EMPTY;
    SI.Reachable([]);
    assert S.Run(S.INITIAL, []) == S.INITIAL;
  }

  /** The session of a joined run is a run of the session by itself. */
  function SessionEvents(app: App, w: World, events: seq<Input>): seq<S.Event>
    decreases |events|
  {
    if events == [] then [] else
    [SessionEvent(app, w, events[0])] + SessionEvents(app, Turn(app, w, events[0]), events[1..])
  }

  lemma {:induction false} SessionsRun(app: App, w: World, events: seq<Input>)
    requires AllowedTurns(app, w, events)
    ensures var es := SessionEvents(app, w, events);
            S.AllowedRun(w.session, es) && Turns(app, w, events).session == S.Run(w.session, es)
    decreases |events|
  {
    hide SessionEvent, PlaneStep, S.Step, S.Allowed;
    if events != [] {
      SessionsRun(app, Turn(app, w, events[0]), events[1..]);
      var es := SessionEvents(app, w, events);
      assert es[0] == SessionEvent(app, w, events[0]);
      assert es[1..] == SessionEvents(app, Turn(app, w, events[0]), events[1..]);
    }
  }
}

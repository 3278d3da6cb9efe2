/** What the subscriber session promises to the application, over whole runs. */
module SubscriberTheorems {
  import opened Basics
  import opened Subscribing
  import opened SubscribingInvariants

  /**
   * Futures: in every reachable state a request holds its result exactly while it is pending and has
   * been granted its own alias from then on, only an established one waits for updates, no settled
   * promise was ever given a value again, every promise handed out is settled or still held by a live
   * request, and that of an update that could not be sent has failed.
   */
  lemma FuturesAreKept(events: seq<Event>)
    requires AllowedRun(INITIAL, events)
    ensures var st := Run(INITIAL, events);
            && !st.broken
            && (forall id :: id in st.requests ==>
                  && (st.requests[id].resultHeld <==> st.requests[id].phase.Pending?)
                  && (st.requests[id].phase.Pending? <==> id !in st.settled)
                  && (!st.requests[id].phase.Pending? ==>
                        st.requests[id].alias.Some? && st.settled[id] == Granted(st.requests[id].alias.value))
                  && (st.requests[id].updates != [] ==> st.requests[id].phase.Established?))
            && (forall p :: p in st.roles && p !in st.settled ==> Waiting(st, p))
            && (forall p :: p in st.roles && st.roles[p] == Unsent ==> p in st.settled && st.settled[p] == Failed)
  {
    hide Run;
    Reachable(events);
    var st := Run(INITIAL, events);
    forall id | id in st.requests
      ensures RequestOkay(st, id)
    {
    }
    forall p | p in st.roles && p !in st.settled
      ensures Waiting(st, p)
    {
      StillWaiting(st, p);
    }
    assert forall p :: p in st.roles ==> Kept(st, p);
  }

  /** A live request holds the promise. */
  predicate Waiting(st: State, p: u64) {
    || (p in st.requests && st.requests[p].resultHeld)
    || (exists id :: id in st.requests && p in st.requests[id].updates)
  }

  lemma StillWaiting(st: State, p: u64)
    requires Good(st) && p in st.roles && p !in st.settled
    ensures Waiting(st, p)
  {
    hide Routes;
    assert Kept(st, p);
    match st.roles[p]
    case ForSubscribe => assert RequestOkay(st, p);
    case ForUpdate(id, k) =>
      assert HistoryOkay(st, id);
      var h := st.history[id];
      assert id in st.requests && k >= |h.oks|;
      assert h.sent[|h.oks|..][k - |h.oks|] == p;
  }

  /**
   * Updates: in every reachable state the k-th REQUEST_OK of a request has settled the k-th update
   * sent on it; of the others, all wait in order, or all were rejected by the first REQUEST_ERROR, or
   * all failed with the request.
   */
  lemma UpdatesSettleInOrder(events: seq<Event>, id: u64)
    requires AllowedRun(INITIAL, events) && id in Run(INITIAL, events).history
    ensures var st := Run(INITIAL, events); var h := st.history[id];
            && |h.oks| <= |h.sent|
            && (forall k :: 0 <= k < |h.oks| ==> h.sent[k] in st.settled && st.settled[h.sent[k]] == Answered(h.oks[k]))
            && (|| (id in st.requests && st.requests[id].updates == h.sent[|h.oks|..])
                || AllSettled(st, h.sent[|h.oks|..], if h.error.Some? then Rejected(h.error.value) else Failed))
  {
    hide Run, Routes;
    Reachable(events);
    var st := Run(INITIAL, events);
    assert HistoryOkay(st, id);
    var h := st.history[id];
    assert forall k :: 0 <= k < |h.sent| - |h.oks| ==> h.sent[|h.oks|..][k] == h.sent[k + |h.oks|];
  }

  predicate AllSettled(st: State, ps: seq<u64>, v: Verdict) {
    forall i :: 0 <= i < |ps| ==> ps[i] in st.settled && st.settled[ps[i]] == v
  }

  /**
   * Routes: in every reachable state the table holds exactly the aliases of the live requests, each
   * bound to an active route of its owner, and no route outside the table is active.
   */
  lemma RoutesAreTheLiveAliases(events: seq<Event>)
    requires AllowedRun(INITIAL, events)
    ensures var st := Run(INITIAL, events);
            && (forall alias :: alias in st.routes <==>
                exists id :: id in st.requests && st.requests[id].alias == Some(alias))
            && (forall id :: id in st.requests && st.requests[id].alias.Some? ==>
                  var route := st.routes[st.requests[id].alias.value];
                  route < |st.store| && st.store[route] == Route(id, st.requests[id].alias.value, true))
            && (forall i :: 0 <= i < |st.store| && st.store[i].active ==>
                  st.store[i].alias in st.routes && st.routes[st.store[i].alias] == i)
  {
    hide Run, Core;
    Reachable(events);
    var st := Run(INITIAL, events);
    forall alias | alias in st.routes
      ensures exists id :: id in st.requests && st.requests[id].alias == Some(alias)
    {
      assert RouteOkay(st, alias, None);
    }
    forall id | id in st.requests && st.requests[id].alias.Some?
      ensures st.requests[id].alias.value in st.routes
      ensures var route := st.routes[st.requests[id].alias.value];
              route < |st.store| && st.store[route] == Route(id, st.requests[id].alias.value, true)
    {
      assert Bound(st, id, None);
      assert RouteOkay(st, st.requests[id].alias.value, None);
    }
  }

  // ----- what later events cannot undo -----

  /** Verdicts stand, route objects keep their identity, and retired ones stay retired. */
  predicate Monotone(st: State, r: State) {
    && (forall p :: p in st.settled ==> p in r.settled && r.settled[p] == st.settled[p])
    && |st.store| <= |r.store|
    && (forall i :: 0 <= i < |st.store| ==> r.store[i] == st.store[i] || r.store[i] == st.store[i].(active := false))
    && (forall p :: p in st.roles ==> p in r.roles && r.roles[p] == st.roles[p])
    && (!st.ready ==> !r.ready)
  }

  lemma MonotoneTwice(a: State, b: State, c: State)
    requires Monotone(a, b) && Monotone(b, c)
    ensures Monotone(a, c)
  {
  }

  lemma LaterMonotone(st: State, r: State, installing: Option<u64>)
    requires Later(st, r, installing)
    ensures Monotone(st, r)
  {
  }

  lemma AbortMonotone(st: State, id: u64, reaction: seq<Call>)
    requires Good(st) && AllowedCalls(Terminate(st, id), reaction)
    ensures Monotone(st, Abort(st, id, reaction))
  {
    hide Core, Routes, Terminate, DoAll, AllowedCalls, Later, Monotone;
    TerminateSound(st, id, None);
    assert Shut(Terminate(st, id));
    DoAllSound(Terminate(st, id), reaction, None);
    LaterMonotone(st, Terminate(st, id), None);
    LaterMonotone(Terminate(st, id), Abort(st, id, reaction), None);
    MonotoneTwice(st, Terminate(st, id), Abort(st, id, reaction));
  }

  lemma DoneMonotone(st: State, id: u64, reaction: seq<Call>)
    requires Good(st) && AllowedCalls(st, reaction)
    ensures Monotone(st, DoAll(st, reaction)) && Monotone(st, Terminate(DoAll(st, reaction), id))
  {
    hide Core, Routes, Terminate, DoAll, AllowedCalls, Later, Monotone;
    var st1 := DoAll(st, reaction);
    DoAllSound(st, reaction, None);
    TerminateSound(st1, id, None);
    LaterMonotone(st, st1, None);
    LaterMonotone(st1, Terminate(st1, id), None);
    MonotoneTwice(st, st1, Terminate(st1, id));
  }

  lemma BindMonotone(st: State, id: u64, alias: u64, replay: seq<Call>)
    requires Good(st) && id in st.requests && st.requests[id].phase.Pending? && alias !in st.routes
    requires AllowedCalls(InstallRoute(st, id, alias), replay)
    ensures Monotone(st, Bind(st, id, alias, replay))
  {
    hide Core, Routes, DoAll, AllowedCalls, Later;
    var st0 := InstallRoute(st, id, alias);
    InstallSound(st, id, alias);
    DoAllSound(st0, replay, Some(alias));
    LaterMonotone(st0, DoAll(st0, replay), Some(alias));
  }

  lemma StepMonotone(st: State, e: Event)
    requires Good(st) && Allowed(st, e)
    ensures Monotone(st, Step(st, e))
  {
    hide Good, Abort, Bind, Shutdown, Terminate, DoAll, AllowedCalls, InstallRoute, FailAll;
    match e
    case Calls(calls) => DoneMonotone(st, 0, calls);
    case StreamEnded(id, reaction) => AbortMonotone(st, id, reaction);
    case Received(id, m) =>
      if id in st.requests && id in st.history {
        ReceivedMonotone(st, id, m);
      }
  }

  lemma ReceivedMonotone(st: State, id: u64, m: Message)
    requires Good(st) && Allowed(st, Received(id, m)) && id in st.requests && id in st.history
    ensures Monotone(st, Handle(st, id, m))
  {
    hide Good, Abort, Bind, Shutdown, DoAll, AllowedCalls, InstallRoute, FailAll, Monotone, Terminate;
    var q := st.requests[id];
    match m
    case SubscribeOk(alias, replay, order, reactions) =>
      if !q.phase.Pending? {
        AbortMonotone(st, id, replay);
      } else if alias in st.routes {
        ShutdownMonotone(st, order, reactions);
      } else {
        BindMonotone(st, id, alias, replay);
      }
    case RequestError(tag, reaction) =>
      if !q.phase.Pending? && q.updates == [] {
        AbortMonotone(st, id, reaction);
      } else {
        ErrorMonotone(st, id, tag, reaction);
      }
    case RequestOk(tag, properties, reaction) =>
      if q.phase.Pending? || q.updates == [] || properties {
        AbortMonotone(st, id, reaction);
      } else {
        AnswerMonotone(st, id, tag, reaction);
      }
    case PublishDone(reaction) =>
      if q.phase.Pending? {
        AbortMonotone(st, id, reaction);
      } else {
        DoneMonotone(st, id, reaction);
      }
    case GoAway(reaction) =>
      AbortMonotone(st, id, reaction);
      SameMonotone(st);
    case Undecodable(reaction) => AbortMonotone(st, id, reaction);
    case Unknown(reaction) =>
      if q.phase.Pending? {
        AbortMonotone(st, id, reaction);
      } else {
        DoneMonotone(st, id, reaction);
      }
  }

  lemma SameMonotone(st: State)
    ensures Monotone(st, st)
  {
  }

  lemma ShutdownMonotone(st: State, order: seq<u64>, reactions: seq<seq<Quick>>)
    requires Good(st) && forall id :: id in st.requests ==> id in order
    ensures Monotone(st, Shutdown(st, order, reactions))
  {
    hide Core, Routes, Later, TerminateAll;
    if st.ready {
      ShutdownSound(st, order, reactions, None);
      LaterMonotone(st, Shutdown(st, order, reactions), None);
    }
  }

  lemma ErrorMonotone(st: State, id: u64, tag: nat, reaction: seq<Call>)
    requires Good(st) && id in st.requests && id in st.history
    requires st.requests[id].phase.Pending? || st.requests[id].updates != []
    ensures Monotone(st, Handle(st, id, RequestError(tag, reaction)))
  {
    hide FailAll, Core, Routes, Terminate;
    var q := st.requests[id];
    if q.phase.Pending? {
      PendingFields(st, id);
      var held := Fail(st, id, Rejected(tag)).(requests := st.requests[id := q.(resultHeld := false)]);
      TerminateEffect(held, id);
    } else {
      FailAllEffect(st, q.updates, Rejected(tag));
    }
  }

  lemma AnswerMonotone(st: State, id: u64, tag: nat, reaction: seq<Call>)
    requires Good(st) && id in st.requests && id in st.history && st.requests[id].phase != Pending
            && st.requests[id].updates != []
    ensures Monotone(st, Handle(st, id, RequestOk(tag, false, reaction)))
  {
    hide Core, Routes;
  }

  lemma {:induction false} RunMonotone(st: State, events: seq<Event>)
    requires Good(st) && AllowedRun(st, events)
    ensures Good(Run(st, events)) && Monotone(st, Run(st, events))
    decreases |events|
  {
    hide Good, Step, Allowed, Monotone;
    SameMonotone(st);
    if events != [] {
      StepGood(st, events[0]);
      StepMonotone(st, events[0]);
      RunMonotone(Step(st, events[0]), events[1..]);
      MonotoneTwice(st, Step(st, events[0]), Run(st, events));
    }
  }

  /** A promise is settled by its first outcome only: no later event changes the verdict. */
  lemma FirstVerdictStands(st: State, events: seq<Event>, p: u64)
    requires Good(st) && AllowedRun(st, events) && p in st.settled
    ensures p in Run(st, events).settled && Run(st, events).settled[p] == st.settled[p]
  {
    hide Good, Run;
    RunMonotone(st, events);
  }

  /** A retired route never delivers again, even if its alias is bound anew. */
  lemma RetiredForever(st: State, events: seq<Event>, i: nat)
    requires Good(st) && AllowedRun(st, events) && i < |st.store| && !st.store[i].active
    ensures i < |Run(st, events).store| && Run(st, events).store[i] == st.store[i]
    ensures forall alias :: alias in Run(st, events).routes ==> Run(st, events).routes[alias] != i
  {
    hide Run, Core;
    RunMonotone(st, events);
    var r := Run(st, events);
    forall alias | alias in r.routes
      ensures r.routes[alias] != i
    {
      assert RouteOkay(r, alias, None);
    }
  }

  /** Once the session closes no request is live, and none ever becomes live again. */
  lemma NothingLivesAfterClose(st: State, events: seq<Event>)
    requires Good(st) && AllowedRun(st, events) && !st.ready
    ensures var r := Run(st, events); !r.ready && r.requests == map[] && r.routes == map[]
  {
    hide Run, Core;
    RunMonotone(st, events);
    var r := Run(st, events);
    assert forall alias :: alias in r.routes ==> RouteOkay(r, alias, None);
    assert r.routes.Keys == {};
  }

  /** The owner is live and its alias is bound to its own, active route. */
  predicate Holds(st: State, owner: u64, alias: u64, route: nat) {
    && owner in st.requests && st.requests[owner].alias == Some(alias)
    && alias in st.routes && st.routes[alias] == route
    && route < |st.store| && st.store[route] == Route(owner, alias, true)
  }

  /** Neither the closing loop nor a handler has come to the owner in these turns. */
  predicate Spared(order: seq<u64>, reactions: seq<seq<Quick>>, owner: u64) {
    owner !in order && forall i :: 0 <= i < |order| && i < |reactions| ==> StopNow(owner) !in reactions[i]
  }

  /** Terminating one request leaves the route of another alone. */
  lemma TerminateSpares(st: State, other: u64, owner: u64, alias: u64, route: nat)
    requires Sound(st, None) && Holds(st, owner, alias, route) && other != owner
    ensures Holds(Terminate(st, other), owner, alias, route)
  {
    hide Terminate, Sound, Retire;
    TerminateTables(st, other);
    if other in st.requests && st.requests[other].alias.Some? {
      AliasesApart(st, other, owner);
      RetireSpares(st, st.requests[other].alias.value, owner, alias, route);
    }
  }

  lemma TerminateTables(st: State, id: u64)
    ensures id !in st.requests ==> Terminate(st, id) == st
    ensures id in st.requests ==>
              var r := Terminate(st, id); var alias := st.requests[id].alias;
              && r.requests == st.requests - {id}
              && r.routes == (if alias.Some? then Retire(st, alias.value).routes else st.routes)
              && r.store == (if alias.Some? then Retire(st, alias.value).store else st.store)
  {
    if id in st.requests {
      TerminateEffect(st, id);
    }
  }

  /** No two live requests hold one alias. */
  lemma AliasesApart(st: State, a: u64, b: u64)
    requires Sound(st, None) && a in st.requests && b in st.requests && a != b && st.requests[a].alias.Some?
    ensures st.requests[a].alias != st.requests[b].alias
    ensures var alias := st.requests[a].alias.value;
            alias in st.routes && st.routes[alias] < |st.store| && st.store[st.routes[alias]].request == a
  {
    hide Core;
    assert Bound(st, a, None) && Bound(st, b, None);
  }

  lemma RetireSpares(st: State, theirs: u64, owner: u64, alias: u64, route: nat)
    requires Holds(st, owner, alias, route) && theirs != alias
    requires theirs in st.routes && st.routes[theirs] != route
    ensures var r := Retire(st, theirs);
            alias in r.routes && r.routes[alias] == route && route < |r.store| && r.store[route] == st.store[route]
  {
  }

  lemma UpdateSpares(st: State, other: u64, ok: bool, owner: u64, alias: u64, route: nat)
    requires Holds(st, owner, alias, route)
    ensures Holds(RequestUpdate(st, other, ok), owner, alias, route)
  {
  }

  lemma {:induction false} QuickSpares(st: State, qs: seq<Quick>, owner: u64, alias: u64, route: nat)
    requires Sound(st, None) && Holds(st, owner, alias, route) && StopNow(owner) !in qs
    ensures Holds(DoQuick(st, qs), owner, alias, route)
    decreases |qs|
  {
    hide Core, Routes, Terminate, RequestUpdate, Holds;
    if qs != [] {
      match qs[0] {
        case StopNow(other) =>
          assert other != owner;
          TerminateSound(st, other, None);
          TerminateSpares(st, other, owner, alias, route);
          QuickSpares(Terminate(st, other), qs[1..], owner, alias, route);
        case UpdateNow(other, ok) =>
          UpdateSound(st, other, ok, None);
          UpdateSpares(st, other, ok, owner, alias, route);
          QuickSpares(RequestUpdate(st, other, ok), qs[1..], owner, alias, route);
      }
    }
  }

  lemma {:induction false} TerminateAllSpares(st: State, order: seq<u64>, reactions: seq<seq<Quick>>, owner: u64,
                                              alias: u64, route: nat)
    requires Sound(st, None) && Holds(st, owner, alias, route) && Spared(order, reactions, owner)
    ensures Holds(TerminateAll(st, order, reactions), owner, alias, route)
    decreases |order|
  {
    hide Core, Routes, Terminate, DoQuick, Holds;
    if order != [] {
      var st1 := Terminate(st, order[0]);
      var st2 := if order[0] in st.requests && reactions != [] then DoQuick(st1, reactions[0]) else st1;
      TerminateSound(st, order[0], None);
      TerminateSpares(st, order[0], owner, alias, route);
      if reactions != [] {
        QuickSound(st1, reactions[0], None);
        QuickSpares(st1, reactions[0], owner, alias, route);
      }
      var later := if reactions == [] then [] else reactions[1..];
      assert forall i :: 0 <= i < |later| ==> later[i] == reactions[i + 1];
      TerminateAllSpares(st2, order[1..], later, owner, alias, route);
    }
  }

  /** The session while it closes, after `k` turns of the loop over its requests. */
  function AfterTurns(st: State, order: seq<u64>, reactions: seq<seq<Quick>>, k: nat): State
    requires k <= |order|
  {
    TerminateAll(st.(ready := false), order[..k], reactions)
  }

  /** These are the states that the loop goes through: what is left of it leads from each of them to the end. */
  lemma {:induction false} TurnsLeadOn(st: State, order: seq<u64>, reactions: seq<seq<Quick>>, k: nat)
    requires k <= |order|
    ensures TerminateAll(st, order, reactions) ==
            TerminateAll(TerminateAll(st, order[..k], reactions), order[k..],
                if k <= |reactions| then reactions[k..] else [])
    decreases k
  {
    hide Terminate, DoQuick;
    if k == 0 {
      assert order[..0] == [] && order[0..] == order && reactions[0..] == reactions;
    } else {
      var st1 := Terminate(st, order[0]);
      var st2 := if order[0] in st.requests && reactions != [] then DoQuick(st1, reactions[0]) else st1;
      var later := if reactions == [] then [] else reactions[1..];
      TurnsLeadOn(st2, order[1..], later, k - 1);
      assert order[..k][0] == order[0] && order[..k][1..] == order[1..][..k - 1] && order[1..][k - 1..] == order[k..];
      assert reactions != [] && k <= |reactions| ==> later[k - 1..] == reactions[k..];
    }
  }

  /**
   * A SUBSCRIBE_OK that reuses a bound alias ends the session and fails its own request, and no route
   * of the newcomer is left behind. It does not retire the owner's route: after every turn of the
   * closing loop before the owner's own, and unless a handler stops the owner, the owner is live and
   * its route is in the table and active.
   */
  lemma ReusedAliasCloses(st: State, id: u64, alias: u64, replay: seq<Call>, order: seq<u64>,
                          reactions: seq<seq<Quick>>)
    requires Good(st) && id in st.requests && id in st.history && st.requests[id].phase.Pending? && alias in st.routes
    requires Allowed(st, Received(id, SubscribeOk(alias, replay, order, reactions)))
    ensures var r := Handle(st, id, SubscribeOk(alias, replay, order, reactions));
            && !r.ready && r.requests == map[] && r.routes == map[] && |r.store| == |st.store|
            && id in r.settled && r.settled[id] == Failed
            && r == AfterTurns(st, order, reactions, |order|)
    ensures st.routes[alias] < |st.store|
    ensures var owner := st.store[st.routes[alias]].request;
            && Holds(st, owner, alias, st.routes[alias]) && owner != id
            && (forall k: nat :: k <= |order| && Spared(order[..k], reactions, owner) ==>
                  Holds(AfterTurns(st, order, reactions, k), owner, alias, st.routes[alias]))
  {
    hide Core, Later, Shutdown, AllowedCalls, InstallRoute, TerminateAll;
    var r := Handle(st, id, SubscribeOk(alias, replay, order, reactions));
    ReadyWithRequests(st, id);
    ShutdownSound(st, order, reactions, None);
    NothingLivesAfterClose(r, []);
    PendingFields(st, id);
    StoreKept(st, r);
    ShutdownFails(st, order, reactions, id);
    ShutIsTurns(st, order, reactions);
    assert RouteOkay(st, alias, None);
    var owner := st.store[st.routes[alias]].request;
    var closing := st.(ready := false);
    ReadyOnly(st, None);
    assert Holds(closing, owner, alias, st.routes[alias]);
    forall k: nat | k <= |order| && Spared(order[..k], reactions, owner)
      ensures Holds(AfterTurns(st, order, reactions, k), owner, alias, st.routes[alias])
    {
      TerminateAllSpares(closing, order[..k], reactions, owner, alias, st.routes[alias]);
    }
  }

  lemma ShutIsTurns(st: State, order: seq<u64>, reactions: seq<seq<Quick>>)
    requires st.ready
    ensures Shutdown(st, order, reactions) == AfterTurns(st, order, reactions, |order|)
  {
    assert order[..|order|] == order;
  }

  lemma ReadyWithRequests(st: State, id: u64)
    requires Good(st) && id in st.requests
    ensures st.ready
  {
  }

  lemma StoreKept(st: State, r: State)
    requires Later(st, r, None)
    ensures |r.store| == |st.store|
  {
  }

  /** The request is still pending, or it is gone and its future has failed. */
  predicate PendingOrFailed(st: State, id: u64) {
    if id in st.requests then st.requests[id].phase.Pending? else id in st.settled && st.settled[id] == Failed
  }

  lemma ShutdownFails(st: State, order: seq<u64>, reactions: seq<seq<Quick>>, id: u64)
    requires Good(st) && st.ready && id in st.requests && st.requests[id].phase.Pending? && id in order
    ensures var r := Shutdown(st, order, reactions); id in r.settled && r.settled[id] == Failed
  {
    hide Core, Routes, TerminateAll;
    ReadyOnly(st, None);
    TerminateAllFails(st.(ready := false), order, reactions, id, None);
    TerminateAllSound(st.(ready := false), order, reactions, None);
  }

  lemma {:induction false} TerminateAllFails(st: State, order: seq<u64>, reactions: seq<seq<Quick>>, id: u64,
                                             installing: Option<u64>)
    requires Sound(st, installing) && PendingOrFailed(st, id)
    ensures PendingOrFailed(TerminateAll(st, order, reactions), id)
    decreases |order|
  {
    hide Core, Routes, Terminate, DoQuick, PendingOrFailed;
    if order != [] {
      var st1 := Terminate(st, order[0]);
      var st2 := if order[0] in st.requests && reactions != [] then DoQuick(st1, reactions[0]) else st1;
      var later := if reactions == [] then [] else reactions[1..];
      TerminateSound(st, order[0], installing);
      TerminateFails(st, order[0], id, installing);
      if reactions != [] {
        QuickSound(st1, reactions[0], installing);
        QuickFails(st1, reactions[0], id, installing);
      }
      TerminateAllFails(st2, order[1..], later, id, installing);
    }
  }

  /** Terminating any request leaves `id` pending, or failed. */
  lemma TerminateFails(st: State, other: u64, id: u64, installing: Option<u64>)
    requires Sound(st, installing) && PendingOrFailed(st, id)
    ensures PendingOrFailed(Terminate(st, other), id)
  {
    if other in st.requests {
      hide Terminate, Core, Routes;
      TerminateEffect(st, other);
      if id in st.requests {
        PendingFields(st, id);
      }
    }
  }

  lemma {:induction false} QuickFails(st: State, qs: seq<Quick>, id: u64, installing: Option<u64>)
    requires Sound(st, installing) && PendingOrFailed(st, id)
    ensures PendingOrFailed(DoQuick(st, qs), id)
    decreases |qs|
  {
    hide Core, Routes, Terminate, RequestUpdate, PendingOrFailed;
    if qs != [] {
      match qs[0] {
        case StopNow(other) =>
          TerminateSound(st, other, installing);
          TerminateFails(st, other, id, installing);
          QuickFails(Terminate(st, other), qs[1..], id, installing);
        case UpdateNow(other, ok) =>
          UpdateSound(st, other, ok, installing);
          UpdateFails(st, other, ok, id, installing);
          QuickFails(RequestUpdate(st, other, ok), qs[1..], id, installing);
      }
    }
  }

  lemma UpdateFails(st: State, other: u64, ok: bool, id: u64, installing: Option<u64>)
    requires Sound(st, installing) && PendingOrFailed(st, id)
    ensures PendingOrFailed(RequestUpdate(st, other, ok), id)
  {
    hide Core, Routes, RequestUpdate;
    UpdateSound(st, other, ok, installing);
  }

  /** Local Request IDs are even, and one that has been used is never used again. */
  lemma RequestIdsAreEvenAndFresh(events: seq<Event>)
    requires AllowedRun(INITIAL, events)
    ensures var st := Run(INITIAL, events);
            && st.nextId % 2 == 0 && (forall p :: p in st.roles ==> p % 2 == 0 && p < st.nextId)
            && (forall id :: id in st.requests ==> id in st.roles)
            && (forall id, k :: id in st.history && 0 <= k < |st.history[id].sent| ==>
                  st.history[id].sent[k] in st.roles && st.roles[st.history[id].sent[k]] == ForUpdate(id, k))
  {
    hide Run, Routes, Kept;
    Reachable(events);
    var st := Run(INITIAL, events);
    RequestsHaveRoles(st);
    assert forall id :: id in st.history ==> HistoryOkay(st, id);
  }
}

/**
 * What becomes of the futures and requests of a subscriber, said by the messages it receives: how the
 * future of a subscribe call is settled, which messages end a request, and what the calls of the
 * application come to.
 */
module SubscriberVerdicts {
  import opened Basics
  import opened Subscribing
  import opened SubscribingInvariants
  import opened SubscriberTheorems

  // ----- calls -----

  /** No call grants a pending request, and any that ends it fails its future. */
  lemma DoFails(st: State, c: Call, id: u64, installing: Option<u64>)
    requires Sound(st, installing) && Shut(st) && AllowedCall(st, c) && PendingOrFailed(st, id)
    ensures PendingOrFailed(Do(st, c), id)
  {
    hide Core, Routes, Later, Terminate, RequestUpdate, Subscribe, TerminateAll, PendingOrFailed;
    match c
    case Stop(other) => TerminateFails(st, other, id, installing);
    case Update(other, ok) => UpdateFails(st, other, ok, id, installing);
    case NewSubscription(ok) => SubscribeFails(st, ok, id, installing);
    case Close(order, reactions) =>
      if st.ready {
        ReadyOnly(st, installing);
        assert PendingOrFailed(st.(ready := false), id) by { NotReadyFails(st, id); }
        TerminateAllFails(st.(ready := false), order, reactions, id, installing);
      }
  }

  lemma NotReadyFails(st: State, id: u64)
    requires PendingOrFailed(st, id)
    ensures PendingOrFailed(st.(ready := false), id)
  {
  }

  lemma SubscribeFails(st: State, ok: bool, id: u64, installing: Option<u64>)
    requires Sound(st, installing) && PendingOrFailed(st, id)
    ensures PendingOrFailed(Subscribe(st, ok), id)
  {
    hide Core, Routes, Terminate;
    if st.ready && st.nextId <= MAX64 - 2 {
      UnusedId(st);
      SubscribeSound(st, ok, installing);
      InsertedSound(st, installing);
      TerminateEffect(Inserted(st), st.nextId);
    }
  }

  lemma {:induction false} DoAllFails(st: State, calls: seq<Call>, id: u64, installing: Option<u64>)
    requires Sound(st, installing) && Shut(st) && AllowedCalls(st, calls) && PendingOrFailed(st, id)
    ensures PendingOrFailed(DoAll(st, calls), id)
    decreases |calls|
  {
    hide Core, Routes, Later, Do, Shut, PendingOrFailed, AllowedCall;
    if calls != [] {
      DoSound(st, calls[0], installing);
      DoFails(st, calls[0], id, installing);
      DoAllFails(Do(st, calls[0]), calls[1..], id, installing);
    }
  }

  /** What a subscribe call comes to: a new pending request, or a future that has failed. */
  lemma SubscribeExact(st: State, sendOk: bool)
    requires Good(st)
    ensures var r, id := Subscribe(st, sendOk), st.nextId;
            if !st.ready || id + 2 > MAX64 then r == st
            else
              && r.nextId == id + 2 && id !in st.roles && id in r.roles && r.roles[id] == ForSubscribe
              && (if sendOk then r.requests == st.requests[id := Request(Pending, None, true, [])] && id !in r.settled
                  else r.requests == st.requests && id in r.settled && r.settled[id] == Failed)
              && (forall p :: p != id ==> (p in r.settled <==> p in st.settled))
  {
    hide Core, Routes, Terminate;
    if st.ready && st.nextId <= MAX64 - 2 {
      var st1 := Inserted(st);
      UnusedId(st);
      TerminateEffect(st1, st.nextId);
      assert st1.requests - {st.nextId} == st.requests;
    }
  }

  /** What an update call comes to: one more in the queue of an established request, or a future that has failed. */
  lemma UpdateExact(st: State, id: u64, sendOk: bool)
    requires Good(st)
    ensures var r, p := RequestUpdate(st, id, sendOk), st.nextId;
            if id !in st.requests || !st.requests[id].phase.Established? || p + 2 > MAX64 then r == st
            else
              && r.nextId == p + 2 && p !in st.roles && p in r.roles
              && r.requests.Keys == st.requests.Keys
              && (forall other :: other in st.requests && other != id ==> r.requests[other] == st.requests[other])
              && (if sendOk then
                    && r.settled == st.settled && r.roles[p].ForUpdate? && r.roles[p].request == id
                    && r.requests[id] == st.requests[id].(updates := st.requests[id].updates + [p])
                  else r.requests == st.requests && r.settled == st.settled[p := Failed])
  {
    hide HistoryOkay, Kept, Routes;
    if id in st.requests && st.nextId <= MAX64 - 2 {
      UnusedId(st);
      assert RequestOkay(st, id);
    }
  }

  // ----- messages -----

  /** The message ends its request: it makes no sense there, cannot be read, refuses it, or says that it is done. */
  predicate EndsRequest(r: Request, m: Message) {
    match m
    case SubscribeOk(_, _, _, _) => !r.phase.Pending?
    case RequestError(_, _) => r.phase.Pending? || |r.updates| == 0
    case RequestOk(_, properties, _) => r.phase.Pending? || |r.updates| == 0 || properties
    case PublishDone(_) => true
    case Undecodable(_) => true
    case GoAway(_) => r.phase.Pending?
    case Unknown(_) => r.phase.Pending?
  }

  /** What a message that does not end its request makes of it, if no handler interferes. */
  function Becomes(r: Request, m: Message): Request {
    match m
    case SubscribeOk(alias, _, _, _) => Request(Established, Some(alias), false, r.updates)
    case RequestError(_, _) => Request(UpdateFailed, r.alias, r.resultHeld, [])
    case RequestOk(_, _, _) => if r.updates == [] then r else Request(r.phase, r.alias, r.resultHeld, r.updates[1..])
    case _ => r
  }

  lemma AbortEnds(st: State, id: u64, reaction: seq<Call>)
    requires Good(st) && id in st.requests && AllowedCalls(Terminate(st, id), reaction)
    ensures id !in Abort(st, id, reaction).requests
  {
    hide Core, Routes, Terminate, DoAll, AllowedCalls;
    TerminateSound(st, id, None);
    RequestsHaveRoles(st);
    DoAllSound(Terminate(st, id), reaction, None);
  }

  /**
   * Every message ends its request exactly if it should, and otherwise moves it on as it should, unless a
   * handler stops it meanwhile; a SUBSCRIBE_OK may also close the session by reusing an alias.
   */
  lemma MessageExact(st: State, id: u64, m: Message)
    requires Good(st) && Allowed(st, Received(id, m)) && id in st.requests
    ensures var r := Handle(st, id, m); var q := st.requests[id];
            && (EndsRequest(q, m) ==> id !in r.requests)
            && (!EndsRequest(q, m) && CallsOf(m) == [] && !(m.SubscribeOk? && m.alias in st.routes) ==>
                  id in r.requests && r.requests[id] == Becomes(q, m))
  {
    hide Core, Routes, Terminate, DoAll, AllowedCalls, Abort, Shutdown, InstallRoute, FailAll;
    var q := st.requests[id];
    assert id in st.history by { HasHistory(st, id); }
    match m
    case SubscribeOk(alias, replay, order, reactions) =>
      if !q.phase.Pending? {
        AbortEnds(st, id, replay);
      } else if alias !in st.routes && replay == [] {
        BoundAtOnce(st, id, alias);
      }
    case RequestError(tag, reaction) =>
      if q.phase.Pending? {
        RejectedEnds(st, id, tag);
      } else if q.updates == [] {
        AbortEnds(st, id, reaction);
      }
    case RequestOk(tag, properties, reaction) =>
      if EndsRequest(q, m) {
        AbortEnds(st, id, reaction);
      }
    case PublishDone(reaction) =>
      if q.phase.Pending? {
        AbortEnds(st, id, reaction);
      } else {
        DoneEnds(st, id, reaction);
      }
    case GoAway(reaction) =>
      if q.phase.Pending? {
        AbortEnds(st, id, reaction);
      }
    case Undecodable(reaction) => AbortEnds(st, id, reaction);
    case Unknown(reaction) =>
      if q.phase.Pending? {
        AbortEnds(st, id, reaction);
      } else if reaction == [] {
        NothingDone(st);
      }
  }

  lemma HasHistory(st: State, id: u64)
    requires Core(st) && id in st.requests
    ensures id in st.history
  {
    assert RequestOkay(st, id);
  }

  lemma NothingDone(st: State)
    ensures DoAll(st, []) == st
  {
  }

  lemma BoundAtOnce(st: State, id: u64, alias: u64)
    requires id in st.requests
    ensures var r := Bind(st, id, alias, []);
            id in r.requests && r.requests[id] == Request(Established, Some(alias), false, st.requests[id].updates)
  {
    NothingDone(InstallRoute(st, id, alias));
  }

  lemma RejectedEnds(st: State, id: u64, tag: nat)
    requires id in st.requests
    ensures var st1 := Fail(st, id, Rejected(tag)).(requests :=
                st.requests[id := st.requests[id].(resultHeld := false)]);
            id !in Terminate(st1, id).requests
  {
    hide Terminate;
    TerminateEffect(Fail(st, id, Rejected(tag)).(requests :=
        st.requests[id := st.requests[id].(resultHeld := false)]), id);
  }

  lemma DoneEnds(st: State, id: u64, reaction: seq<Call>)
    requires Good(st) && AllowedCalls(st, reaction)
    ensures id !in Terminate(DoAll(st, reaction), id).requests
  {
    hide Core, Routes, Terminate, DoAll, AllowedCalls;
    DoAllSound(st, reaction, None);
    TerminateSound(DoAll(st, reaction), id, None);
  }

  // ----- one step and a pending request -----

  lemma AbortFails(st: State, other: u64, reaction: seq<Call>, id: u64)
    requires Good(st) && AllowedCalls(Terminate(st, other), reaction) && PendingOrFailed(st, id)
    ensures PendingOrFailed(Abort(st, other, reaction), id)
  {
    hide Core, Routes, Terminate, DoAll, AllowedCalls, PendingOrFailed;
    TerminateSound(st, other, None);
    TerminateFails(st, other, id, None);
    DoAllFails(Terminate(st, other), reaction, id, None);
  }

  lemma DoneFails(st: State, other: u64, reaction: seq<Call>, id: u64)
    requires Good(st) && AllowedCalls(st, reaction) && PendingOrFailed(st, id)
    ensures PendingOrFailed(DoAll(st, reaction), id) && PendingOrFailed(Terminate(DoAll(st, reaction), other), id)
  {
    hide Core, Routes, Terminate, DoAll, AllowedCalls, PendingOrFailed;
    DoAllSound(st, reaction, None);
    DoAllFails(st, reaction, id, None);
    TerminateFails(DoAll(st, reaction), other, id, None);
  }

  lemma CloseFails(st: State, order: seq<u64>, reactions: seq<seq<Quick>>, id: u64)
    requires Good(st) && PendingOrFailed(st, id)
    ensures PendingOrFailed(Shutdown(st, order, reactions), id)
  {
    hide Core, Routes, TerminateAll, PendingOrFailed;
    if st.ready {
      ReadyOnly(st, None);
      assert PendingOrFailed(st.(ready := false), id) by { NotReadyFails(st, id); }
      TerminateAllFails(st.(ready := false), order, reactions, id, None);
    }
  }

  /** The replay of another request's objects. */
  lemma BindFails(st: State, other: u64, alias: u64, replay: seq<Call>, id: u64)
    requires Good(st) && Awaits(st, other) && alias !in st.routes && other != id
    requires AllowedCalls(InstallRoute(st, other, alias), replay) && PendingOrFailed(st, id)
    ensures PendingOrFailed(Bind(st, other, alias, replay), id)
  {
    hide Core, Routes, DoAll, AllowedCalls, Later;
    InstallSound(st, other, alias);
    DoAllFails(InstallRoute(st, other, alias), replay, id, Some(alias));
  }

  /** A pending request of the session. */
  predicate Awaits(st: State, id: u64) {
    id in st.requests && st.requests[id].phase.Pending?
  }

  /** The promise of a pending or failed request is none of another request's updates. */
  predicate Foreign(st: State, other: u64, id: u64) {
    other in st.requests && other != id ==> id !in st.requests[other].updates
  }

  lemma SubscribesAreForeign(st: State, other: u64, id: u64)
    requires Core(st) && (id in st.roles ==> st.roles[id] == ForSubscribe)
    ensures Foreign(st, other, id)
  {
    hide HistoryOkay, Kept;
    if other in st.requests && id in st.requests[other].updates {
      OwnUpdates(st, other, id);
    }
  }

  lemma RejectFails(st: State, other: u64, tag: nat, id: u64)
    requires Core(st) && other in st.requests && other != id && PendingOrFailed(st, id) && Foreign(st, other, id)
    ensures var st1 := Fail(st, other, Rejected(tag)).(requests :=
                st.requests[other := st.requests[other].(resultHeld := false)]);
            PendingOrFailed(Terminate(st1, other), id)
  {
    hide Terminate, Core;
    var st1 := Fail(st, other, Rejected(tag)).(requests :=
        st.requests[other := st.requests[other].(resultHeld := false)]);
    TerminateEffect(st1, other);
  }

  lemma AnswerFails(st: State, other: u64, m: Message, id: u64)
    requires Core(st) && other in st.requests && other != id && PendingOrFailed(st, id) && Foreign(st, other, id)
    requires !st.requests[other].phase.Pending? && st.requests[other].updates != [] && other in st.history
    requires m.RequestError? || (m.RequestOk? && !m.properties)
    ensures PendingOrFailed(Handle(st, other, m), id)
  {
    hide Core, FailAll, DoAll;
    var r := st.requests[other];
    if m.RequestError? {
      FailAllEffect(st, r.updates, Rejected(m.tag));
    } else {
      assert r.updates[0] in r.updates;
    }
  }

  /** A message for another request. */
  lemma OtherFails(st: State, other: u64, m: Message, id: u64)
    requires Good(st) && Allowed(st, Received(other, m)) && other != id && PendingOrFailed(st, id)
    requires id in st.roles ==> st.roles[id] == ForSubscribe
    ensures PendingOrFailed(Handle(st, other, m), id)
  {
    hide Core, Routes, Terminate, DoAll, AllowedCalls, Abort, Shutdown, InstallRoute, FailAll, Bind, PendingOrFailed;
    if other in st.requests && other in st.history {
      var q := st.requests[other];
      SubscribesAreForeign(st, other, id);
      if q.phase.Pending? && !m.SubscribeOk? && !m.RequestError? {
        AbortFails(st, other, CallsOf(m), id);
      } else {
        match m
        case SubscribeOk(alias, replay, order, reactions) =>
          if !q.phase.Pending? {
            AbortFails(st, other, replay, id);
          } else if alias in st.routes {
            CloseFails(st, order, reactions, id);
          } else {
            BindFails(st, other, alias, replay, id);
          }
        case RequestError(tag, reaction) =>
          if q.phase.Pending? {
            RejectFails(st, other, tag, id);
          } else if q.updates == [] {
            AbortFails(st, other, reaction, id);
          } else {
            AnswerFails(st, other, m, id);
          }
        case RequestOk(tag, properties, reaction) =>
          if q.updates == [] || properties {
            AbortFails(st, other, reaction, id);
          } else {
            AnswerFails(st, other, m, id);
          }
        case PublishDone(reaction) => DoneFails(st, other, reaction, id);
        case GoAway(_) =>
        case Undecodable(reaction) => AbortFails(st, other, reaction, id);
        case Unknown(reaction) => DoneFails(st, other, reaction, id);
      }
    }
  }

  /** The event is a message for this request that answers its SUBSCRIBE. */
  predicate Answers(e: Event, id: u64) {
    e.Received? && e.id == id && (e.message.SubscribeOk? || e.message.RequestError?)
  }

  /** No other event grants or rejects a pending request. */
  lemma StepFails(st: State, e: Event, id: u64)
    requires Good(st) && Allowed(st, e) && !Answers(e, id) && PendingOrFailed(st, id)
    requires id in st.roles ==> st.roles[id] == ForSubscribe
    ensures PendingOrFailed(Step(st, e), id)
  {
    hide Core, Routes, Terminate, DoAll, AllowedCalls, Abort, Handle;
    match e
    case Calls(calls) => DoneFails(st, 0, calls, id);
    case StreamEnded(other, reaction) =>
      if other in st.requests {
        AbortFails(st, other, reaction, id);
      }
    case Received(other, m) =>
      if other != id {
        OtherFails(st, other, m, id);
      } else if id in st.requests && id in st.history {
        OwnFails(st, id, m);
      } else {
        assert Handle(st, id, m) == st by { NotHandled(st, id, m); }
      }
  }

  lemma NotHandled(st: State, id: u64, m: Message)
    requires !(id in st.requests && id in st.history)
    ensures Handle(st, id, m) == st
  {
  }

  lemma OwnFails(st: State, id: u64, m: Message)
    requires Good(st) && Allowed(st, Received(id, m)) && Awaits(st, id) && id in st.history
    requires !m.SubscribeOk? && !m.RequestError?
    ensures PendingOrFailed(Handle(st, id, m), id)
  {
    hide Core, Routes, Terminate, DoAll, AllowedCalls, Abort, Shutdown, InstallRoute, FailAll, Bind;
    AbortFails(st, id, CallsOf(m), id);
  }

  // ----- the verdict -----

  /** What an event makes of the future of a pending request, if it settles it. */
  function Judged(st: State, e: Event, id: u64): Option<Verdict> {
    if Answers(e, id) && e.message.RequestError? then Some(Rejected(e.message.tag))
    else if id !in Step(st, e).requests then Some(Failed)
    else if Answers(e, id) then Some(Granted(e.message.alias))
    else None
  }

  function VerdictOf(st: State, id: u64): Option<Verdict> {
    if id in st.settled then Some(st.settled[id]) else None
  }

  lemma StepJudged(st: State, e: Event, id: u64)
    requires Good(st) && Allowed(st, e) && Awaits(st, id)
    ensures VerdictOf(Step(st, e), id) == Judged(st, e, id)
    ensures Judged(st, e, id).None? ==> Awaits(Step(st, e), id)
  {
    hide Good, Allowed, Step;
    var r := Step(st, e);
    StepGood(st, e);
    assert id in st.roles && st.roles[id] == ForSubscribe by { PendingRole(st, id); }
    if !Answers(e, id) {
      StepFails(st, e, id);
      if id in r.requests {
        assert id !in r.settled by { PendingIsOpen(r, id); }
      }
    } else if e.message.RequestError? {
      RejectedVerdict(st, e, id);
    } else {
      OkVerdict(st, e, id);
      if id in r.requests {
        GrantedVerdict(r, id);
      }
    }
  }

  lemma PendingRole(st: State, id: u64)
    requires Good(st) && id in st.requests
    ensures id in st.roles && st.roles[id] == ForSubscribe && id in st.history
  {
    assert RequestOkay(st, id);
  }

  lemma PendingIsOpen(st: State, id: u64)
    requires Good(st) && Awaits(st, id)
    ensures id !in st.settled
  {
    assert RequestOkay(st, id);
  }

  lemma GrantedVerdict(st: State, id: u64)
    requires Good(st) && id in st.requests && !st.requests[id].phase.Pending?
    ensures id in st.settled && st.requests[id].alias.Some? && st.settled[id] == Granted(st.requests[id].alias.value)
  {
    assert RequestOkay(st, id);
  }

  lemma RejectedVerdict(st: State, e: Event, id: u64)
    requires Good(st) && Awaits(st, id) && Answers(e, id) && e.message.RequestError?
    ensures VerdictOf(Step(st, e), id) == Some(Rejected(e.message.tag))
  {
    hide Core, Routes, Terminate, DoAll, FailAll, Abort;
    PendingRole(st, id);
    PendingFields(st, id);
    var st1 := Fail(st, id, Rejected(e.message.tag)).(requests :=
        st.requests[id := st.requests[id].(resultHeld := false)]);
    TerminateEffect(st1, id);
  }

  lemma OkVerdict(st: State, e: Event, id: u64)
    requires Good(st) && Allowed(st, e) && Awaits(st, id) && Answers(e, id) && e.message.SubscribeOk?
    ensures var r := Step(st, e);
            if id in r.requests then r.requests[id].phase.Established? && r.requests[id].alias == Some(e.message.alias)
            else id in r.settled && r.settled[id] == Failed
  {
    hide Core, Routes, DoAll, AllowedCalls, Shutdown, Later, Abort;
    PendingRole(st, id);
    var m := e.message;
    if m.alias in st.routes {
      ReadyWithRequests(st, id);
      ShutdownFails(st, m.order, m.reactions, id);
      ShutdownSound(st, m.order, m.reactions, None);
    } else {
      InstallSound(st, id, m.alias);
      DoAllFails(InstallRoute(st, id, m.alias), m.replay, id, Some(m.alias));
    }
  }

  // ----- requests that an event begins -----

  /** A request that is new here is pending, or has failed. */
  predicate NewOnes(st: State, r: State) {
    forall id :: id in r.roles && id !in st.roles && r.roles[id] == ForSubscribe ==> PendingOrFailed(r, id)
  }

  /** No request is new here. */
  predicate NoNewOnes(st: State, r: State) {
    forall id :: id in r.roles && r.roles[id] == ForSubscribe ==> id in st.roles && st.roles[id] == ForSubscribe
  }

  lemma {:induction false} QuickNone(st: State, qs: seq<Quick>)
    ensures NoNewOnes(st, DoQuick(st, qs))
    decreases |qs|
  {
    hide Terminate, RequestUpdate;
    if qs != [] {
      match qs[0] {
        case StopNow(id) =>
          TerminateRoles(st, id);
          QuickNone(Terminate(st, id), qs[1..]);
        case UpdateNow(id, ok) =>
          UpdateRoles(st, id, ok);
          QuickNone(RequestUpdate(st, id, ok), qs[1..]);
      }
    }
  }

  lemma TerminateRoles(st: State, id: u64)
    ensures Terminate(st, id).roles == st.roles
  {
    if id in st.requests {
      hide Terminate;
      TerminateEffect(st, id);
    }
  }

  lemma UpdateRoles(st: State, id: u64, ok: bool)
    ensures NoNewOnes(st, RequestUpdate(st, id, ok))
  {
  }

  lemma {:induction false} TerminateAllNone(st: State, order: seq<u64>, reactions: seq<seq<Quick>>)
    ensures NoNewOnes(st, TerminateAll(st, order, reactions))
    decreases |order|
  {
    hide Terminate, DoQuick;
    if order != [] {
      var st1 := Terminate(st, order[0]);
      var st2 := if order[0] in st.requests && reactions != [] then DoQuick(st1, reactions[0]) else st1;
      TerminateRoles(st, order[0]);
      if reactions != [] {
        QuickNone(st1, reactions[0]);
      }
      TerminateAllNone(st2, order[1..], if reactions == [] then [] else reactions[1..]);
    }
  }

  lemma DoNew(st: State, c: Call)
    requires Core(st)
    ensures NewOnes(st, Do(st, c))
  {
    hide Core, Terminate, RequestUpdate, Subscribe, TerminateAll;
    match c
    case Stop(id) => TerminateRoles(st, id);
    case Update(id, ok) => UpdateRoles(st, id, ok);
    case NewSubscription(ok) => SubscribeNew(st, ok);
    case Close(order, reactions) =>
      if st.ready {
        TerminateAllNone(st.(ready := false), order, reactions);
      }
  }

  lemma SubscribeNew(st: State, ok: bool)
    requires Core(st)
    ensures NewOnes(st, Subscribe(st, ok))
  {
    hide Core, Terminate;
    if st.ready && st.nextId <= MAX64 - 2 {
      UnusedId(st);
      TerminateEffect(Inserted(st), st.nextId);
    }
  }

  lemma {:induction false} DoAllNew(st: State, calls: seq<Call>, installing: Option<u64>)
    requires Sound(st, installing) && Shut(st) && AllowedCalls(st, calls)
    ensures NewOnes(st, DoAll(st, calls))
    decreases |calls|
  {
    hide Core, Routes, Later, Do, Shut, PendingOrFailed, AllowedCall;
    if calls != [] {
      var st1 := Do(st, calls[0]);
      DoSound(st, calls[0], installing);
      DoNew(st, calls[0]);
      DoAllNew(st1, calls[1..], installing);
      DoAllSound(st1, calls[1..], installing);
      forall id | id in DoAll(st, calls).roles && id !in st.roles && DoAll(st, calls).roles[id] == ForSubscribe
        ensures PendingOrFailed(DoAll(st, calls), id)
      {
        if id in st1.roles {
          assert st1.roles[id] == ForSubscribe by { RolesStay(st1, DoAll(st1, calls[1..]), id, installing); }
          DoAllFails(st1, calls[1..], id, installing);
        }
      }
    }
  }

  lemma RolesStay(st: State, r: State, id: u64, installing: Option<u64>)
    requires Later(st, r, installing) && id in st.roles
    ensures id in r.roles && r.roles[id] == st.roles[id]
  {
  }

  lemma AbortNew(st: State, other: u64, reaction: seq<Call>)
    requires Good(st) && AllowedCalls(Terminate(st, other), reaction)
    ensures NewOnes(st, Abort(st, other, reaction))
  {
    hide Core, Routes, Terminate, DoAll, AllowedCalls, PendingOrFailed;
    TerminateSound(st, other, None);
    TerminateRoles(st, other);
    DoAllNew(Terminate(st, other), reaction, None);
  }

  lemma DoneNew(st: State, other: u64, reaction: seq<Call>)
    requires Good(st) && AllowedCalls(st, reaction)
    ensures NewOnes(st, DoAll(st, reaction)) && NewOnes(st, Terminate(DoAll(st, reaction), other))
  {
    hide Core, Routes, Terminate, DoAll, AllowedCalls, PendingOrFailed;
    var st1 := DoAll(st, reaction);
    DoAllSound(st, reaction, None);
    DoAllNew(st, reaction, None);
    TerminateRoles(st1, other);
    forall id | id in st1.roles && id !in st.roles && st1.roles[id] == ForSubscribe
      ensures PendingOrFailed(Terminate(st1, other), id)
    {
      TerminateFails(st1, other, id, None);
    }
  }

  lemma BindNew(st: State, other: u64, alias: u64, replay: seq<Call>)
    requires Good(st) && Awaits(st, other) && alias !in st.routes && other in st.roles
    requires AllowedCalls(InstallRoute(st, other, alias), replay)
    ensures NewOnes(st, Bind(st, other, alias, replay))
  {
    hide Core, Routes, DoAll, AllowedCalls, Later;
    InstallSound(st, other, alias);
    DoAllNew(InstallRoute(st, other, alias), replay, Some(alias));
  }

  lemma StepNew(st: State, e: Event)
    requires Good(st) && Allowed(st, e)
    ensures NewOnes(st, Step(st, e))
  {
    hide Core, Routes, Terminate, DoAll, AllowedCalls, Abort, Shutdown, InstallRoute, FailAll, Bind, PendingOrFailed;
    match e
    case Calls(calls) => DoneNew(st, 0, calls);
    case StreamEnded(other, reaction) =>
      if other in st.requests {
        AbortNew(st, other, reaction);
      }
    case Received(other, m) =>
      if other in st.requests && other in st.history {
        MessageNew(st, other, m);
      }
  }

  lemma MessageNew(st: State, other: u64, m: Message)
    requires Good(st) && Allowed(st, Received(other, m)) && other in st.requests && other in st.history
    ensures NewOnes(st, Handle(st, other, m))
  {
    hide Core, Routes, Terminate, DoAll, AllowedCalls, Abort, Shutdown, InstallRoute, FailAll, Bind, PendingOrFailed;
    var q := st.requests[other];
    PendingRole(st, other);
    if q.phase.Pending? && !m.SubscribeOk? && !m.RequestError? {
      AbortNew(st, other, CallsOf(m));
    } else {
      match m
      case SubscribeOk(alias, replay, order, reactions) =>
        if !q.phase.Pending? {
          AbortNew(st, other, replay);
        } else if alias in st.routes {
          CloseNone(st, order, reactions);
        } else {
          BindNew(st, other, alias, replay);
        }
      case RequestError(tag, reaction) =>
        if q.phase.Pending? {
          TerminateRoles(Fail(st, other, Rejected(tag)).(requests := st.requests[other := q.(resultHeld := false)]),
                         other);
        } else if q.updates == [] {
          AbortNew(st, other, reaction);
        } else {
          FailAllEffect(st, q.updates, Rejected(tag));
        }
      case RequestOk(tag, properties, reaction) =>
        if q.updates == [] || properties {
          AbortNew(st, other, reaction);
        }
      case PublishDone(reaction) => DoneNew(st, other, reaction);
      case GoAway(_) =>
      case Undecodable(reaction) => AbortNew(st, other, reaction);
      case Unknown(reaction) => DoneNew(st, other, reaction);
    }
  }

  lemma CloseNone(st: State, order: seq<u64>, reactions: seq<seq<Quick>>)
    ensures NoNewOnes(st, Shutdown(st, order, reactions))
  {
    hide TerminateAll;
    if st.ready {
      TerminateAllNone(st.(ready := false), order, reactions);
    }
  }

  // ----- whole runs -----

  /**
   * The verdict on a subscribe call, by the events of the run: its request is rejected by the first
   * REQUEST_ERROR it gets while it is pending, granted by the first SUBSCRIBE_OK it survives, and
   * failed if it goes away in any other way.
   */
  function Decided(st: State, events: seq<Event>, id: u64): Option<Verdict>
    decreases |events|
  {
    if events == [] then None else
    var e, r := events[0], Step(st, events[0]);
    if Awaits(st, id) then
      var v := Judged(st, e, id);
      if v.Some? then v else Decided(r, events[1..], id)
    else if id !in st.roles && id in r.roles && id !in r.requests then Some(Failed)
    else Decided(r, events[1..], id)
  }

  lemma {:induction false} RunDecided(st: State, events: seq<Event>, id: u64)
    requires Good(st) && AllowedRun(st, events) && (Awaits(st, id) || id !in st.roles)
    ensures var r := Run(st, events);
            id in r.roles && r.roles[id] == ForSubscribe ==> VerdictOf(r, id) == Decided(st, events, id)
    decreases |events|
  {
    hide Good, Allowed, Step, Judged, NewOnes;
    if events == [] {
      if Awaits(st, id) {
        PendingIsOpen(st, id);
      }
    } else {
      var e, r, rest := events[0], Step(st, events[0]), events[1..];
      StepGood(st, e);
      RunMonotone(r, rest);
      if Awaits(st, id) {
        StepJudged(st, e, id);
        if Judged(st, e, id).None? {
          RunDecided(r, rest, id);
        }
      } else if id !in r.roles {
        RunDecided(r, rest, id);
      } else if r.roles[id] == ForSubscribe {
        assert PendingOrFailed(r, id) by { StepNew(st, e); NewOne(st, r, id); }
        if id in r.requests {
          RunDecided(r, rest, id);
        }
      }
    }
  }

  lemma NewOne(st: State, r: State, id: u64)
    requires NewOnes(st, r) && id in r.roles && id !in st.roles && r.roles[id] == ForSubscribe
    ensures PendingOrFailed(r, id)
  {
  }

  /** In every run the future of a subscribe call is settled as the messages decide, or open as long as none does. */
  lemma VerdictsByMessages(events: seq<Event>, id: u64)
    requires AllowedRun(INITIAL, events)
    requires id in Run(INITIAL, events).roles && Run(INITIAL, events).roles[id] == ForSubscribe
    ensures VerdictOf(Run(INITIAL, events), id) == Decided(INITIAL, events, id)
  {
    hide Good, Run, AllowedRun;
    Reachable([]);
    assert Run(INITIAL, []) == INITIAL && AllowedRun(INITIAL, []) by { NothingYet(); }
    RunDecided(INITIAL, events, id);
  }

  lemma NothingYet()
    ensures Run(INITIAL, []) == INITIAL && AllowedRun(INITIAL, [])
  {
  }
}

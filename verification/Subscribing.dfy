/**
 * The subscriber session: its requests, the promises it has handed out and the routes of the data
 * plane. One event is one message on a request stream, one call of the application or one piece of
 * data; the calls that handlers make from inside their callbacks are listed with the event.
 */
module Subscribing {
  import opened Basics

  datatype Phase = Pending | Established | UpdateFailed

  /** A live request. `resultHeld` is that the source's result_ is set; `updates` the queue of promises. */
  datatype Request = Request(phase: Phase, alias: Option<u64>, resultHeld: bool, updates: seq<u64>)

  /** A route object: it outlives its entry in the table, but not its activity. */
  datatype Route = Route(request: u64, alias: u64, active: bool)

  /** How a promise was settled; tags tell the peer's messages apart. */
  datatype Verdict = Granted(alias: u64) | Answered(tag: nat) | Rejected(tag: nat) | Failed

  /** What a promise is for; its Request ID names it. */
  datatype Role = ForSubscribe | ForUpdate(request: u64, index: nat) | Unsent

  /** What has passed on a request stream: the updates sent and the answers received. */
  datatype History = History(sent: seq<u64>, oks: seq<nat>, error: Option<nat>)

  /** `broken` is set if a settled promise is given a value, which throws in the source. */
  datatype State = State(ready: bool, nextId: nat, requests: map<u64, Request>, routes: map<u64, nat>,
                         store: seq<Route>, settled: map<u64, Verdict>, roles: map<u64, Role>,
                         history: map<u64, History>, broken: bool)

  const INITIAL := State(true, 0, map[], map[], [], map[], map[], map[], false)

  /** fail: settles a promise unless it is settled already. */
  function Fail(st: State, p: u64, v: Verdict): State {
    if p in st.settled then st else st.(settled := st.settled[p := v])
  }

  /** set_value: an error if the promise is settled already. */
  function SetValue(st: State, p: u64, v: Verdict): State {
    if p in st.settled then st.(broken := true) else st.(settled := st.settled[p := v])
  }

  /** fail_updates: the queue is emptied from the front. */
  function FailAll(st: State, ps: seq<u64>, v: Verdict): State
    decreases |ps|
  {
    if ps == [] then st else FailAll(Fail(st, ps[0], v), ps[1..], v)
  }

  /** retire_route: the route leaves the table and never delivers again. */
  function Retire(st: State, alias: u64): State {
    if alias !in st.routes then st else
    var route := st.routes[alias];
    st.(routes := st.routes - {alias},
        store := if route < |st.store| then st.store[route := st.store[route].(active := false)] else st.store)
  }

  /** terminate: fails what is still promised, retires the route and forgets the request. */
  function Terminate(st: State, id: u64): State {
    if id !in st.requests then st else
    var r := st.requests[id];
    var st1 := FailDue(st, id, r);
    (if r.alias.Some? then Retire(st1, r.alias.value) else st1).(requests := st.requests - {id})
  }

  /** The promises a request still owes fail: its result if it is held, then its updates in order. */
  function FailDue(st: State, id: u64, r: Request): State {
    FailAll(if r.resultHeld then Fail(st, id, Failed) else st, r.updates, Failed)
  }

  /** subscribe: a new request, or a future that fails at once. */
  function Subscribe(st: State, sendOk: bool): State {
    if !st.ready || st.nextId > MAX64 - 2 then st else
    var id := st.nextId;
    var st1 := st.(nextId := id + 2, requests := st.requests[id := Request(Pending, None, true, [])],
                   roles := st.roles[id := ForSubscribe], history := st.history[id := History([], [], None)]);
    if sendOk then st1 else Fail(Terminate(st1, id), id, Failed)
  }

  /** request_update: allowed on an established subscription only. */
  function RequestUpdate(st: State, id: u64, sendOk: bool): State {
    if id !in st.requests || !st.requests[id].phase.Established? || st.nextId > MAX64 - 2
        || id !in st.history then st else
    var p := st.nextId;
    var st1 := st.(nextId := p + 2);
    if !sendOk then Fail(st1.(roles := st1.roles[p := Unsent]), p, Failed) else
    var r, h := st.requests[id], st.history[id];
    st1.(requests := st.requests[id := r.(updates := r.updates + [p])],
         roles := st.roles[p := ForUpdate(id, |h.sent|)],
         history := st.history[id := h.(sent := h.sent + [p])])
  }

  /** What a handler may do from inside a callback while the session is closing. */
  datatype Quick = StopNow(id: u64) | UpdateNow(id: u64, sendOk: bool)

  /** A call of the application, from outside or from inside a callback. */
  datatype Call =
    | Stop(id: u64)
    | Update(id: u64, sendOk: bool)
    | NewSubscription(sendOk: bool)
    | Close(order: seq<u64>, reactions: seq<seq<Quick>>)

  function DoQuick(st: State, qs: seq<Quick>): State
    decreases |qs|
  {
    if qs == [] then st else
    DoQuick(match qs[0] case StopNow(id) => Terminate(st, id) case UpdateNow(id, ok) => RequestUpdate(st, id, ok),
        qs[1..])
  }

  /** terminate_subscriptions: over a copy of the table, each termination followed by its handler's reaction. */
  function TerminateAll(st: State, order: seq<u64>, reactions: seq<seq<Quick>>): State
    decreases |order|
  {
    if order == [] then st else
    var st1 := Terminate(st, order[0]);
    var st2 := if order[0] in st.requests && reactions != [] then DoQuick(st1, reactions[0]) else st1;
    TerminateAll(st2, order[1..], if reactions == [] then [] else reactions[1..])
  }

  /** begin_close. */
  function Shutdown(st: State, order: seq<u64>, reactions: seq<seq<Quick>>): State {
    if !st.ready then st else TerminateAll(st.(ready := false), order, reactions)
  }

  function Do(st: State, c: Call): State {
    match c
    case Stop(id) => Terminate(st, id)
    case Update(id, ok) => RequestUpdate(st, id, ok)
    case NewSubscription(ok) => Subscribe(st, ok)
    case Close(order, reactions) => Shutdown(st, order, reactions)
  }

  function DoAll(st: State, calls: seq<Call>): State
    decreases |calls|
  {
    if calls == [] then st else DoAll(Do(st, calls[0]), calls[1..])
  }

  /** The copy that closing walks over holds every request. */
  predicate AllowedCall(st: State, c: Call) {
    c.Close? && st.ready ==> forall id :: id in st.requests ==> id in c.order
  }

  predicate AllowedCalls(st: State, calls: seq<Call>)
    decreases |calls|
  {
    calls == [] || (AllowedCall(st, calls[0]) && AllowedCalls(Do(st, calls[0]), calls[1..]))
  }

  /** A message on a request stream, with what the handler does if it is called back. */
  datatype Message =
    | SubscribeOk(alias: u64, replay: seq<Call>, order: seq<u64>, reactions: seq<seq<Quick>>)
    | RequestError(tag: nat, reaction: seq<Call>)
    | RequestOk(tag: nat, properties: bool, reaction: seq<Call>)
    | PublishDone(reaction: seq<Call>)
    | GoAway(reaction: seq<Call>)
    | Undecodable(reaction: seq<Call>)
    | Unknown(reaction: seq<Call>)

  /** terminate with a reason: the handler learns of it. */
  function Abort(st: State, id: u64, reaction: seq<Call>): State {
    DoAll(Terminate(st, id), reaction)
  }

  /** install_route binds the alias and replays what was held for it; handlers run meanwhile. */
  function InstallRoute(st: State, id: u64, alias: u64): State {
    st.(routes := st.routes[alias := |st.store|], store := st.store + [Route(id, alias, true)])
  }

  /** SUBSCRIBE_OK that binds a free alias: the request may be stopped by its own replayed objects. */
  function Bind(st: State, id: u64, alias: u64, replay: seq<Call>): State {
    var st1 := DoAll(InstallRoute(st, id, alias), replay);
    if id !in st1.requests then Retire(st1, alias) else Establish(st1, id, alias)
  }

  function Establish(st: State, id: u64, alias: u64): State
    requires id in st.requests
  {
    SetValue(st, id, Granted(alias)).(
      requests := st.requests[id := st.requests[id].(phase := Established, alias := Some(alias), resultHeld := false)])
  }

  /** handle_control_message. */
  function Handle(st: State, id: u64, m: Message): State {
    if id !in st.requests || id !in st.history then st else
    var r, h := st.requests[id], st.history[id];
    match m
    case SubscribeOk(alias, replay, order, reactions) =>
      if !r.phase.Pending? then Abort(st, id, replay)
      else if alias in st.routes then Shutdown(st, order, reactions)
      else Bind(st, id, alias, replay)
    case RequestError(tag, reaction) =>
      if r.phase.Pending? then
        Terminate(Fail(st, id, Rejected(tag)).(requests := st.requests[id := r.(resultHeld := false)]), id)
      else if r.updates == [] then Abort(st, id, reaction)
      else FailAll(st, r.updates, Rejected(tag)).(
             requests := st.requests[id := r.(phase := UpdateFailed, updates := [])],
             history := st.history[id := h.(error := Some(tag))])
    case RequestOk(tag, properties, reaction) =>
      if r.phase.Pending? || r.updates == [] || properties then Abort(st, id, reaction)
      else SetValue(st, r.updates[0], Answered(tag)).(requests := st.requests[id := r.(updates := r.updates[1..])],
                                                      history := st.history[id := h.(oks := h.oks + [tag])])
    case PublishDone(reaction) =>
      if r.phase.Pending? then Abort(st, id, reaction) else Terminate(DoAll(st, reaction), id)
    case GoAway(reaction) => if r.phase.Pending? then Abort(st, id, reaction) else st
    case Undecodable(reaction) => Abort(st, id, reaction)
    case Unknown(reaction) => if r.phase.Pending? then Abort(st, id, reaction) else DoAll(st, reaction)
  }

  /** One step of the session. Data events only matter here for what handlers do about them. */
  datatype Event =
    | Received(id: u64, message: Message)
    | StreamEnded(id: u64, reaction: seq<Call>)
    | Calls(calls: seq<Call>)

  function Step(st: State, e: Event): State {
    match e
    case Received(id, m) => Handle(st, id, m)
    case StreamEnded(id, reaction) => if id in st.requests then Abort(st, id, reaction) else st
    case Calls(calls) => DoAll(st, calls)
  }

  /** The state in which the calls listed with a message are made. */
  function CallsAt(st: State, id: u64, m: Message): State {
    if id !in st.requests then st
    else if m.SubscribeOk? && st.requests[id].phase.Pending? then InstallRoute(st, id, m.alias)
    else if (m.PublishDone? || m.Unknown?) && !st.requests[id].phase.Pending? then st
    else Terminate(st, id)
  }

  function CallsOf(m: Message): seq<Call> {
    if m.SubscribeOk? then m.replay else m.reaction
  }

  predicate Allowed(st: State, e: Event) {
    match e
    case Received(id, m) =>
      && AllowedCalls(CallsAt(st, id, m), CallsOf(m))
      && (m.SubscribeOk? && m.alias in st.routes ==> forall other :: other in st.requests ==> other in m.order)
    case StreamEnded(id, reaction) => AllowedCalls(Terminate(st, id), reaction)
    case Calls(calls) => AllowedCalls(st, calls)
  }

  predicate AllowedRun(st: State, events: seq<Event>)
    decreases |events|
  {
    events == [] || (Allowed(st, events[0]) && AllowedRun(Step(st, events[0]), events[1..]))
  }

  function Run(st: State, events: seq<Event>): State
    decreases |events|
  {
    if events == [] then st else Run(Step(st, events[0]), events[1..])
  }
}

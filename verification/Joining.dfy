/**
 * The subscriber session and its receive plane as one: a SUBSCRIBE_OK installs a route, whatever stops
 * a request retires its route, and what the plane calls back makes the session and the application act
 * before the plane goes on.
 */
module Joining {
  import opened Basics
  import opened DataPlanes
  import S = Subscribing

  /**
   * The application: what it calls from inside the n-th callback of the plane. If that callback closes
   * the session, `order` is the order of its requests then, and `reactions` what their handlers do.
   */
  datatype App = App(config: Config, acts: nat -> seq<S.Call>, order: nat -> seq<u64>,
                     reactions: nat -> seq<seq<S.Quick>>)

  /** The requests that a call stops. */
  function Halts(c: S.Call): seq<u64> {
    match c
    case Stop(id) => [id]
    case Close(order, _) => order
    case _ => []
  }

  function HaltsAll(calls: seq<S.Call>): seq<u64> {
    if calls == [] then [] else Halts(calls[0]) + HaltsAll(calls[1..])
  }

  /** What the plane sees of the application. */
  function ContextOf(app: App): Context {
    Context(app.config, n => HaltsAll(app.acts(n)))
  }

  /** What the n-th callback makes the session do: first of itself, then by the application's calls. */
  function Answer(app: App, c: Callback, n: nat): seq<S.Call> {
    match c
    case HandedOver(_) => app.acts(n)
    case TrackError(request) => [S.Call.Stop(request)] + app.acts(n)
    case ProtocolError => [S.Call.Close(app.order(n), app.reactions(n))] + app.acts(n)
    case AbortReceive(_) => []
  }

  /** What all the callbacks from the n-th on make it do. */
  function Answers(app: App, log: seq<Callback>, n: nat): seq<S.Call>
    decreases |log| - n
  {
    if n >= |log| then [] else Answer(app, log[n], n) + Answers(app, log, n + 1)
  }

  datatype World = World(session: S.State, plane: Plane)

  const START := World(S.INITIAL, EMPTY)

  /** SUBSCRIBE_OK, any other event of the session, or data for the plane. */
  datatype Input =
    | Accepted(id: u64, alias: u64, order: seq<u64>, reactions: seq<seq<S.Quick>>, reaction: seq<S.Call>)
    | Control(control: S.Event)
    | Traffic(data: DataPlanes.Event)

  /** SUBSCRIBE_OK for a pending request. */
  predicate Awaited(st: S.State, id: u64) {
    id in st.requests && id in st.history && st.requests[id].phase.Pending?
  }

  /** It installs a route. */
  predicate Binds(w: World, e: Input) {
    e.Accepted? && Awaited(w.session, e.id) && e.alias !in w.session.routes
  }

  /** The requests that a message stops, if it is not a SUBSCRIBE_OK. */
  function MessageHalts(st: S.State, id: u64, m: S.Message): seq<u64> {
    if id !in st.requests || id !in st.history then [] else
    var r := st.requests[id];
    var reaction := HaltsAll(S.CallsOf(m));
    match m
    case SubscribeOk(_, _, _, _) => if r.phase.Pending? then [] else [id] + reaction
    case RequestError(_, _) => if r.phase.Pending? then [id] else if r.updates == [] then [id] + reaction else []
    case RequestOk(_, properties, _) =>
      if r.phase.Pending? || r.updates == [] || properties then [id] + reaction else []
    case PublishDone(_) => if r.phase.Pending? then [id] + reaction else reaction + [id]
    case GoAway(_) => if r.phase.Pending? then [id] + reaction else []
    case Undecodable(_) => [id] + reaction
    case Unknown(_) => if r.phase.Pending? then [id] + reaction else reaction
  }

  function ControlHalts(st: S.State, e: S.Event): seq<u64> {
    match e
    case Received(id, m) => MessageHalts(st, id, m)
    case StreamEnded(id, reaction) => if id in st.requests then [id] + HaltsAll(reaction) else []
    case Calls(calls) => HaltsAll(calls)
  }

  /** What the plane comes to. */
  function PlaneStep(app: App, w: World, e: Input): Plane {
    match e
    case Accepted(id, alias, order, reactions, reaction) =>
      if Awaited(w.session, id) then Install(ContextOf(app), w.plane, alias, id)
      else StopAll(w.plane, ControlHalts(w.session, SessionEvent(app, w, e)))
    case Control(c) => StopAll(w.plane, ControlHalts(w.session, c))
    case Traffic(d) => DataPlanes.Step(ContextOf(app), w.plane, d)
  }

  /** The event as the session sees it. */
  function SessionEvent(app: App, w: World, e: Input): S.Event {
    match e
    case Accepted(id, alias, order, reactions, reaction) =>
      var calls := if Binds(w, e) then
                     Answers(app, Replay(ContextOf(app), w.plane, alias, id).log, |w.plane.log|)
                   else if Awaited(w.session, id) then [] else reaction;
      S.Received(id, S.SubscribeOk(alias, calls, order, reactions))
    case Control(c) => c
    case Traffic(d) => S.Calls(Answers(app, DataPlanes.Step(ContextOf(app), w.plane, d).log, |w.plane.log|))
  }

  function Turn(app: App, w: World, e: Input): World {
    World(S.Step(w.session, SessionEvent(app, w, e)), PlaneStep(app, w, e))
  }

  /** Closing walks over all the requests; a SUBSCRIBE_OK is an event of its own; data is data. */
  predicate AllowedTurn(app: App, w: World, e: Input) {
    && S.Allowed(w.session, SessionEvent(app, w, e))
    && (e.Control? && e.control.Received? ==> !e.control.message.SubscribeOk?)
    && (e.Traffic? ==> !e.data.InstallRoute? && !e.data.StopRequest?)
  }

  predicate AllowedTurns(app: App, w: World, events: seq<Input>)
    decreases |events|
  {
    events == [] || (AllowedTurn(app, w, events[0]) && AllowedTurns(app, Turn(app, w, events[0]), events[1..]))
  }

  function Turns(app: App, w: World, events: seq<Input>): World
    decreases |events|
  {
    if events == [] then w else Turns(app, Turn(app, w, events[0]), events[1..])
  }
}

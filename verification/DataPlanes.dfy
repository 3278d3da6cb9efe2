/**
 * The receive plane of a subscriber: routes by track alias, early streams and datagrams that are
 * held for an alias without one, and the counters that bound them. Callbacks stop requests while they
 * run: an error of a track stops its request, a protocol error stops all of them, and the application
 * may stop any; `stops(n)` lists the requests that it stops in the n-th callback.
 */
module DataPlanes {
  import opened Basics
  import opened Reception
  import Delivery
  import Datagrams
  import Varint

  datatype Config = Config(policy: AliasPolicy, maxDatagramBytes: nat, maxDatagramsPerAlias: nat, maxPending: nat,
                           maxStreamBytes: nat)

  /** The limits of the plane, and what the application does in its callbacks. */
  datatype Context = Context(config: Config, stops: nat -> seq<u64>)

  datatype Callback = HandedOver(obj: Object) | TrackError(request: u64) | ProtocolError | AbortReceive(stream: u64)

  /**
   * `routes` maps an alias to the request that owns it and `states` a request to its route, which
   * outlives its place in the table; `receivers` holds the receiver of each stream. `owned` gives the
   * track_alias_ of the established requests. It is set only after a route has been installed: while
   * that is at work the request is `busy`, and `stopped` says whether it has been stopped meanwhile.
   */
  datatype Plane = Plane(routes: map<u64, u64>, states: map<u64, Delivery.Route>, owned: map<u64, u64>,
                         busy: Option<u64>, stopped: bool, pending: map<u64, seq<u64>>, pendingCount: nat,
                         datagrams: map<u64, seq<bytes>>, heldBytes: nat, receivers: map<u64, Receiver>,
                         log: seq<Callback>)

  const EMPTY := Plane(map[], map[], map[], None, false, map[], 0, map[], 0, map[], [])

  /** The route of the request, if it has one, is no longer active. */
  function SwitchOff(states: map<u64, Delivery.Route>, request: u64): map<u64, Delivery.Route> {
    if request in states then states[request := states[request].(active := false)] else states
  }

  /** retire_route. */
  function Retire(p: Plane, alias: u64): Plane {
    if alias !in p.routes then p
    else p.(routes := p.routes - {alias}, states := SwitchOff(p.states, p.routes[alias]))
  }

  /** terminate: the route of an established request is retired; that of a busy one is left for later. */
  function Stop(p: Plane, request: u64): Plane {
    if p.busy == Some(request) then p.(stopped := true)
    else if request in p.owned then Retire(p, p.owned[request]).(owned := p.owned - {request})
    else p
  }

  function StopAll(p: Plane, requests: seq<u64>): Plane
    decreases |requests|
  {
    if requests == [] then p else StopAll(Stop(p, requests[0]), requests[1..])
  }

  /** The routes whose requests are not among these. */
  function Others(routes: map<u64, u64>, owned: map<u64, u64>): map<u64, u64> {
    map a | a in routes && routes[a] !in owned :: routes[a]
  }

  function SwitchAllOff(states: map<u64, Delivery.Route>, owned: map<u64, u64>): map<u64, Delivery.Route> {
    map q | q in states :: if q in owned then states[q].(active := false) else states[q]
  }

  /** terminate_subscriptions: the effect of stopping every request, in whatever order. */
  function StopEvery(p: Plane): Plane {
    p.(routes := Others(p.routes, p.owned), states := SwitchAllOff(p.states, p.owned), owned := map[],
       stopped := p.stopped || p.busy.Some?)
  }

  /** What the session itself does about a callback. */
  function React(p: Plane, c: Callback): Plane {
    match c
    case TrackError(request) => Stop(p, request)
    case ProtocolError => StopEvery(p)
    case _ => p
  }

  /** A callback, and what it does to the plane before it returns. */
  function Emit(x: Context, p: Plane, c: Callback): Plane {
    StopAll(React(p.(log := p.log + [c]), c), x.stops(|p.log|))
  }

  /** deliver. */
  function Deliver(x: Context, p: Plane, o: Object): Plane {
    if o.request !in p.states then p else
    var r := p.states[o.request];
    match Delivery.FateOf(r, o)
    case Ignored => p
    case Malformed => Emit(x, p, TrackError(o.request))
    case Handed => Emit(x, p.(states := p.states[o.request := Delivery.Delivered(r, o)]), HandedOver(o))
  }

  /** The end-of-group bit of a stream or a datagram. */
  function Mark(p: Plane, request: u64, group: u64, id: u64): Plane {
    if request !in p.states then p
    else p.(states := p.states[request := Delivery.Marked(p.states[request], group, id)])
  }

  /** find_or_park_subgroup, where there is no route and there is room. */
  function Park(p: Plane, alias: u64, stream: u64): Plane {
    var list := if alias in p.pending then p.pending[alias] else [];
    p.(pending := p.pending[alias := list + [stream]], pendingCount := p.pendingCount + 1)
  }

  function Without(list: seq<u64>, stream: u64): (r: seq<u64>)
    ensures |r| <= |list|
  {
    if list == [] then []
    else if list[0] == stream then Without(list[1..], stream)
    else [list[0]] + Without(list[1..], stream)
  }

  /** discard_pending_subgroup. */
  function Discard(p: Plane, alias: u64, stream: u64): Plane {
    if alias !in p.pending then p else
    var list := p.pending[alias];
    var left := Without(list, stream);
    var removed := |list| - |left|;
    p.(pending := if left == [] then p.pending - {alias} else p.pending[alias := left],
       pendingCount := if removed <= p.pendingCount then p.pendingCount - removed else 0)
  }

  /** A call that a receiver makes. */
  function Apply(x: Context, p: Plane, stream: u64, c: Call): Plane {
    match c
    case Deliver(o) => Deliver(x, p, o)
    case Fail => Emit(x, p, ProtocolError)
    case GroupFinal(request, group, id) => Mark(p, request, group, id)
    case Park(alias) => Park(p, alias, stream)
    case Unpark(alias) => Discard(p, alias, stream)
    case Abort => p.(log := p.log + [AbortReceive(stream)])
  }

  function ApplyAll(x: Context, p: Plane, stream: u64, calls: seq<Call>): Plane
    decreases |calls|
  {
    if calls == [] then p else ApplyAll(x, Apply(x, p, stream, calls[0]), stream, calls[1..])
  }

  function EnvOf(x: Context, p: Plane, stream: u64): Env {
    Env(x.config.policy, p.routes, p.pendingCount < x.config.maxPending, x.config.maxStreamBytes, stream)
  }

  function Becomes(x: Context, p: Plane, stream: u64, o: Outcome): Plane {
    ApplyAll(x, p.(receivers := p.receivers[stream := o.rx]), stream, o.calls)
  }

  /** on_receive of a stream's receiver. */
  function StreamReceive(x: Context, p: Plane, stream: u64, received: bytes, fin: bool): Plane {
    if stream !in p.receivers then p
    else Becomes(x, p, stream, Receive(p.receivers[stream], EnvOf(x, p, stream), received, fin))
  }

  /** start_subgroup_stream. */
  function StartStream(x: Context, p: Plane, stream: u64, prefix: bytes, fin: bool): Plane {
    if stream in p.receivers then p
    else StreamReceive(x, p.(receivers := p.receivers[stream := Opening(prefix)]), stream, [], fin)
  }

  /** on_peer_send_aborted. */
  function StreamAborted(p: Plane, stream: u64): Plane {
    if stream !in p.receivers then p else
    var rx := p.receivers[stream];
    (if rx.Waiting? then Discard(p, rx.header.alias, stream) else p).(receivers := p.receivers[stream := Closed])
  }

  /** deliver_datagram; `allow` says whether a datagram without a route may be held. */
  function DeliverDatagram(x: Context, p: Plane, d: bytes, allow: bool): Plane {
    match Varint.Take(d)
    case Done(kind, rest) =>
      if kind == Datagrams.PADDING_TYPE then
        if forall i :: 0 <= i < |rest| ==> rest[i] == 0 then p else Emit(x, p, ProtocolError)
      else
        (match Datagrams.ParseHead(d)
         case Done(h, body) =>
           if h.alias in p.routes then DeliverBody(x, p, h, Datagrams.ParseBody(h, body, p.routes[h.alias]))
           else if allow then Hold(x, p, h.alias, d)
           else p
         case _ => Emit(x, p, ProtocolError))
    case _ => Emit(x, p, ProtocolError)
  }

  /** The end of a group is recorded before the object is delivered. */
  function DeliverBody(x: Context, p: Plane, h: Datagrams.Head, body: Parse<Object>): Plane {
    match body
    case Done(o, _) => Deliver(x, if h.flags.endOfGroup then Mark(p, o.request, h.group, h.id) else p, o)
    case _ => Emit(x, p, ProtocolError)
  }

  /** buffer_unknown_datagram. */
  function Hold(x: Context, p: Plane, alias: u64, d: bytes): Plane {
    match x.config.policy
    case Drop => p
    case Error => Emit(x, p, ProtocolError)
    case Buffer =>
      if |d| > x.config.maxDatagramBytes || p.heldBytes + |d| > x.config.maxDatagramBytes then p else
      var list := if alias in p.datagrams then p.datagrams[alias] else [];
      if |list| >= x.config.maxDatagramsPerAlias then p.(datagrams := p.datagrams[alias := list])
      else p.(datagrams := p.datagrams[alias := list + [d]], heldBytes := p.heldBytes + |d|)
  }

  /** The datagram loop of install_route. */
  function ReplayDatagrams(x: Context, p: Plane, ds: seq<bytes>): Plane
    decreases |ds|
  {
    if ds == [] then p else
    var left := if |ds[0]| <= p.heldBytes then p.heldBytes - |ds[0]| else 0;
    ReplayDatagrams(x, DeliverDatagram(x, p.(heldBytes := left), ds[0], false), ds[1..])
  }

  /** The stream loop of install_route: establish on each parked receiver. */
  function ReplayStreams(x: Context, p: Plane, ss: seq<u64>, request: u64): Plane
    decreases |ss|
  {
    if ss == [] then p
    else if ss[0] !in p.receivers then ReplayStreams(x, p, ss[1..], request)
    else ReplayStreams(x, Becomes(x, p, ss[0], Establish(p.receivers[ss[0]], ss[0], request)), ss[1..], request)
  }

  function Streams(p: Plane, alias: u64): seq<u64> {
    if alias in p.pending then p.pending[alias] else []
  }

  function Held(p: Plane, alias: u64): seq<bytes> {
    if alias in p.datagrams then p.datagrams[alias] else []
  }

  /** The alias gets its route, what was held for it leaves the tables, and the request is busy. */
  function Claimed(p: Plane, alias: u64, request: u64): Plane {
    var count := |Streams(p, alias)|;
    p.(routes := p.routes[alias := request], states := p.states[request := Delivery.Fresh(request)],
       pending := p.pending - {alias}, pendingCount := if count <= p.pendingCount then p.pendingCount - count else 0,
       datagrams := p.datagrams - {alias}, busy := Some(request), stopped := false)
  }

  /** Both replays of install_route. */
  function Replay(x: Context, p: Plane, alias: u64, request: u64): Plane {
    ReplayStreams(x, ReplayDatagrams(x, Claimed(p, alias, request), Held(p, alias)), Streams(p, alias), request)
  }

  /** The end of SUBSCRIBE_OK: a request that was stopped meanwhile loses its route, any other is established. */
  function Settled(p: Plane, alias: u64, request: u64): Plane {
    (if p.stopped then Retire(p, alias) else p.(owned := p.owned[request := alias])).(busy := None, stopped := false)
  }

  /** SUBSCRIBE_OK: install_route and what follows it; an alias that already has a route closes the session. */
  function Install(x: Context, p: Plane, alias: u64, request: u64): Plane {
    if alias in p.routes then StopEvery(p) else Settled(Replay(x, p, alias, request), alias, request)
  }

  datatype Event =
    | InstallRoute(alias: u64, request: u64)
    | StopRequest(request: u64)
    | OnDatagram(datagram: bytes)
    | Start(stream: u64, prefix: bytes, fin: bool)
    | Data(stream: u64, received: bytes, fin: bool)
    | Aborted(stream: u64)

  function Step(x: Context, p: Plane, e: Event): Plane {
    match e
    case InstallRoute(alias, request) => Install(x, p, alias, request)
    case StopRequest(request) => Stop(p, request)
    case OnDatagram(d) => DeliverDatagram(x, p, d, true)
    case Start(stream, prefix, fin) => StartStream(x, p, stream, prefix, fin)
    case Data(stream, received, fin) => StreamReceive(x, p, stream, received, fin)
    case Aborted(stream) => StreamAborted(p, stream)
  }

  /** A request is given a route at most once: SUBSCRIBE_OK is accepted only while it is pending. */
  predicate Allowed(p: Plane, e: Event) {
    e.InstallRoute? ==> e.request !in p.states
  }

  predicate AllowedRun(x: Context, p: Plane, events: seq<Event>)
    decreases |events|
  {
    events == [] || (Allowed(p, events[0]) && AllowedRun(x, Step(x, p, events[0]), events[1..]))
  }

  function Run(x: Context, p: Plane, events: seq<Event>): Plane
    decreases |events|
  {
    if events == [] then p else Run(x, Step(x, p, events[0]), events[1..])
  }
}

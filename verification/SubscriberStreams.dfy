/**
 * The request streams of a subscriber, from bytes to promises: frames are read off the stream,
 * decoded and handled in order, and handlers run meanwhile. Whatever a publisher sends, cut and
 * interleaved in any way, the session's invariants hold.
 */
module SubscriberStreams {
  import opened Basics
  import opened ControlFrames
  import opened ControlLoops
  import S = Subscribing
  import SI = SubscribingInvariants
  import CM = ControlMessages
  import Reception

  const GOAWAY: u64 := 0x10

  /** What the handlers do while one message is handled. */
  datatype Script = Script(calls: seq<S.Call>, order: seq<u64>, reactions: seq<seq<S.Quick>>)

  const QUIET := Script([], [], [])

  /** How handle_control_message reads a frame. `tag` tells messages apart. */
  function MessageOf(m: Message, tag: nat, s: Script): S.Message {
    if m.kind == CM.SUBSCRIBE_OK then
      match CM.Decode(m)
      case Some(SubscribeOk(alias, _, _)) => S.SubscribeOk(alias, s.calls, s.order, s.reactions)
      case _ => S.Undecodable(s.calls)
    else if m.kind == CM.REQUEST_ERROR then
      match CM.Decode(m)
      case Some(RequestError(_, _, _)) => S.RequestError(tag, s.calls)
      case _ => S.Undecodable(s.calls)
    else if m.kind == CM.REQUEST_OK then
      match CM.Decode(m)
      case Some(RequestOk(_, properties)) => S.RequestOk(tag, properties != [], s.calls)
      case _ => S.Undecodable(s.calls)
    else if m.kind == CM.PUBLISH_DONE then
      match CM.Decode(m)
      case Some(PublishDone(_, _, _)) => S.PublishDone(s.calls)
      case _ => S.Undecodable(s.calls)
    else if m.kind == GOAWAY then S.GoAway(s.calls)
    else S.Unknown(s.calls)
  }

  /** A request stream and the session it acts on; `n` messages have been handled. */
  datatype Conn = Live(st: S.State, n: nat) | Over(st: S.State)

  function Handle(id: u64, script: nat -> Script, c: Conn, m: Message): Conn {
    match c
    case Live(st, n) =>
      var st1 := S.Handle(st, id, MessageOf(m, n, script(n)));
      if id in st1.requests then Live(st1, n + 1) else Over(st1)
    case Over(_) => c
  }

  /** A stream that ends inside a message terminates its request. */
  function End(id: u64, script: nat -> Script, c: Conn, held: bytes): Conn {
    match c
    case Live(st, n) => if held == [] then c else Over(S.Step(st, S.StreamEnded(id, script(n).calls)))
    case Over(_) => c
  }

  /** on_receive of Subscriber::SubscriptionRequest. */
  function Responses(id: u64, script: nat -> Script): Machine<Conn> {
    Machine((c, m) => Handle(id, script, c, m), (c: Conn) => c.Over?, (c, held) => End(id, script, c, held))
  }

  lemma ResponsesAreFinal(id: u64, script: nat -> Script)
    ensures Final(Responses(id, script))
  {
    hide S.Step;
    var m := Responses(id, script);
    forall c: Conn, held: bytes
      ensures m.finished(m.end(c, held)) || (held == [] && m.end(c, held) == c)
    {
      assert m.end(c, held) == End(id, script, c, held);
    }
  }

  /** The subscriber's message loop gives the same result however its stream is cut, whatever handlers do. */
  lemma ResponseFragmentation(id: u64, script: nat -> Script, st: S.State, arrivals: seq<Reception.Arrival>)
    requires Reception.WellFormed(arrivals)
    ensures var m := Responses(id, script);
            Same(m, ReceiveArrivals(m, Loop(Live(st, 0), []), arrivals),
                    OnReceive(m, Loop(Live(st, 0), []), Reception.AllBytes(arrivals), Reception.AnyFin(arrivals)))
  {
    hide Read, Drain, Handle, End;
    ResponsesAreFinal(id, script);
    assert Read([]).More? by { NothingToRead(); }
    ControlFragmentation(Responses(id, script), Loop(Live(st, 0), []), arrivals);
  }

  // ----- the invariants -----

  /** What handlers do is allowed at each message of the bytes, and at the end of the stream. */
  ghost predicate AllowedDrain(id: u64, script: nat -> Script, c: Conn, s: bytes, fin: bool)
    decreases |s|
  {
    c.Live? ==>
      match Read(s)
      case Done(m, rest) =>
        && S.Allowed(c.st, S.Received(id, MessageOf(m, c.n, script(c.n))))
        && AllowedDrain(id, script, Handle(id, script, c, m), rest, fin)
      case _ => fin && s != [] ==> S.Allowed(c.st, S.StreamEnded(id, script(c.n).calls))
  }

  lemma HandleKeeps(id: u64, script: nat -> Script, c: Conn, m: Message)
    requires SI.Good(c.st) && (c.Live? ==> S.Allowed(c.st, S.Received(id, MessageOf(m, c.n, script(c.n)))))
    ensures SI.Good(Handle(id, script, c, m).st)
  {
    hide SI.Good, S.Handle, S.Allowed, MessageOf;
    if c.Live? {
      SI.StepGood(c.st, S.Received(id, MessageOf(m, c.n, script(c.n))));
    }
  }

  lemma {:induction false} DrainKeeps(id: u64, script: nat -> Script, c: Conn, s: bytes, fin: bool)
    requires SI.Good(c.st) && AllowedDrain(id, script, c, s, fin)
    ensures var l := Drain(Responses(id, script), c, s);
            && SI.Good(l.handler.st)
            && (l.handler.Live? && fin && l.held != [] ==>
                  S.Allowed(l.handler.st, S.StreamEnded(id, script(l.handler.n).calls)))
    decreases |s|
  {
    hide SI.Good, Read, Handle, S.Allowed, MessageOf;
    var m := Responses(id, script);
    if c.Live? && Read(s).Done? {
      HandleKeeps(id, script, c, Read(s).value);
      DrainKeeps(id, script, m.handle(c, Read(s).value), Read(s).rest, fin);
    }
  }

  lemma OnReceiveKeeps(id: u64, script: nat -> Script, c: Conn, held: bytes, received: bytes, fin: bool)
    requires SI.Good(c.st) && AllowedDrain(id, script, c, held + received, fin)
    ensures SI.Good(OnReceive(Responses(id, script), Loop(c, held), received, fin).handler.st)
  {
    hide SI.Good, Read, Drain, S.Step, S.Allowed, AllowedDrain;
    DrainKeeps(id, script, c, held + received, fin);
    var l := Drain(Responses(id, script), c, held + received);
    if l.handler.Live? && fin && l.held != [] {
      SI.StepGood(l.handler.st, S.StreamEnded(id, script(l.handler.n).calls));
    }
  }

  /** A session with the bytes held on its request streams. */
  datatype World = World(st: S.State, held: map<u64, bytes>, n: nat)

  /** Calls of the application, the loss of a stream, or bytes on a request's stream. */
  datatype WireEvent =
    | Local(event: S.Event)
    | Bytes(id: u64, received: bytes, fin: bool, script: nat -> Script)

  function HeldOn(w: World, id: u64): bytes {
    if id in w.held then w.held[id] else []
  }

  function WireStep(w: World, e: WireEvent): World {
    match e
    case Local(event) => w.(st := S.Step(w.st, event))
    case Bytes(id, received, fin, script) =>
      if id !in w.st.requests then w else
      var l := OnReceive(Responses(id, script), Loop(Live(w.st, w.n), HeldOn(w, id)), received, fin);
      World(l.handler.st, w.held[id := l.held], if l.handler.Live? then l.handler.n else w.n)
  }

  ghost predicate AllowedEvent(w: World, e: WireEvent) {
    match e
    case Local(event) => S.Allowed(w.st, event)
    case Bytes(id, received, fin, script) =>
      id in w.st.requests ==> AllowedDrain(id, script, Live(w.st, w.n), HeldOn(w, id) + received, fin)
  }

  ghost predicate AllowedWire(w: World, events: seq<WireEvent>)
    decreases |events|
  {
    events == [] || (AllowedEvent(w, events[0]) && AllowedWire(WireStep(w, events[0]), events[1..]))
  }

  function WireRun(w: World, events: seq<WireEvent>): World
    decreases |events|
  {
    if events == [] then w else WireRun(WireStep(w, events[0]), events[1..])
  }

  lemma WireStepKeeps(w: World, e: WireEvent)
    requires SI.Good(w.st) && AllowedEvent(w, e)
    ensures SI.Good(WireStep(w, e).st)
  {
    hide SI.Good, S.Step, S.Allowed, OnReceive, AllowedDrain;
    match e
    case Local(event) => SI.StepGood(w.st, event);
    case Bytes(id, received, fin, script) =>
      if id in w.st.requests {
        OnReceiveKeeps(id, script, Live(w.st, w.n), HeldOn(w, id), received, fin);
      }
  }

  lemma {:induction false} WireRunKeeps(w: World, events: seq<WireEvent>)
    requires SI.Good(w.st) && AllowedWire(w, events)
    ensures SI.Good(WireRun(w, events).st)
    decreases |events|
  {
    hide SI.Good, WireStep, AllowedEvent;
    if events != [] {
      WireStepKeeps(w, events[0]);
      WireRunKeeps(WireStep(w, events[0]), events[1..]);
    }
  }

  /** No sequence of bytes, calls and reactions takes a subscriber out of its invariants. */
  lemma AnyBytesKeepTheFutures(events: seq<WireEvent>)
    requires AllowedWire(World(S.INITIAL, map[], 0), events)
    ensures SI.Good(WireRun(World(S.INITIAL, map[], 0), events).st)
  {
    hide WireRun, AllowedWire;
    assert S.Run(S.INITIAL, []) == S.INITIAL;
    SI.Reachable([]);
    WireRunKeeps(World(S.INITIAL, map[], 0), events);
  }
}

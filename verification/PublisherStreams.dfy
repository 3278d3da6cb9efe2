/**
 * The request streams of a publisher, from bytes to tables: the gate takes the first message, the
 * request it opens takes the rest. Whatever bytes come on however many streams, cut and interleaved
 * in any way, the tables stay good.
 */
module PublisherStreams {
  import opened Basics
  import opened ControlFrames
  import opened ControlLoops
  import opened Publishing
  import opened PublishingInvariants
  import ControlFields
  import ControlMessages
  import Parameters
  import SubscriptionOptions
  import Reception
  import StreamGate

  /** Where a peer's request stream stands, together with the publisher it acts on. */
  datatype Conn = AtGate(st: State) | Serving(st: State, id: u64) | Over(st: State)

  /** known_peer_request_type. */
  predicate KnownRequest(kind: u64) {
    kind in {0x03, 0x1d, 0x06, 0x0d, 0x16, 0x50, 0x51}
  }

  /** The SUBSCRIBE in a message as an event, or a violation. */
  function SubscribeEvent(m: Message, sendOk: bool): Event {
    match ControlMessages.Decode(m)
    case Some(Subscribe(id, space, name, params)) =>
      PeerSubscribe(id, TrackKey(space, name), SubscriptionOptions.Decode(params), sendOk)
    case _ => Violation
  }

  /** The REQUEST_UPDATE in a message as an event; any other message is a violation. */
  function UpdateEvent(id: u64, m: Message): Event {
    if m.kind != ControlMessages.REQUEST_UPDATE then Violation else
    match ControlMessages.Decode(m)
    case Some(RequestUpdate(updateId, params)) => PeerUpdate(id, updateId, SubscriptionOptions.Decode(params))
    case _ => Violation
  }

  /** The options that reach the publisher. */
  function Arriving(o: Options): Option<Options> {
    if SubscriptionOptions.OptionsInBounds(o) then Some(SubscriptionOptions.Understood(o)) else None
  }

  /**
   * A SUBSCRIBE from the subscriber's encoder to the publisher's tables: framed, read off the stream
   * in front of anything, decoded, and its options understood exactly as they were stated.
   */
  lemma SubscribeArrives(id: u64, space: seq<bytes>, name: buffer, o: Options, sendOk: bool, tail: bytes)
    requires |name| <= ControlFields.MAX_NAME
    requires ControlMessages.EncodeMessage(ControlMessages.Subscribe(id, space, name,
            SubscriptionOptions.OptionParameters(o))).Some?
    ensures var c := ControlMessages.Subscribe(id, space, name, SubscriptionOptions.OptionParameters(o));
            var r := Read(ControlMessages.EncodeMessage(c).value + tail);
            && r.Done? && r.rest == tail
            && SubscribeEvent(r.value, sendOk) == PeerSubscribe(id, TrackKey(space, name), Arriving(o), sendOk)
  {
    hide Read, ControlMessages.EncodeMessage, ControlMessages.Decode, SubscriptionOptions.Decode,
         SubscriptionOptions.OptionParameters,
         Parameters.AllWellFormed, Parameters.Sort, Parameters.Rising;
    var ps := SubscriptionOptions.OptionParameters(o);
    ControlMessages.ControlRoundTrip(ControlMessages.Subscribe(id, space, name, ps), tail);
    SubscriptionOptions.OptionsCanBeSent(o);
    Parameters.SortOfRising(ps, 0);
    SubscriptionOptions.OptionsRoundTrip(o);
  }

  /** The same for a REQUEST_UPDATE. */
  lemma UpdateArrives(id: u64, updateId: u64, o: Options, tail: bytes)
    requires ControlMessages.EncodeMessage(ControlMessages.RequestUpdate(updateId,
            SubscriptionOptions.OptionParameters(o))).Some?
    ensures var c := ControlMessages.RequestUpdate(updateId, SubscriptionOptions.OptionParameters(o));
            var r := Read(ControlMessages.EncodeMessage(c).value + tail);
            && r.Done? && r.rest == tail && UpdateEvent(id, r.value) == PeerUpdate(id, updateId, Arriving(o))
  {
    hide Read, ControlMessages.EncodeMessage, ControlMessages.Decode, SubscriptionOptions.Decode,
         SubscriptionOptions.OptionParameters,
         Parameters.AllWellFormed, Parameters.Sort, Parameters.Rising, ControlMessages.Normal;
    var ps := SubscriptionOptions.OptionParameters(o);
    var c := ControlMessages.RequestUpdate(updateId, ps);
    ControlMessages.ControlRoundTrip(c, tail);
    SubscriptionOptions.OptionsCanBeSent(o);
    Parameters.SortOfRising(ps, 0);
    SubscriptionOptions.OptionsRoundTrip(o);
    ControlMessages.DecodedIsNormal(Read(ControlMessages.EncodeMessage(c).value + tail).value);
  }

  /** handle_peer_request: SUBSCRIBE is accepted or refused, other requests are refused, others violate. */
  function First(st: State, m: Message, sendOk: bool): Conn {
    if !st.ready then Over(st)
    else if m.kind == ControlMessages.SUBSCRIBE then Opened(st, SubscribeEvent(m, sendOk))
    else if KnownRequest(m.kind) then Over(st)
    else Over(Step(st, Violation))
  }

  function Opened(st: State, e: Event): Conn {
    var st1 := Step(st, e);
    if e.PeerSubscribe? && e.id in st1.requests then Serving(st1, e.id) else Over(st1)
  }

  function Handle(c: Conn, m: Message, sendOk: bool): Conn {
    match c
    case AtGate(st) => First(st, m, sendOk)
    case Serving(st, id) => Serving(Step(st, UpdateEvent(id, m)), id)
    case Over(_) => c
  }

  /** A request that is gone from the table does nothing any more. */
  predicate Finished(c: Conn) {
    c.Over? || (c.Serving? && (!c.st.ready || c.id !in c.st.requests))
  }

  /** The end of the stream is a violation at the gate, and inside a message. */
  function End(c: Conn, held: bytes): Conn {
    match c
    case AtGate(st) => Over(Step(st, Violation))
    case Serving(st, id) => if held == [] then c else Serving(Step(st, Violation), id)
    case Over(_) => c
  }

  function Serve(sendOk: bool): Machine<Conn> {
    Machine((c, m) => Handle(c, m, sendOk), c => Finished(c), (c, held) => End(c, held))
  }

  /** Violations close the session, and a closed session has no requests to serve. */
  lemma ServeIsFinal(sendOk: bool)
    ensures Final(Serve(sendOk))
  {
    hide Publish, Subscribe, Update, CancelRequest, EndAll, CancelAll;
    var m := Serve(sendOk);
    forall c: Conn, held: bytes
      ensures m.finished(m.end(c, held)) || (held == [] && m.end(c, held) == c)
    {
      assert m.end(c, held) == End(c, held) && m.finished(m.end(c, held)) == Finished(End(c, held));
      if c.Serving? {
        assert !Step(c.st, Violation).ready;
      }
    }
  }

  /** A request stream gives the same result however it is cut, the gate included. */
  lemma RequestFragmentation(st: State, sendOk: bool, arrivals: seq<Reception.Arrival>)
    requires Reception.WellFormed(arrivals)
    ensures var m := Serve(sendOk);
            Same(m, ReceiveArrivals(m, Loop(AtGate(st), []), arrivals),
                    OnReceive(m, Loop(AtGate(st), []), Reception.AllBytes(arrivals), Reception.AnyFin(arrivals)))
  {
    hide Read, Drain, Step, Handle;
    ServeIsFinal(sendOk);
    assert Read([]).More? by { NothingToRead(); }
    ControlFragmentation(Serve(sendOk), Loop(AtGate(st), []), arrivals);
  }

  /**
   * The gate and the request behind it are one loop: the gate's verdict on a bidirectional stream is
   * what the loop does first, and the leftover goes to the request's own loop.
   */
  lemma GateIsFirstTurn(st: State, sendOk: bool, held: bytes, received: bytes, fin: bool)
    ensures var m := Serve(sendOk);
            var (gate, action) := StreamGate.Step(StreamGate.Gate(StreamGate.Classify, held), false, received, fin);
            var l := OnReceive(m, Loop(AtGate(st), held), received, fin);
            match action
            case Nothing => l == Loop(AtGate(st), gate.held) && gate.mode == StreamGate.Classify
            case Violation => l == Loop(Over(Step(st, Violation)), gate.held)
            case PeerRequest(first, leftover, ended) =>
              Same(m, l, OnReceive(m, Loop(First(st, first, sendOk), []), leftover, ended))
            case _ => false
  {
    hide Read, Step, First, KnownRequest;
    var m := Serve(sendOk);
    var s := held + received;
    var r := Read(s);
    if r.Done? {
      assert [] + r.rest == r.rest;
      assert Drain(m, AtGate(st), s) == Drain(m, First(st, r.value, sendOk), r.rest);
    }
  }

  lemma HandleKeeps(c: Conn, m: Message, sendOk: bool)
    requires Good(c.st)
    ensures Good(Handle(c, m, sendOk).st)
  {
    hide Good, Step, ControlMessages.Decode, SubscriptionOptions.Decode, KnownRequest;
    match c
    case AtGate(st) =>
      StepKeeps(st, SubscribeEvent(m, sendOk));
      StepKeeps(st, Violation);
    case Serving(st, id) => StepKeeps(st, UpdateEvent(id, m));
    case Over(_) =>
  }

  lemma {:induction false} DrainKeeps(c: Conn, sendOk: bool, s: bytes)
    requires Good(c.st)
    ensures Good(Drain(Serve(sendOk), c, s).handler.st)
    decreases |s|
  {
    hide Good, Read, Handle, Finished, Step;
    var m := Serve(sendOk);
    if !m.finished(c) && Read(s).Done? {
      HandleKeeps(c, Read(s).value, sendOk);
      DrainKeeps(m.handle(c, Read(s).value), sendOk, Read(s).rest);
    }
  }

  lemma OnReceiveKeeps(c: Conn, held: bytes, sendOk: bool, received: bytes, fin: bool)
    requires Good(c.st)
    ensures Good(OnReceive(Serve(sendOk), Loop(c, held), received, fin).handler.st)
  {
    hide Good, Read, Drain, Finished, Step;
    DrainKeeps(c, sendOk, held + received);
    var l := Drain(Serve(sendOk), c, held + received);
    StepKeeps(l.handler.st, Violation);
  }

  /** Where one of many streams stands; they share the publisher. */
  datatype Stream = Stream(place: Place, held: bytes)

  datatype Place = Gated | Served(id: u64) | Ended

  datatype World = World(st: State, streams: map<nat, Stream>)

  /** A call of the application, the loss of a request stream, or bytes on one of the streams. */
  datatype WireEvent =
    | Local(event: Event)
    | Opens(stream: nat)
    | Bytes(stream: nat, received: bytes, fin: bool, sendOk: bool)

  function ConnOf(st: State, p: Place): Conn {
    match p
    case Gated => AtGate(st)
    case Served(id) => Serving(st, id)
    case Ended => Over(st)
  }

  function PlaceOf(c: Conn): Place {
    match c
    case AtGate(_) => Gated
    case Serving(_, id) => Served(id)
    case Over(_) => Ended
  }

  function WireStep(w: World, e: WireEvent): World {
    match e
    case Local(event) => w.(st := Step(w.st, event))
    case Opens(k) => if k in w.streams then w else w.(streams := w.streams[k := Stream(Gated, [])])
    case Bytes(k, received, fin, sendOk) =>
      if k !in w.streams then w else
      var l := OnReceive(Serve(sendOk), Loop(ConnOf(w.st, w.streams[k].place), w.streams[k].held), received, fin);
      World(l.handler.st, w.streams[k := Stream(PlaceOf(l.handler), l.held)])
  }

  ghost predicate AllowedWire(w: World, events: seq<WireEvent>)
    decreases |events|
  {
    events == [] ||
    (&& (events[0].Local? ==> Allowed(w.st, events[0].event))
     && AllowedWire(WireStep(w, events[0]), events[1..]))
  }

  function WireRun(w: World, events: seq<WireEvent>): World
    decreases |events|
  {
    if events == [] then w else WireRun(WireStep(w, events[0]), events[1..])
  }

  lemma WireStepKeeps(w: World, e: WireEvent)
    requires Good(w.st) && (e.Local? ==> Allowed(w.st, e.event))
    ensures Good(WireStep(w, e).st)
  {
    hide Good, Step, OnReceive;
    match e
    case Local(event) => StepKeeps(w.st, event);
    case Opens(_) =>
    case Bytes(k, received, fin, sendOk) =>
      if k in w.streams {
        OnReceiveKeeps(ConnOf(w.st, w.streams[k].place), w.streams[k].held, sendOk, received, fin);
      }
  }

  lemma {:induction false} WireRunKeeps(w: World, events: seq<WireEvent>)
    requires Good(w.st) && AllowedWire(w, events)
    ensures Good(WireRun(w, events).st)
    decreases |events|
  {
    hide Good, WireStep;
    if events != [] {
      WireStepKeeps(w, events[0]);
      WireRunKeeps(WireStep(w, events[0]), events[1..]);
    }
  }

  /** No sequence of bytes and calls takes a publisher out of its invariants. */
  lemma AnyBytesKeepTheTables(limit: nat, events: seq<WireEvent>)
    requires AllowedWire(World(Initial(limit), map[]), events)
    ensures Good(WireRun(World(Initial(limit), map[]), events).st)
  {
    hide WireRun;
    Reachable(limit, []);
    WireRunKeeps(World(Initial(limit), map[]), events);
  }
}

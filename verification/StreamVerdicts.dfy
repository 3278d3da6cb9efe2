/** What the first bytes of a peer's stream, and single messages on a request stream, are taken for. */
module StreamVerdicts {
  import opened Basics
  import opened ControlFrames
  import CM = ControlMessages
  import P = Publishing
  import PS = PublisherStreams
  import S = Subscribing
  import SS = SubscriberStreams
  import Gate = StreamGate
  import Setup
  import Varint
  import Wire = SubgroupWire

  // ----- the gate -----

  /** What a unidirectional stream is, by its type. */
  datatype Purpose = ForPadding | ForSetup | ForData | ForNothing

  function PurposeOf(t: u64): Purpose {
    if t == 0x132b3e28 then ForPadding
    else if t == 0x2f00 then ForSetup
    else if t == 0x05 || (0x10 <= t <= 0x7f && t / 0x10 % 2 == 1 && t / 2 % 4 != 3) then ForData
    else ForNothing
  }

  /** A unidirectional stream is let through to the receiver, checked as padding, or refused, by its type. */
  lemma DataStreamVerdict(t: u64, tail: bytes, fin: bool)
    ensures var s := Varint.Encode(t) + tail;
            var (gate, action) := Gate.Step(Gate.Gate(Gate.Classify, []), true, s, fin);
            match PurposeOf(t)
            case ForPadding =>
              gate.mode.Padding? && (action == Gate.Violation <==> exists i :: 0 <= i < |tail| && tail[i] != 0)
              && (action == Gate.Violation || action == Gate.Nothing)
            case ForData => gate.mode.Finished? && action == Gate.DataStream(t, s, fin)
            case ForNothing => gate.mode.Finished? && action == Gate.Violation
            case ForSetup => action == Gate.Nothing || action == Gate.Violation || action == Gate.PeerSetup
  {
    hide Varint.Encode, Varint.Take, Setup.Accepts, Read, Wire.IsSubgroupType;
    var s := Varint.Encode(t) + tail;
    assert [] + s == s;
    Varint.TakeEncoded(t, tail);
    DataTypes(t);
  }

  lemma DataTypes(t: u64)
    ensures Wire.IsSubgroupType(t) <==> 0x10 <= t <= 0x7f && t / 0x10 % 2 == 1 && t / 2 % 4 != 3
  {
  }

  /** Later bytes of a padding stream are checked too, and a finished gate does nothing any more. */
  lemma AfterTheGate(held: bytes, unidirectional: bool, received: bytes, fin: bool)
    ensures var (gate, action) := Gate.Step(Gate.Gate(Gate.Padding, held), unidirectional, received, fin);
            && gate == Gate.Gate(Gate.Padding, held)
            && action == if exists i :: 0 <= i < |received| && received[i] != 0 then Gate.Violation else Gate.Nothing
    ensures Gate.Step(Gate.Gate(Gate.Finished, held), unidirectional, received, fin) ==
            (Gate.Gate(Gate.Finished, held), Gate.Nothing)
  {
  }

  /** The stream that carries SETUP: accepted or refused by its payload, whatever follows the message. */
  lemma SetupVerdict(payload: bytes, tail: bytes, fin: bool)
    requires |payload| <= MAX_PAYLOAD
    ensures var frame := ControlFrames.Encode(Message(0x2f00, payload));
            && frame.Some?
            && var (gate, action) := Gate.Step(Gate.Gate(Gate.Classify, []), true, frame.value + tail, fin);
               gate.mode.Finished? && action == if Setup.Accepts(payload, 0) then Gate.PeerSetup else Gate.Violation
  {
    hide Varint.Encode, Varint.Take, Setup.Accepts, Read;
    var m := Message(0x2f00, payload);
    var s := ControlFrames.Encode(m).value + tail;
    FrameRoundTrip(m, tail);
    assert [] + s == s;
    FrameType(m, tail);
  }

  lemma FrameType(m: Message, tail: bytes)
    requires |m.payload| <= MAX_PAYLOAD
    ensures var t := Varint.Take(ControlFrames.Encode(m).value + tail); t.Done? && t.value == m.kind
  {
    hide Varint.Encode, Varint.Take;
    var rest := [|m.payload| / 256, |m.payload| % 256] + m.payload;
    Associative(Varint.Encode(m.kind), rest, tail);
    Varint.TakeEncoded(m.kind, rest + tail);
  }

  /** A bidirectional stream is a request: its first message goes on with what follows it. */
  lemma RequestVerdict(m: Message, tail: bytes, fin: bool)
    requires |m.payload| <= MAX_PAYLOAD
    ensures ControlFrames.Encode(m).Some?
    ensures Gate.Step(Gate.Gate(Gate.Classify, []), false, ControlFrames.Encode(m).value + tail, fin) ==
            (Gate.Gate(Gate.Finished, []), Gate.PeerRequest(m, tail, fin))
  {
    hide Varint.Encode, Read;
    var s := ControlFrames.Encode(m).value + tail;
    FrameRoundTrip(m, tail);
    assert [] + s == s;
  }

  /** Until the gate can tell, it waits; a stream that ends before that is a violation. */
  lemma UndecidedStream(held: bytes, received: bytes, unidirectional: bool, fin: bool)
    requires if unidirectional then Varint.Take(held + received).More? else Read(held + received).More?
    ensures Gate.Step(Gate.Gate(Gate.Classify, held), unidirectional, received, fin) ==
            (Gate.Gate(Gate.Classify, held + received), if fin then Gate.Violation else Gate.Nothing)
  {
  }

  // ----- requests at a publisher -----

  /**
   * The first message of a request: SUBSCRIBE is taken up, the other requests of the protocol change
   * nothing, and anything else closes the session.
   */
  lemma FirstMessages(st: P.State, m: Message, sendOk: bool)
    requires st.ready
    ensures var c := PS.First(st, m, sendOk);
            && (m.kind == 0x03 ==> c.st == P.Step(st, PS.SubscribeEvent(m, sendOk)))
            && (m.kind in {0x1d, 0x06, 0x0d, 0x16, 0x50, 0x51} ==> c == PS.Over(st))
            && (m.kind !in {0x03, 0x1d, 0x06, 0x0d, 0x16, 0x50, 0x51} ==> c == PS.Over(P.Shutdown(st)))
  {
    hide P.Shutdown, PS.SubscribeEvent;
  }

  /** On the stream of a subscription only REQUEST_UPDATE makes sense, and the stream must not end inside a message. */
  lemma LaterMessages(st: P.State, id: u64, m: Message, held: bytes, sendOk: bool)
    ensures m.kind != 0x02 || CM.Decode(m).None? ==>
              PS.Handle(PS.Serving(st, id), m, sendOk) == PS.Serving(P.Shutdown(st), id)
    ensures PS.End(PS.Serving(st, id), held) == PS.Serving(if held == [] then st else P.Shutdown(st), id)
    ensures PS.End(PS.AtGate(st), held) == PS.Over(P.Shutdown(st))
  {
    hide P.Shutdown, CM.Decode;
  }

  // ----- responses at a subscriber -----

  /** What a decoded message is for the subscriber; it does not send the other two kinds. */
  function Heard(c: CM.Control, tag: nat, s: SS.Script): S.Message {
    match c
    case SubscribeOk(alias, _, _) => S.SubscribeOk(alias, s.calls, s.order, s.reactions)
    case RequestError(_, _, _) => S.RequestError(tag, s.calls)
    case RequestOk(_, properties) => S.RequestOk(tag, |properties| > 0, s.calls)
    case PublishDone(_, _, _) => S.PublishDone(s.calls)
    case _ => S.Unknown(s.calls)
  }

  /** What a message is for the subscriber, by its type and whether it can be decoded. */
  lemma ResponsesByType(m: Message, tag: nat, s: SS.Script)
    ensures var r := SS.MessageOf(m, tag, s);
            && (m.kind in {0x04, 0x05, 0x07, 0x0b} && CM.Decode(m).None? ==> r == S.Undecodable(s.calls))
            && (m.kind == 0x10 ==> r == S.GoAway(s.calls))
            && (m.kind !in {0x04, 0x05, 0x07, 0x0b, 0x10} ==> r == S.Unknown(s.calls))
            && (m.kind in {0x04, 0x05, 0x07, 0x0b} && CM.Decode(m).Some? ==> r == Heard(CM.Decode(m).value, tag, s))
  {
    hide CM.TakeSubscribeOk, CM.TakeRequestError, CM.TakeRequestOk, CM.TakePublishDone;
    DecodedKinds(m);
  }

  lemma DecodedKinds(m: Message)
    ensures var c := CM.Decode(m); c.Some? ==> CM.KindOf(c.value) == m.kind
  {
    hide Varint.Take, CM.Parameters.Take;
  }
}

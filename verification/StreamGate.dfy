/**
 * The gate in front of every peer stream: it holds the first bytes until they say what the stream
 * is for, and hands them on. The receiver behind the gate behaves as if the gate were not there.
 */
module StreamGate {
  import opened Basics
  import opened SubgroupWire
  import opened ControlFrames
  import opened ControlLoops
  import Reception
  import Setup
  import Varint

  const SETUP_STREAM: u64 := 0x2f00
  const FETCH_STREAM: u64 := 0x05
  const PADDING_STREAM: u64 := 0x132b3e28

  datatype Mode = Classify | Finished | Padding

  datatype Gate = Gate(mode: Mode, held: bytes)

  /** What the gate asks of the session. */
  datatype Action =
    | Nothing
    | Violation
    | DataStream(kind: u64, prefix: bytes, fin: bool)
    | PeerSetup
    | PeerRequest(first: Message, leftover: bytes, fin: bool)

  predicate AllZero(s: bytes) {
    forall i :: 0 <= i < |s| ==> s[i] == 0
  }

  /** on_receive, with the received buffers already joined. */
  function Step(g: Gate, unidirectional: bool, received: bytes, fin: bool): (Gate, Action) {
    match g.mode
    case Finished => (g, Nothing)
    case Padding => (g, if AllZero(received) then Nothing else Violation)
    case Classify =>
      var s := g.held + received;
      if unidirectional then StepData(s, fin) else StepMessage(s, false, fin)
  }

  /** A unidirectional stream begins with its type. */
  function StepData(s: bytes, fin: bool): (Gate, Action) {
    match Varint.Take(s)
    case Done(kind, rest) =>
      if kind == PADDING_STREAM then
        if AllZero(rest) then (Gate(Padding, []), Nothing) else (Gate(Padding, s), Violation)
      else if kind == SETUP_STREAM then StepMessage(s, true, fin)
      else if kind == FETCH_STREAM || IsSubgroupType(kind) then (Gate(Finished, []), DataStream(kind, s, fin))
      else (Gate(Finished, s), Violation)
    case _ => (Gate(Classify, s), if fin then Violation else Nothing)
  }

  /** A request stream, and the one that carries SETUP, begins with a message. */
  function StepMessage(s: bytes, setup: bool, fin: bool): (Gate, Action) {
    match Read(s)
    case Done(message, rest) =>
      if !setup then (Gate(Finished, []), PeerRequest(message, rest, fin))
      else if Setup.Accepts(message.payload, 0) then (Gate(Finished, []), PeerSetup)
      else (Gate(Finished, s), Violation)
    case _ => (Gate(Classify, s), if fin then Violation else Nothing)
  }

  /** The gate as the source has it. */
  class PeerStreamGate {
    const unidirectional: bool
    var mode: Mode
    var held: bytes

    ghost function State(): Gate
      reads this
    {
      Gate(mode, held)
    }

    constructor (unidirectional: bool)
      ensures State() == Gate(Classify, []) && this.unidirectional == unidirectional
    {
      this.unidirectional := unidirectional;
      mode := Classify;
      held := [];
    }

    method OnReceive(chunks: seq<bytes>, fin: bool) returns (action: Action)
      modifies this
      ensures (State(), action) == Step(old(State()), unidirectional, Concat(chunks), fin)
    {
      hide Read, Setup.Accepts, Varint.Take;
      if mode.Finished? {
        return Nothing;
      }
      if mode.Padding? {
        var zero := AllChunksZero(chunks);
        return if zero then Nothing else Violation;
      }
      held := Append(held, chunks);
      if unidirectional {
        var kind := Varint.Take(held);
        if !kind.Done? {
          return if fin then Violation else Nothing;
        }
        if kind.value == PADDING_STREAM {
          mode := Padding;
          if !AllZero(kind.rest) {
            return Violation;
          }
          held := [];
          return Nothing;
        }
        if kind.value != SETUP_STREAM {
          mode := Finished;
          if kind.value == FETCH_STREAM || IsSubgroupType(kind.value) {
            action := DataStream(kind.value, held, fin);
            held := [];
            return;
          }
          return Violation;
        }
      }
      var frame := Read(held);
      if !frame.Done? {
        return if fin then Violation else Nothing;
      }
      mode := Finished;
      if unidirectional {
        var accepted := Setup.Decode(frame.value.payload);
        if !accepted {
          return Violation;
        }
        held := [];
        return PeerSetup;
      }
      held := [];
      action := PeerRequest(frame.value, frame.rest, fin);
    }
  }

  /** The chunks of a padding stream are looked at one by one. */
  method AllChunksZero(chunks: seq<bytes>) returns (zero: bool)
    ensures zero == AllZero(Concat(chunks))
  {
    var index := 0;
    while index < |chunks|
      invariant 0 <= index <= |chunks|
      invariant AllZero(Concat(chunks[..index]))
    {
      assert chunks[..index + 1] == chunks[..index] + [chunks[index]];
      ConcatSplit(chunks[..index], [chunks[index]]);
      assert Concat([chunks[index]]) == chunks[index];
      ZeroJoins(Concat(chunks[..index]), chunks[index]);
      if !AllZero(chunks[index]) {
        assert chunks == chunks[..index + 1] + chunks[index + 1..];
        ConcatSplit(chunks[..index + 1], chunks[index + 1..]);
        ZeroJoins(Concat(chunks[..index + 1]), Concat(chunks[index + 1..]));
        return false;
      }
      index := index + 1;
    }
    assert chunks[..|chunks|] == chunks;
    zero := true;
  }

  lemma ZeroJoins(a: bytes, b: bytes)
    ensures AllZero(a + b) <==> AllZero(a) && AllZero(b)
  {
    if AllZero(a + b) {
      assert forall i :: 0 <= i < |a| ==> a[i] == (a + b)[i];
      assert forall i :: 0 <= i < |b| ==> b[i] == (a + b)[|a| + i];
    }
  }

  /**
   * A unidirectional stream at the subscriber: at the gate, at a receiver, or with no further use
   * (rejected, or a fetch stream). Other uses of the gate do not lead to a receiver.
   */
  datatype Peer = AtGate(held: bytes) | AtReceiver(rx: Reception.Receiver) | Rejected

  datatype Seen = Seen(peer: Peer, calls: seq<Reception.Call>)

  /** The stream carries objects, or nothing is known of it yet, or its type is unknown. */
  predicate ForObjects(s: bytes) {
    match Varint.Take(s)
    case Done(kind, _) => kind != PADDING_STREAM && kind != SETUP_STREAM && kind != FETCH_STREAM
    case _ => true
  }

  /** An event on the stream: the gate decides first; start_subgroup_stream parses the prefix it held. */
  function PeerReceive(p: Peer, env: Reception.Env, a: Reception.Arrival): Seen {
    match p
    case Rejected => Seen(p, [])
    case AtReceiver(rx) =>
      var o := Reception.Receive(rx, env, a.received, a.fin);
      Seen(AtReceiver(o.rx), o.calls)
    case AtGate(held) => Passed(Step(Gate(Classify, held), true, a.received, a.fin), env)
  }

  /** What becomes of the stream after the gate's verdict. */
  function Passed(s: (Gate, Action), env: Reception.Env): Seen {
    match s.1
    case DataStream(kind, prefix, fin) =>
      if kind == FETCH_STREAM then Seen(Rejected, [Reception.Abort]) else
      var o := Reception.Receive(Reception.Opening(prefix), env, [], fin);
      Seen(AtReceiver(o.rx), o.calls)
    case Violation => Seen(if s.0.mode.Classify? then AtGate(s.0.held) else Rejected, [Reception.Fail])
    case _ => Seen(if s.0.mode.Classify? then AtGate(s.0.held) else Rejected, [])
  }

  function PeerReceiveAll(p: Peer, env: Reception.Env, arrivals: seq<Reception.Arrival>): Seen
    decreases |arrivals|
  {
    if arrivals == [] then Seen(p, []) else
    var s := PeerReceive(p, env, arrivals[0]);
    var rest := PeerReceiveAll(s.peer, env, arrivals[1..]);
    Seen(rest.peer, s.calls + rest.calls)
  }

  /** The events that announce the end of the stream. */
  function Ends(arrivals: seq<Reception.Arrival>): nat {
    if arrivals == [] then 0 else (if arrivals[0].fin then 1 else 0) + Ends(arrivals[1..])
  }

  function Failures(n: nat): seq<Reception.Call> {
    if n == 0 then [] else [Reception.Fail] + Failures(n - 1)
  }

  function PeerOf(rx: Reception.Receiver, kind: u64): Peer {
    if IsSubgroupType(kind) then AtReceiver(rx) else Rejected
  }

  lemma {:induction false} BehindTheGate(rx: Reception.Receiver, env: Reception.Env, arrivals: seq<Reception.Arrival>)
    ensures var o := Reception.ReceiveAll(rx, env, arrivals);
            PeerReceiveAll(AtReceiver(rx), env, arrivals) == Seen(AtReceiver(o.rx), o.calls)
    decreases |arrivals|
  {
    hide Reception.Receive, Step;
    if arrivals != [] {
      BehindTheGate(Reception.Receive(rx, env, arrivals[0].received, arrivals[0].fin).rx, env, arrivals[1..]);
    }
  }

  lemma {:induction false} NothingAfterRejection(env: Reception.Env, arrivals: seq<Reception.Arrival>)
    ensures PeerReceiveAll(Rejected, env, arrivals) == Seen(Rejected, [])
    decreases |arrivals|
  {
    if arrivals != [] {
      NothingAfterRejection(env, arrivals[1..]);
    }
  }

  /** Without a type the gate only holds the bytes and reports each announced end. */
  lemma {:induction false} HeldAtTheGate(held: bytes, env: Reception.Env, arrivals: seq<Reception.Arrival>)
    requires !Varint.Take(held + Reception.AllBytes(arrivals)).Done?
    ensures PeerReceiveAll(AtGate(held), env, arrivals) ==
            Seen(AtGate(held + Reception.AllBytes(arrivals)), Failures(Ends(arrivals)))
    decreases |arrivals|
  {
    hide Varint.Take, Read;
    if arrivals == [] {
      assert held + [] == held;
    } else {
      var s, rest := held + arrivals[0].received, Reception.AllBytes(arrivals[1..]);
      Associative(held, arrivals[0].received, rest);
      if Varint.Take(s).Done? {
        Varint.TakeStable(s, rest);
      }
      HeldAtTheGate(s, env, arrivals[1..]);
      var first := PeerReceive(AtGate(held), env, arrivals[0]);
      assert first == Seen(AtGate(s), if arrivals[0].fin then [Reception.Fail] else []);
      assert [] + Failures(Ends(arrivals[1..])) == Failures(Ends(arrivals[1..]));
    }
  }

  /** A receiver that is given its bytes behind the gate is one that has had them from the start. */
  lemma HandedOver(env: Reception.Env, s: bytes, kind: u64, rest: bytes, fin: bool)
    requires Varint.Take(s) == Done(kind, rest) && ForObjects(s)
    ensures var o := Reception.Receive(Reception.Opening([]), env, s, fin);
            Passed(StepData(s, fin), env) == Seen(PeerOf(o.rx, kind), o.calls)
    ensures !IsSubgroupType(kind) ==>
              Reception.Receive(Reception.Opening([]), env, s, fin) ==
                  Reception.Outcome(Reception.Closed, [Reception.Fail])
  {
    hide Varint.Take, Read, Reception.Drain, IsSubgroupType;
    assert [] + s == s && s + [] == s;
    if !IsSubgroupType(kind) {
      assert ParseHeader(s) == Bad;
    }
  }

  lemma {:induction false} KnownAtTheGate(held: bytes, env: Reception.Env, arrivals: seq<Reception.Arrival>,
                                          kind: u64, rest: bytes)
    requires !Varint.Take(held).Done? && Reception.WellFormed(arrivals)
    requires Varint.Take(held + Reception.AllBytes(arrivals)) == Done(kind, rest)
    requires ForObjects(held + Reception.AllBytes(arrivals))
    ensures var s := held + Reception.AllBytes(arrivals);
            var o := Reception.Receive(Reception.Opening([]), env, s, Reception.AnyFin(arrivals));
            PeerReceiveAll(AtGate(held), env, arrivals) == Seen(PeerOf(o.rx, kind), o.calls)
    decreases |arrivals|
  {
    hide Varint.Take, Reception.Receive, Reception.ReceiveAll, StepData, Passed, IsSubgroupType;
    assert held + [] == held;
    if arrivals != [] {
      var a, later := arrivals[0], arrivals[1..];
      var s, more := held + a.received, Reception.AllBytes(later);
      Associative(held, a.received, more);
      assert s + [] == s;
      if Varint.Take(s).Done? {
        TypeKnown(s, a.fin, env, later, kind, rest);
      } else {
        StillUnknown(held, a, env);
        KnownAtTheGate(s, env, later, kind, rest);
        var tail := PeerReceiveAll(AtGate(s), env, later);
        assert [] + tail.calls == tail.calls;
      }
    }
  }

  lemma StillUnknown(held: bytes, a: Reception.Arrival, env: Reception.Env)
    requires !Varint.Take(held + a.received).Done? && !a.fin
    ensures PeerReceive(AtGate(held), env, a) == Seen(AtGate(held + a.received), [])
  {
    hide Varint.Take, Read;
  }

  /** The event that completes the type, and everything after it. */
  lemma TypeKnown(s: bytes, fin: bool, env: Reception.Env, later: seq<Reception.Arrival>, kind: u64, rest: bytes)
    requires Varint.Take(s).Done? && Varint.Take(s + Reception.AllBytes(later)) == Done(kind, rest)
    requires ForObjects(s + Reception.AllBytes(later)) && Reception.WellFormed(later)
    requires fin ==> Reception.AllBytes(later) == []
    ensures var first := Passed(StepData(s, fin), env);
            var tail := PeerReceiveAll(first.peer, env, later);
            var o := Reception.Receive(Reception.Opening([]), env, s + Reception.AllBytes(later), fin
                || Reception.AnyFin(later));
            Seen(tail.peer, first.calls + tail.calls) == Seen(PeerOf(o.rx, kind), o.calls)
  {
    hide Varint.Take, Reception.Receive, Reception.ReceiveAll, StepData, Passed, PeerReceiveAll, IsSubgroupType;
    var more := Reception.AllBytes(later);
    Varint.TakeStable(s, more);
    HandedOver(env, s, kind, Varint.Take(s).rest, fin);
    var o := Reception.Receive(Reception.Opening([]), env, s, fin);
    if IsSubgroupType(kind) {
      BehindTheGate(o.rx, env, later);
      WholeStream(env, s, fin, later);
    } else {
      NothingAfterRejection(env, later);
      HandedOver(env, s + more, kind, rest, fin || Reception.AnyFin(later));
      assert [Reception.Fail] + [] == [Reception.Fail];
    }
  }

  lemma WholeStream(env: Reception.Env, s: bytes, fin: bool, later: seq<Reception.Arrival>)
    requires Reception.WellFormed(later) && (fin ==> Reception.AllBytes(later) == [])
    ensures var o := Reception.Receive(Reception.Opening([]), env, s, fin);
            Reception.Then(o, Reception.ReceiveAll(o.rx, env, later)) ==
            Reception.Receive(Reception.Opening([]), env, s + Reception.AllBytes(later), fin || Reception.AnyFin(later))
  {
    hide Reception.Receive;
    var all := [Reception.Arrival(s, fin)] + later;
    assert all[1..] == later;
    Reception.AnyCut(Reception.Opening([]), env, all);
  }

  /**
   * The gate is transparent. Once the type of a stream is known, everything that is called for the
   * stream, the first error included, and the state it is left in are those of a receiver that was
   * given all its bytes at once; until then the bytes are held and each announced end is an error,
   * as the first of them is for that receiver.
   */
  lemma GateTransparent(env: Reception.Env, arrivals: seq<Reception.Arrival>)
    requires Reception.WellFormed(arrivals) && ForObjects(Reception.AllBytes(arrivals))
    ensures var s := Reception.AllBytes(arrivals);
            var seen := PeerReceiveAll(AtGate([]), env, arrivals);
            var o := Reception.Receive(Reception.Opening([]), env, s, Reception.AnyFin(arrivals));
            match Varint.Take(s)
            case Done(kind, _) => seen == Seen(PeerOf(o.rx, kind), o.calls)
            case _ =>
              && seen == Seen(AtGate(s), Failures(Ends(arrivals)))
              && o.calls == (if Ends(arrivals) > 0 then [Reception.Fail] else [])
              && (Ends(arrivals) == 0 ==> o.rx == Reception.Opening(s))
  {
    hide Varint.Take, Reception.Drain, PeerReceiveAll;
    var s := Reception.AllBytes(arrivals);
    assert [] + s == s;
    var t := Varint.Take(s);
    if t.Done? {
      assert !Varint.Take([]).Done? by { NoType(); }
      KnownAtTheGate([], env, arrivals, t.value, t.rest);
    } else {
      HeldAtTheGate([], env, arrivals);
      EndsIffFin(arrivals);
      assert ParseHeader(s) == More;
    }
  }

  lemma NoType()
    ensures !Varint.Take([]).Done?
  {
  }

  lemma {:induction false} EndsIffFin(arrivals: seq<Reception.Arrival>)
    ensures Ends(arrivals) > 0 <==> Reception.AnyFin(arrivals)
  {
    if arrivals != [] {
      EndsIffFin(arrivals[1..]);
    }
  }
}

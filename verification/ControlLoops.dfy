/**
 * The loops that handle the control messages of a request stream. They are modelled over any
 * handler, and do the same to it however the stream is cut into events.
 */
module ControlLoops {
  import opened Basics
  import opened ControlFrames
  import opened Reception

  /**
   * What is done with a message, when nothing more is done, and what the end of the stream does, given the
   * bytes held.
   */
  datatype Machine<!H> = Machine(handle: (H, Message) -> H, finished: H -> bool, end: (H, bytes) -> H)

  /** The end of the stream finishes the handler, or between two messages it may leave it alone. */
  ghost predicate Final<H(!new)>(m: Machine<H>) {
    forall h: H, held: bytes :: m.finished(m.end(h, held)) || (held == [] && m.end(h, held) == h)
  }

  /** What the handler has made of the messages so far, and the bytes held for the next. */
  datatype Loop<H> = Loop(handler: H, held: bytes)

  /** Messages are handled until the bytes run out or the handler is finished. */
  function Drain<H>(m: Machine<H>, h: H, s: bytes): (r: Loop<H>)
    decreases |s|
  {
    if m.finished(h) then Loop(h, s)
    else match Read(s)
      case Done(message, rest) => Drain(m, m.handle(h, message), rest)
      case _ => Loop(h, s)
  }

  /** on_receive of a request: a finished one does nothing. */
  function OnReceive<H>(m: Machine<H>, l: Loop<H>, received: bytes, fin: bool): Loop<H> {
    if m.finished(l.handler) then l else
    Ended(m, Drain(m, l.handler, l.held + received), fin)
  }

  function Ended<H>(m: Machine<H>, l: Loop<H>, fin: bool): Loop<H> {
    if fin && !m.finished(l.handler) then Loop(m.end(l.handler, l.held), l.held) else l
  }

  function ReceiveArrivals<H>(m: Machine<H>, l: Loop<H>, arrivals: seq<Arrival>): Loop<H>
    decreases |arrivals|
  {
    if arrivals == [] then l
    else ReceiveArrivals(m, OnReceive(m, l, arrivals[0].received, arrivals[0].fin), arrivals[1..])
  }

  /** Nothing in the held bytes can be handled yet. */
  predicate Idle<H(==)>(m: Machine<H>, l: Loop<H>) {
    m.finished(l.handler) || !Read(l.held).Done?
  }

  /** The same as far as the program goes: the bytes behind a finished handler are never looked at. */
  predicate Same<H(==)>(m: Machine<H>, a: Loop<H>, b: Loop<H>) {
    a.handler == b.handler && (m.finished(a.handler) || a.held == b.held)
  }

  lemma {:induction false} DrainSplit<H>(m: Machine<H>, h: H, s: bytes, t: bytes)
    ensures var l := Drain(m, h, s);
            Drain(m, h, s + t) == Drain(m, l.handler, l.held + t)
    decreases |s|
  {
    hide Read;
    if !m.finished(h) && Read(s).Done? {
      ReadStable(s, t);
      DrainSplit(m, m.handle(h, Read(s).value), Read(s).rest, t);
    }
  }

  lemma {:induction false} DrainIsIdle<H>(m: Machine<H>, h: H, s: bytes)
    ensures Idle(m, Drain(m, h, s))
    decreases |s|
  {
    hide Read;
    if !m.finished(h) && Read(s).Done? {
      DrainIsIdle(m, m.handle(h, Read(s).value), Read(s).rest);
    }
  }

  lemma OnReceiveSplit<H>(m: Machine<H>, l: Loop<H>, s: bytes, t: bytes, fin: bool)
    requires !m.finished(l.handler)
    ensures Same(m, OnReceive(m, OnReceive(m, l, s, false), t, fin), OnReceive(m, l, s + t, fin))
  {
    hide Read;
    Associative(l.held, s, t);
    DrainSplit(m, l.handler, l.held + s, t);
  }

  lemma {:induction false} NothingMore<H>(m: Machine<H>, l: Loop<H>, arrivals: seq<Arrival>)
    requires m.finished(l.handler) ||
             (!Read(l.held).Done? && l.held == [] && m.end(l.handler, []) == l.handler && AllBytes(arrivals) == [])
    ensures ReceiveArrivals(m, l, arrivals) == l
    decreases |arrivals|
  {
    hide Read;
    if arrivals != [] && !m.finished(l.handler) {
      assert arrivals[0].received == [] && l.held + [] == l.held;
      NothingMore(m, l, arrivals[1..]);
    } else if arrivals != [] {
      NothingMore(m, l, arrivals[1..]);
    }
  }

  /**
   * However a request stream and its end are cut into events, its handler is left as it would be
   * had all come at once, and so are the bytes held for its next message.
   */
  lemma {:induction false} ControlFragmentation<H(!new)>(m: Machine<H>, l: Loop<H>, arrivals: seq<Arrival>)
    requires Final(m) && Idle(m, l) && WellFormed(arrivals)
    ensures Same(m, ReceiveArrivals(m, l, arrivals), OnReceive(m, l, AllBytes(arrivals), AnyFin(arrivals)))
    decreases |arrivals|
  {
    hide Read, Drain;
    if m.finished(l.handler) {
      NothingMore(m, l, arrivals);
    } else if arrivals == [] {
      assert l.held + [] == l.held && Drain(m, l.handler, l.held) == l by { IdleDrain(m, l); }
    } else {
      var a, rest := arrivals[0], arrivals[1..];
      var l1 := OnReceive(m, l, a.received, a.fin);
      OnReceiveIdle(m, l, a.received, a.fin);
      if a.fin {
        NothingMore(m, l1, rest);
        assert a.received + [] == a.received;
      } else {
        ControlFragmentation(m, l1, rest);
        OnReceiveSplit(m, l, a.received, AllBytes(rest), AnyFin(rest));
      }
    }
  }

  lemma IdleDrain<H>(m: Machine<H>, l: Loop<H>)
    requires Idle(m, l)
    ensures Drain(m, l.handler, l.held) == l
  {
  }

  lemma OnReceiveIdle<H(!new)>(m: Machine<H>, l: Loop<H>, received: bytes, fin: bool)
    requires Final(m) && !m.finished(l.handler)
    ensures var l1 := OnReceive(m, l, received, fin);
            Idle(m, l1) && (fin && !m.finished(l1.handler) ==> l1.held == [] && m.end(l1.handler, []) == l1.handler)
  {
    hide Read;
    DrainIsIdle(m, l.handler, l.held + received);
  }

  /** The frames of a list of messages. */
  function EncodeAll(ms: seq<Message>): bytes
    requires forall i :: 0 <= i < |ms| ==> |ms[i].payload| <= MAX_PAYLOAD
  {
    if ms == [] then [] else Encode(ms[0]).value + EncodeAll(ms[1..])
  }

  /** Handling the messages one by one, as far as the handler goes. */
  function HandleAll<H>(m: Machine<H>, h: H, ms: seq<Message>): H
    decreases |ms|
  {
    if ms == [] || m.finished(h) then h else HandleAll(m, m.handle(h, ms[0]), ms[1..])
  }

  /** What one side writes message by message, the other side handles message by message. */
  lemma {:induction false} MessagesArrive<H>(m: Machine<H>, h: H, ms: seq<Message>)
    requires forall i :: 0 <= i < |ms| ==> |ms[i].payload| <= MAX_PAYLOAD
    ensures Same(m, Drain(m, h, EncodeAll(ms)), Loop(HandleAll(m, h, ms), []))
    decreases |ms|
  {
    hide Read, Encode;
    if ms == [] {
      assert Read([]).More? by { NothingToRead(); }
    } else {
      FrameRoundTrip(ms[0], EncodeAll(ms[1..]));
      MessagesArrive(m, m.handle(h, ms[0]), ms[1..]);
    }
  }

  lemma NothingToRead()
    ensures Read([]).More?
  {
  }

  /** on_receive in the form of the source: the chunks are appended, then the messages are taken off the front. */
  method Receive<H(==)>(m: Machine<H>, l: Loop<H>, chunks: seq<bytes>, fin: bool) returns (r: Loop<H>)
    ensures r == OnReceive(m, l, Concat(chunks), fin)
  {
    if m.finished(l.handler) {
      return l;
    }
    var held := Append(l.held, chunks);
    var h := l.handler;
    while !m.finished(h)
      invariant Drain(m, h, held) == Drain(m, l.handler, l.held + Concat(chunks))
      decreases |held|
    {
      var parsed := Read(held);
      if !parsed.Done? {
        return Loop(if fin then m.end(h, held) else h, held);
      }
      held := parsed.rest;
      h := m.handle(h, parsed.value);
    }
    r := Loop(h, held);
  }

  method Append(out: bytes, chunks: seq<bytes>) returns (r: bytes)
    ensures r == out + Concat(chunks)
  {
    r := out;
    var index := 0;
    while index < |chunks|
      invariant 0 <= index <= |chunks|
      invariant r == out + Concat(chunks[..index])
    {
      assert chunks[..index + 1] == chunks[..index] + [chunks[index]];
      ConcatSplit(chunks[..index], [chunks[index]]);
      assert Concat([chunks[index]]) == chunks[index];
      r := r + chunks[index];
      index := index + 1;
    }
    assert chunks[..|chunks|] == chunks;
  }
}

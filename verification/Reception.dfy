/**
 * What the receiver of one subgroup stream does, as a function of what it has been given: its
 * state, the calls it makes on the data plane and on the stream, and the theorems that neither the
 * way the bytes are cut nor the time at which the route is installed changes those calls.
 */
module Reception {
  import opened Basics
  import opened SubgroupWire

  datatype AliasPolicy = Drop | Buffer | Error

  /** What the receiver asks of its surroundings: the route table, the policy, room to park, limits. */
  datatype Env = Env(policy: AliasPolicy, routes: map<u64, u64>, room: bool, limit: nat, stream: u64)

  /** A call that leaves the receiver. */
  datatype Call =
    | Deliver(obj: Object)
    | Fail
    | GroupFinal(request: u64, group: u64, id: u64)
    | Park(alias: u64)
    | Unpark(alias: u64)
    | Abort

  /** What is frozen once the header has met a route. */
  datatype Binding = Binding(header: Header, request: u64, stream: u64)

  /** What each object changes: the subgroup, which the first object may name, and the last ID. */
  datatype Position = Position(subgroup: Option<u64>, last: Option<u64>)

  datatype Receiver =
    | Opening(stash: bytes)
    | Waiting(header: Header, stash: bytes, finPending: bool)
    | Bound(binding: Binding, pos: Position, stash: bytes)
    | Closed

  datatype Outcome = Outcome(rx: Receiver, calls: seq<Call>)

  function Then(first: Outcome, second: Outcome): Outcome {
    Outcome(second.rx, first.calls + second.calls)
  }

  lemma ThenAssociative(a: Outcome, b: Outcome, c: Outcome)
    ensures Then(Then(a, b), c) == Then(a, Then(b, c))
  {
    assert a.calls + b.calls + c.calls == a.calls + (b.calls + c.calls);
  }

  datatype Drained = Drained(pos: Position, calls: seq<Call>, rest: bytes, bad: bool)

  /** The Object ID behind `last` with the given delta, unless it leaves 64 bits. */
  function NextId(last: Option<u64>, delta: u64): (r: Option<u64>)
    ensures r.Some? && last.Some? ==> last.value < r.value
  {
    match last
    case None => Some(delta)
    case Some(l) => if l == MAX64 || delta > MAX64 - (l + 1) then None else Some(l + delta + 1)
  }

  /** In mode 1 the first Object ID names the subgroup. */
  function Advance(h: Header, pos: Position, id: u64): Position {
    Position(if h.mode == 1 && pos.subgroup.None? then Some(id) else pos.subgroup, Some(id))
  }

  function MakeObject(b: Binding, pos: Position, id: u64, raw: RawObject): Object {
    Object(b.request, b.header.alias, b.header.group, Some(if pos.subgroup.Some? then pos.subgroup.value else 0),
           id, b.header.priority, raw.status, raw.properties, raw.payload, SubgroupStream, b.stream)
  }

  /** The object loop of run: parses and delivers until the bytes run out or an object is malformed. */
  function Drain(b: Binding, pos: Position, s: bytes): (d: Drained)
    decreases |s|
  {
    match ParseObject(b.header.properties, s)
    case More => Drained(pos, [], s, false)
    case Bad => Drained(pos, [], s, true)
    case Done(raw, rest) =>
      match NextId(pos.last, raw.delta)
      case None => Drained(pos, [], s, true)
      case Some(id) =>
        var pos' := Advance(b.header, pos, id);
        Prepend(Deliver(MakeObject(b, pos', id, raw)), Drain(b, pos', rest))
  }

  function Prepend(call: Call, d: Drained): Drained {
    d.(calls := [call] + d.calls)
  }

  /** What draining `t` as well makes of a finished drain. */
  function Continue(b: Binding, d: Drained, t: bytes): Drained {
    if d.bad then d.(rest := d.rest + t) else Join(d, Drain(b, d.pos, d.rest + t))
  }

  function Join(d: Drained, e: Drained): Drained {
    e.(calls := d.calls + e.calls)
  }

  /** Draining in two portions is draining the whole. */
  lemma {:induction false} DrainSplit(b: Binding, pos: Position, s: bytes, t: bytes)
    ensures Drain(b, pos, s + t) == Continue(b, Drain(b, pos, s), t)
    decreases |s|
  {
    hide ParseObject;
    var p := ParseObject(b.header.properties, s);
    if p.More? {
      var e := Drain(b, pos, s + t);
      assert [] + e.calls == e.calls;
    } else {
      ParseObjectStable(b.header.properties, s, t);
      if p.Done? && NextId(pos.last, p.value.delta).Some? {
        var id := NextId(pos.last, p.value.delta).value;
        var pos' := Advance(b.header, pos, id);
        DrainSplit(b, pos', p.rest, t);
        var d := Drain(b, pos', p.rest);
        if !d.bad {
          PrependJoin(Deliver(MakeObject(b, pos', id, p.value)), d, Drain(b, d.pos, d.rest + t));
        }
      }
    }
  }

  lemma PrependJoin(call: Call, d: Drained, e: Drained)
    ensures Prepend(call, Join(d, e)) == Join(Prepend(call, d), e)
  {
    assert [call] + (d.calls + e.calls) == [call] + d.calls + e.calls;
  }

  /** The outcome of run behind a bound header, once its loop has stopped. */
  function Settle(b: Binding, d: Drained, fin: bool): Outcome {
    if d.bad || (fin && d.rest != []) then Outcome(Closed, d.calls + [Fail])
    else if !fin then Outcome(Bound(b, d.pos, d.rest), d.calls)
    else if b.header.endOfGroup && d.pos.last.Some? then
      Outcome(Closed, d.calls + [GroupFinal(b.request, b.header.group, d.pos.last.value)])
    else Outcome(Closed, d.calls)
  }

  function Feed(b: Binding, pos: Position, s: bytes, fin: bool): Outcome {
    Settle(b, Drain(b, pos, s), fin)
  }

  /** The end of parse_header: looks the alias up and binds, parks, drops or rejects the stream. */
  function Bind(env: Env, h: Header, s: bytes, fin: bool): Outcome {
    if h.alias in env.routes then
      Feed(Binding(h, env.routes[h.alias], env.stream), Position(h.subgroup, None), s, fin)
    else match env.policy
      case Error => Outcome(Closed, [Fail])
      case Drop => Outcome(Closed, [Abort])
      case Buffer => if env.room then Outcome(Waiting(h, s, fin), [Park(h.alias)]) else Outcome(Closed, [Abort])
  }

  function Open(env: Env, s: bytes, fin: bool): Outcome {
    Opened(env, ParseHeader(s), s, fin)
  }

  /** What a parse of the header makes of a stream that begins with `s`. */
  function Opened(env: Env, parsed: Parse<Header>, s: bytes, fin: bool): Outcome {
    match parsed
    case Bad => Outcome(Closed, [Fail])
    case More => if fin then Outcome(Closed, [Fail]) else Outcome(Opening(s), [])
    case Done(h, rest) => Bind(env, h, rest, fin)
  }

  /** run, over all the bytes that are not parsed yet. */
  function Run(rx: Receiver, env: Env, s: bytes, fin: bool): Outcome {
    match rx
    case Opening(_) => Open(env, s, fin)
    case Waiting(h, _, finPending) => Outcome(Waiting(h, s, finPending || fin), [])
    case Bound(b, pos, _) => Feed(b, pos, s, fin)
    case Closed => Outcome(Closed, [])
  }

  /** A parked stream is given up once it holds more than the limit. */
  function Enforce(o: Outcome, limit: nat): Outcome {
    if o.rx.Waiting? && |o.rx.stash| > limit then Outcome(Closed, o.calls + [Unpark(o.rx.header.alias), Abort]) else o
  }

  /** on_receive, with the received buffers already joined. */
  function Receive(rx: Receiver, env: Env, received: bytes, fin: bool): Outcome {
    if rx.Closed? then Outcome(Closed, []) else Enforce(Run(rx, env, rx.stash + received, fin), env.limit)
  }

  /** establish: the parked stream gets its route and the buffered bytes are parsed. */
  function Establish(rx: Receiver, stream: u64, request: u64): Outcome {
    match rx
    case Waiting(h, stash, finPending) =>
      Feed(Binding(h, request, stream), Position(h.subgroup, None), stash, finPending)
    case _ => Outcome(rx, [])
  }

  /** One transport event on the stream. */
  datatype Arrival = Arrival(received: bytes, fin: bool)

  function ReceiveAll(rx: Receiver, env: Env, arrivals: seq<Arrival>): Outcome
    decreases |arrivals|
  {
    if arrivals == [] then Outcome(rx, []) else
    var o := Receive(rx, env, arrivals[0].received, arrivals[0].fin);
    Then(o, ReceiveAll(o.rx, env, arrivals[1..]))
  }

  function AllBytes(arrivals: seq<Arrival>): bytes {
    if arrivals == [] then [] else arrivals[0].received + AllBytes(arrivals[1..])
  }

  predicate AnyFin(arrivals: seq<Arrival>) {
    arrivals != [] && (arrivals[0].fin || AnyFin(arrivals[1..]))
  }

  /** No bytes follow the end of the stream; the end itself may be announced more than once. */
  predicate WellFormed(arrivals: seq<Arrival>) {
    arrivals == [] || (WellFormed(arrivals[1..]) && (arrivals[0].fin ==> AllBytes(arrivals[1..]) == []))
  }

  lemma SettleSplit(b: Binding, d: Drained, t: bytes, fin: bool)
    ensures var first := Settle(b, d, false);
            Settle(b, Continue(b, d, t), fin) ==
            if d.bad then first else Then(first, Feed(b, d.pos, d.rest + t, fin))
  {
    hide Drain;
    if !d.bad {
      var e := Drain(b, d.pos, d.rest + t);
      assert forall tail :: d.calls + e.calls + tail == d.calls + (e.calls + tail);
    }
  }

  lemma FeedSplit(b: Binding, pos: Position, env: Env, s: bytes, t: bytes, fin: bool)
    ensures var first := Feed(b, pos, s, false);
            Feed(b, pos, s + t, fin) == Then(first, Receive(first.rx, env, t, fin))
  {
    hide Drain;
    var d := Drain(b, pos, s);
    DrainSplit(b, pos, s, t);
    SettleSplit(b, d, t, fin);
    if d.bad {
      var first := Settle(b, d, false);
      assert first.calls + [] == first.calls;
    }
  }

  lemma OpenSplit(env: Env, s: bytes, t: bytes, fin: bool)
    ensures var first := Enforce(Open(env, s, false), env.limit);
            Enforce(Open(env, s + t, fin), env.limit) == Then(first, Receive(first.rx, env, t, fin))
  {
    var p := ParseHeader(s);
    if p.More? {
      var o := Enforce(Open(env, s + t, fin), env.limit);
      assert [] + o.calls == o.calls;
    } else {
      ParseHeaderStable(s, t);
    }
    if p.Done? {
      BindSplit(env, p.value, p.rest, t, fin);
    }
  }

  lemma BindSplit(env: Env, h: Header, s: bytes, t: bytes, fin: bool)
    ensures var first := Enforce(Bind(env, h, s, false), env.limit);
            Enforce(Bind(env, h, s + t, fin), env.limit) == Then(first, Receive(first.rx, env, t, fin))
  {
    if h.alias in env.routes {
      FeedSplit(Binding(h, env.routes[h.alias], env.stream), Position(h.subgroup, None), env, s, t, fin);
    }
  }

  /** Receiving `s` and then `t` is receiving both at once, from any state. */
  lemma ReceiveSplit(rx: Receiver, env: Env, s: bytes, t: bytes, fin: bool)
    ensures var first := Receive(rx, env, s, false);
            Receive(rx, env, s + t, fin) == Then(first, Receive(first.rx, env, t, fin))
  {
    match rx
    case Opening(stash) =>
      assert stash + (s + t) == stash + s + t;
      OpenSplit(env, stash + s, t, fin);
    case Waiting(h, stash, finPending) =>
      assert stash + (s + t) == stash + s + t;
    case Bound(b, pos, stash) =>
      assert stash + (s + t) == stash + s + t;
      FeedSplit(b, pos, env, stash + s, t, fin);
    case Closed =>
  }

  /** After the end has been announced the receiver is closed, or parked and aware of it. */
  predicate Ended(rx: Receiver) {
    rx.Closed? || (rx.Waiting? && rx.finPending)
  }

  lemma FinEnds(rx: Receiver, env: Env, s: bytes)
    ensures Ended(Receive(rx, env, s, true).rx)
  {
  }

  lemma {:induction false} NothingAfterEnd(rx: Receiver, env: Env, arrivals: seq<Arrival>)
    requires Ended(rx) && AllBytes(arrivals) == []
    requires rx.Waiting? ==> |rx.stash| <= env.limit
    ensures ReceiveAll(rx, env, arrivals) == Outcome(rx, [])
  {
    if arrivals != [] {
      assert rx.Waiting? ==> rx.stash + [] == rx.stash;
      assert Receive(rx, env, arrivals[0].received, arrivals[0].fin) == Outcome(rx, []);
      NothingAfterEnd(rx, env, arrivals[1..]);
    }
  }

  /** A receiver that parks keeps its buffer within the limit. */
  predicate Within(rx: Receiver, limit: nat) {
    rx.Waiting? ==> |rx.stash| <= limit
  }

  lemma ReceiveWithin(rx: Receiver, env: Env, s: bytes, fin: bool)
    ensures Within(Receive(rx, env, s, fin).rx, env.limit)
  {
  }

  lemma {:induction false} AnyCut(rx: Receiver, env: Env, arrivals: seq<Arrival>)
    requires arrivals != [] && WellFormed(arrivals)
    ensures ReceiveAll(rx, env, arrivals) == Receive(rx, env, AllBytes(arrivals), AnyFin(arrivals))
    decreases |arrivals|
  {
    var a, rest := arrivals[0], arrivals[1..];
    var o := Receive(rx, env, a.received, a.fin);
    if a.fin {
      FinEnds(rx, env, a.received);
      ReceiveWithin(rx, env, a.received, a.fin);
      NothingAfterEnd(o.rx, env, rest);
      assert o.calls + [] == o.calls && a.received + [] == a.received;
    } else if rest == [] {
      assert o.calls + [] == o.calls && a.received + [] == a.received;
    } else {
      AnyCut(o.rx, env, rest);
      ReceiveSplit(rx, env, a.received, AllBytes(rest), AnyFin(rest));
    }
  }

  /**
   * Fragmentation independence: however a stream's bytes and its end are cut into events, the
   * receiver makes the same calls in the same order and ends in the same state as if everything
   * had come at once.
   */
  lemma FragmentationIndependence(env: Env, arrivals: seq<Arrival>)
    requires WellFormed(arrivals)
    ensures ReceiveAll(Opening([]), env, arrivals) == Receive(Opening([]), env, AllBytes(arrivals), AnyFin(arrivals))
  {
    if arrivals != [] {
      AnyCut(Opening([]), env, arrivals);
    }
  }

  lemma {:induction false} ReceiveAllAppend(rx: Receiver, env: Env, a: seq<Arrival>, b: seq<Arrival>)
    ensures var o := ReceiveAll(rx, env, a);
            ReceiveAll(rx, env, a + b) == Then(o, ReceiveAll(o.rx, env, b))
    decreases |a|
  {
    if a == [] {
      assert a + b == b;
      assert [] + ReceiveAll(rx, env, b).calls == ReceiveAll(rx, env, b).calls;
    } else {
      assert (a + b)[1..] == a[1..] + b;
      var o := Receive(rx, env, a[0].received, a[0].fin);
      ReceiveAllAppend(o.rx, env, a[1..], b);
      var p := ReceiveAll(o.rx, env, a[1..]);
      ThenAssociative(o, p, ReceiveAll(p.rx, env, b));
    }
  }

  /** Once a stream is bound, the route table no longer matters to it. */
  lemma {:induction false} BoundIgnoresTable(rx: Receiver, env: Env, other: Env, arrivals: seq<Arrival>)
    requires rx.Bound? || rx.Closed?
    ensures ReceiveAll(rx, env, arrivals) == ReceiveAll(rx, other, arrivals)
    decreases |arrivals|
  {
    if arrivals != [] {
      BoundIgnoresTable(Receive(rx, env, arrivals[0].received, arrivals[0].fin).rx, env, other, arrivals[1..]);
    }
  }

  lemma {:induction false} AllBytesAppend(a: seq<Arrival>, b: seq<Arrival>)
    ensures AllBytes(a + b) == AllBytes(a) + AllBytes(b)
  {
    if a == [] {
      assert a + b == b;
    } else {
      assert (a + b)[1..] == a[1..] + b;
      AllBytesAppend(a[1..], b);
    }
  }

  lemma {:induction false} WellFormedPrefix(a: seq<Arrival>, b: seq<Arrival>)
    requires WellFormed(a + b)
    ensures WellFormed(a)
  {
    if a != [] {
      assert (a + b)[1..] == a[1..] + b;
      WellFormedPrefix(a[1..], b);
      AllBytesAppend(a[1..], b);
    }
  }

  /**
   * Parking is transparent: a stream whose first events (some or all of its bytes, perhaps its end)
   * came before the route, and that was still parked when the route was installed, makes the same
   * calls and ends in the same state as if the route had been there from the start. The only trace
   * of the detour is the call that parked it.
   */
  lemma ParkingTransparent(env: Env, direct: Env, later: Env, request: u64, before: seq<Arrival>, after: seq<Arrival>)
    requires WellFormed(before + after)
    requires ReceiveAll(Opening([]), env, before).rx.Waiting?
    requires var alias := ReceiveAll(Opening([]), env, before).rx.header.alias;
             alias in direct.routes && direct.routes[alias] == request && direct.stream == env.stream
    ensures var parked := ReceiveAll(Opening([]), env, before);
            var resumed := Establish(parked.rx, env.stream, request);
            && parked.calls == [Park(parked.rx.header.alias)]
            && Then(resumed, ReceiveAll(resumed.rx, later, after)) == ReceiveAll(Opening([]), direct, before + after)
  {
    hide Receive, Drain;
    WellFormedPrefix(before, after);
    FragmentationIndependence(env, before);
    FragmentationIndependence(direct, before);
    var parked := ReceiveAll(Opening([]), env, before);
    ParkedThenBound(env, direct, request, AllBytes(before), AnyFin(before));
    ReceiveAllAppend(Opening([]), direct, before, after);
    BoundIgnoresTable(Establish(parked.rx, env.stream, request).rx, later, direct, after);
  }

  /** The same in one piece: parking and establishing is opening with the route in place. */
  lemma ParkedThenBound(env: Env, direct: Env, request: u64, s: bytes, fin: bool)
    requires Receive(Opening([]), env, s, fin).rx.Waiting?
    requires var alias := Receive(Opening([]), env, s, fin).rx.header.alias;
             alias in direct.routes && direct.routes[alias] == request && direct.stream == env.stream
    ensures var parked := Receive(Opening([]), env, s, fin);
            && parked.calls == [Park(parked.rx.header.alias)]
            && Establish(parked.rx, env.stream, request) == Receive(Opening([]), direct, s, fin)
  {
    assert [] + s == s;
    OpenedParked(env, direct, request, ParseHeader(s), s, fin);
  }

  lemma OpenedParked(env: Env, direct: Env, request: u64, p: Parse<Header>, s: bytes, fin: bool)
    requires var parked := Enforce(Opened(env, p, s, fin), env.limit).rx;
             parked.Waiting? && parked.header.alias in direct.routes && direct.routes[parked.header.alias] == request
    requires direct.stream == env.stream
    ensures var parked := Enforce(Opened(env, p, s, fin), env.limit);
            && parked.calls == [Park(parked.rx.header.alias)]
            && Establish(parked.rx, env.stream, request) == Enforce(Opened(direct, p, s, fin), direct.limit)
  {
  }
}

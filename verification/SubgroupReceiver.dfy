/**
 * The receiver of a subgroup stream with the fields the source updates in place, proved to compute
 * what module Reception specifies. A cursor over a buffer is the view of its unread bytes.
 */
module SubgroupReceivers {
  import opened Basics
  import opened SubgroupWire
  import opened Reception
  import Varint

  /** What parse_header leaves when the header is complete, before any object is read. */
  ghost function AfterHeader(env: Env, h: Header, rest: bytes): Outcome {
    if h.alias in env.routes then
      Outcome(Bound(Binding(h, env.routes[h.alias], env.stream), Position(h.subgroup, None), rest), [])
    else Bind(env, h, rest, false)
  }

  class SubgroupReceiver {
    const stream: u64
    var calls: seq<Call>
    var stash: bytes
    var route: Option<u64>
    var headerDone: bool
    var closed: bool
    var waiting: bool
    var finPending: bool
    var propertiesPerObject: bool
    var endOfGroupOnFin: bool
    var mode: nat
    var alias: u64
    var group: u64
    var subgroup: Option<u64>
    var priority: byte
    var last: Option<u64>

    /** The header as the fields hold it; in mode 1 the subgroup is not part of it. */
    function HeaderOf(): Header
      reads this
    {
      Header(alias, group, mode, if mode == 1 then None else subgroup, priority, propertiesPerObject, endOfGroupOnFin)
    }

    /** The abstract state, with `s` as the bytes that are not parsed yet. */
    ghost function With(s: bytes): Receiver
      reads this
    {
      if closed then Closed
      else if !headerDone then Opening(s)
      else if route.None? then Waiting(HeaderOf(), s, finPending)
      else Bound(Binding(HeaderOf(), route.value, stream), Position(subgroup, last), s)
    }

    ghost function View(s: bytes): Outcome
      reads this
    {
      Outcome(With(s), calls)
    }

    /**
     * The flags agree with each other. A header that was cut off has already set fields; whatever it
     * put into `subgroup` will be put there again when the bytes `s` are parsed afresh.
     */
    ghost predicate Consistent(s: bytes)
      reads this
    {
      && (closed ==> !waiting)
      && (!closed && headerDone ==> (waiting <==> route.None?) && (waiting ==> Unread()))
      && (!closed && !headerDone ==> !waiting && !finPending && last.None? && route.None? && CutHeader(s))
    }

    /** The stash is what it was, unless the stream is closed; an empty one never gets filled. */
    ghost predicate KeptStash(was: bytes)
      reads this
    {
      (!closed ==> stash == was) && (was == [] ==> stash == [])
    }

    /** No object has been read yet. */
    ghost predicate Unread()
      reads this
    {
      last.None? && (mode == 1 ==> subgroup.None?)
    }

    ghost predicate CutHeader(s: bytes)
      reads this
    {
      subgroup.Some? ==> var t := Varint.Take(s); t.Done? && ModeBits(t.value) != 1
    }

    ghost predicate Valid()
      reads this
    {
      Consistent(stash) && (closed ==> stash == [])
    }

    constructor (stream: u64, prefix: bytes)
      ensures Valid() && View(stash) == Outcome(Opening(prefix), []) && this.stream == stream
    {
      this.stream := stream;
      stash := prefix;
      calls, route, subgroup, last := [], None, None, None;
      headerDone, closed, waiting, finPending := false, false, false, false;
      propertiesPerObject, endOfGroupOnFin := false, false;
      mode, alias, group, priority := 0, 0, 0, 128;
    }

    /** on_receive: the zero-copy path when nothing is stashed, the copying path otherwise. */
    method OnReceive(env: Env, chunks: seq<bytes>, fin: bool)
      requires Valid() && env.stream == stream
      modifies this
      ensures Valid()
      ensures View(stash) == Then(old(View(stash)), Receive(old(With(stash)), env, Concat(chunks), fin))
    {
      hide Reception.Run;
      if closed {
        assert calls + [] == calls;
        return;
      }
      if stash == [] && |chunks| == 1 {
        assert Concat(chunks) == chunks[0] + Concat([]) == chunks[0] == stash + Concat(chunks);
        ReceiveInPlace(env, chunks[0], fin);
      } else {
        ReceiveCopied(env, chunks, fin);
      }
    }

    /** The zero-copy path: only what is left of the one buffer is stashed. */
    method ReceiveInPlace(env: Env, chunk: bytes, fin: bool)
      requires Valid() && !closed && stash == [] && env.stream == stream
      modifies this
      ensures Valid()
      ensures View(stash) == Then(old(View([])), Enforce(Reception.Run(old(With([])), env, chunk, fin), env.limit))
    {
      hide Open, Feed;
      GrowCut([], chunk);
      assert [] + chunk == chunk;
      var rest := Run(env, chunk, fin);
      if !closed && rest != [] {
        stash := rest;
      }
      EnforceThen(old(View([])), Reception.Run(old(With([])), env, chunk, fin), env.limit);
      EnforceLimit(env);
    }

    /** The copying path: the buffers are joined behind the stash. */
    method ReceiveCopied(env: Env, chunks: seq<bytes>, fin: bool)
      requires Valid() && !closed && env.stream == stream
      modifies this
      ensures Valid()
      ensures View(stash) ==
              Then(old(View(stash)),
                   Enforce(Reception.Run(old(With(stash)), env, old(stash) + Concat(chunks), fin), env.limit))
    {
      hide Open, Feed;
      GrowCut(stash, Concat(chunks));
      Append(chunks);
      var rest := Run(env, stash, fin);
      EnforceThen(old(View(stash)), Reception.Run(old(With(stash)), env, old(stash) + Concat(chunks), fin), env.limit);
      if !closed {
        stash := rest;
        EnforceLimit(env);
      } else {
        stash := [];
      }
    }

    /** The copying loop of on_receive. */
    method Append(chunks: seq<bytes>)
      modifies this`stash
      ensures stash == old(stash) + Concat(chunks)
    {
      var index := 0;
      while index < |chunks|
        invariant 0 <= index <= |chunks|
        invariant stash == old(stash) + Concat(chunks[..index])
      {
        assert chunks[..index + 1] == chunks[..index] + [chunks[index]];
        ConcatSplit(chunks[..index], [chunks[index]]);
        assert Concat([chunks[index]]) == chunks[index];
        stash := stash + chunks[index];
        index := index + 1;
      }
      assert chunks[..|chunks|] == chunks;
    }

    /** establish: a parked stream gets its route and its buffered bytes are parsed. */
    method Establish(env: Env, request: u64)
      requires Valid() && env.stream == stream
      modifies this
      ensures Valid()
      ensures View(stash) == Then(old(View(stash)), Reception.Establish(old(With(stash)), stream, request))
    {
      hide Feed;
      if closed || !waiting {
        assert calls + [] == calls;
        return;
      }
      route := Some(request);
      waiting := false;
      var rest := Run(env, stash, finPending);
      stash := if closed then [] else rest;
    }

    /** on_peer_send_aborted: a reset stream leaves the pending table and reads no more. */
    method OnPeerSendAborted()
      requires Valid()
      modifies this
      ensures Valid() && With(stash) == Closed
      ensures calls == old(calls) + if old(With(stash)).Waiting? then [Unpark(old(alias))] else []
    {
      if waiting {
        calls := calls + [Unpark(alias)];
      }
      closed := true;
      waiting := false;
      stash := [];
    }

    /** Bytes that arrive later do not undo what a cut-off header promised about itself. */
    lemma GrowCut(s: bytes, t: bytes)
      requires Consistent(s)
      ensures Consistent(s + t)
    {
      if !closed && !headerDone && subgroup.Some? {
        Varint.TakeStable(s, t);
      }
    }

    /** run: parses `s` as far as it goes and returns what is left. */
    method Run(env: Env, s: bytes, fin: bool) returns (rest: bytes)
      requires !closed && Consistent(s) && env.stream == stream
      modifies this
      ensures Consistent(rest) && KeptStash(old(stash))
      ensures View(rest) == Then(old(View(s)), Reception.Run(old(With(s)), env, s, fin))
    {
      hide Open, Feed;
      if !headerDone {
        rest := RunFromHeader(env, s, fin);
      } else if waiting {
        rest := s;
        finPending := finPending || fin;
        assert calls + [] == calls;
      } else {
        rest := ReadObjects(s, fin);
      }
    }

    /** run while the header is not complete: parse_header, then the objects behind it. */
    method RunFromHeader(env: Env, s: bytes, fin: bool) returns (rest: bytes)
      requires !closed && !headerDone && Consistent(s) && env.stream == stream
      modifies this
      ensures Consistent(rest) && KeptStash(old(stash))
      ensures View(rest) == Then(old(View(s)), Open(env, s, fin))
    {
      hide ParseHeader, Opened;
      var header := ReadHeaderFields(s);
      rest := HandleHeader(env, header, s, fin);
    }

    method HandleHeader(env: Env, header: Parse<Header>, s: bytes, fin: bool) returns (rest: bytes)
      requires !closed && !headerDone && Consistent(s) && env.stream == stream
      requires header.Done? ==> header.value == HeaderOf() && Unread()
      modifies this
      ensures Consistent(rest) && KeptStash(old(stash))
      ensures View(rest) == Then(old(View(s)), Opened(env, header, s, fin))
    {
      hide Bind;
      assert calls + [] == calls;
      if !header.Done? {
        rest := s;
        if header.Bad? || fin {
          FailStream();
        }
        return;
      }
      rest := BindAndRead(env, header.rest, fin);
    }

    method BindAndRead(env: Env, s: bytes, fin: bool) returns (rest: bytes)
      requires !closed && !headerDone && !waiting && !finPending && route.None? && Unread() && env.stream == stream
      modifies this
      ensures Consistent(rest) && KeptStash(old(stash))
      ensures View(rest) == Then(old(View(s)), Bind(env, old(HeaderOf()), s, fin))
    {
      hide Feed;
      rest := s;
      BindRoute(env, s);
      if closed {
        return;
      }
      if waiting {
        finPending := finPending || fin;
        return;
      }
      assert old(calls) + [] == old(calls);
      rest := ReadObjects(s, fin);
    }

    /** The reading half of parse_header. A header that is cut off leaves its fields half written. */
    method ReadHeaderFields(s: bytes) returns (r: Parse<Header>)
      requires last.None? && CutHeader(s)
      modifies this`group, this`mode, this`subgroup, this`priority, this`alias, this`propertiesPerObject,
          this`endOfGroupOnFin
      ensures r == ParseHeader(s) && CutHeader(s)
      ensures r.Done? ==> HeaderOf() == r.value && Unread()
    {
      hide Varint.Take, TakePriority;
      var kind := Varint.Take(s);
      if kind.More? {
        return More;
      }
      if !IsSubgroupType(kind.value) {
        return Bad;
      }
      var newAlias := Varint.Take(kind.rest);
      if newAlias.More? {
        return More;
      }
      var newGroup := Varint.Take(newAlias.rest);
      if newGroup.More? {
        return More;
      }
      group := newGroup.value;
      mode := ModeBits(kind.value);
      var at := ReadSubgroupAndPriority(newGroup.rest, kind.value);
      if at.More? {
        return More;
      }
      alias := newAlias.value;
      propertiesPerObject := PropertiesBit(kind.value);
      endOfGroupOnFin := EndOfGroupBit(kind.value);
      r := Done(HeaderOf(), at.rest);
    }

    /** The optional fields of a header, each stored as soon as it is read. */
    method ReadSubgroupAndPriority(s: bytes, kind: u64) returns (r: Parse<()>)
      requires mode == ModeBits(kind) && mode != 3
      modifies this`subgroup, this`priority
      ensures var sg := TakeSubgroup(s, mode);
              if sg.More? then r.More? && subgroup == old(subgroup) else
              && subgroup == (if mode == 1 then old(subgroup) else sg.value)
              && var p := TakePriority(sg.rest, DefaultPriorityBit(kind));
                 if p.More? then r.More? else r == Done((), p.rest) && priority == p.value
    {
      hide Varint.Take;
      var rest := s;
      if mode == 2 {
        var id := Varint.Take(s);
        if id.More? {
          return More;
        }
        subgroup := Some(id.value);
        rest := id.rest;
      } else if mode == 0 {
        subgroup := Some(0);
      }
      var byte := TakePriority(rest, DefaultPriorityBit(kind));
      if byte.More? {
        return More;
      }
      priority := byte.value;
      r := Done((), byte.rest);
    }

    /** The end of parse_header: the alias is looked up under the configured policy. */
    method BindRoute(env: Env, ghost rest: bytes)
      requires !closed && !headerDone && !waiting && !finPending && route.None? && Unread() && env.stream == stream
      modifies this
      ensures KeptStash(old(stash))
      ensures Consistent(rest) && (closed || headerDone) && !finPending
      ensures HeaderOf() == old(HeaderOf())
      ensures View(rest) == Then(old(View(rest)), AfterHeader(env, HeaderOf(), rest))
    {
      if alias in env.routes {
        route := Some(env.routes[alias]);
        assert calls + [] == calls;
      } else if env.policy == Error {
        FailStream();
        return;
      } else if env.policy == Drop || !env.room {
        Abandon();
        return;
      } else {
        calls := calls + [Park(alias)];
      }
      if route.None? {
        waiting := true;
      }
      headerDone := true;
    }

    /** The part of run behind a bound header: the object loop, then the end of the stream. */
    method ReadObjects(s: bytes, fin: bool) returns (rest: bytes)
      requires !closed && headerDone && !waiting && route.Some?
      modifies this`subgroup, this`last, this`calls, this`closed
      ensures Consistent(rest)
      ensures View(rest) == Then(old(View(s)), Feed(Binding(old(HeaderOf()), route.value, stream),
                                                    Position(old(subgroup), old(last)), s, fin))
    {
      hide Drain;
      ghost var d := Drain(Binding(HeaderOf(), route.value, stream), Position(subgroup, last), s);
      rest := DrainLoop(s);
      ghost var made := d.calls;
      if !closed && fin && rest != [] {
        FailStream();
      } else if !closed && fin {
        closed := true;
        if endOfGroupOnFin && last.Some? {
          calls := calls + [GroupFinal(route.value, group, last.value)];
          assert calls == old(calls) + (made + [GroupFinal(route.value, group, last.value)]);
        }
      }
      assert old(calls) + made + [Fail] == old(calls) + (made + [Fail]);
    }

    /** The object loop of run. */
    method DrainLoop(s: bytes) returns (rest: bytes)
      requires !closed && route.Some?
      modifies this`subgroup, this`last, this`calls, this`closed
      ensures HeaderOf() == old(HeaderOf())
      ensures var d := Drain(Binding(HeaderOf(), route.value, stream), Position(old(subgroup), old(last)), s);
              && closed == d.bad && Position(subgroup, last) == d.pos
              && calls == old(calls) + d.calls + (if d.bad then [Fail] else [])
              && (!d.bad ==> rest == d.rest)
    {
      hide ParseObject, Drain;
      ghost var b := Binding(HeaderOf(), route.value, stream);
      ghost var whole := Drain(b, Position(subgroup, last), s);
      ghost var made: seq<Call> := [];
      rest := s;
      assert [] + whole.calls == whole.calls && calls + [] == calls;
      while true
        invariant !closed && HeaderOf() == b.header
        invariant calls == old(calls) + made
        invariant whole == Resume(b, Position(subgroup, last), made, rest)
        decreases |rest|
      {
        var parsed := ParseObject(propertiesPerObject, rest);
        ResumeStep(b, Position(subgroup, last), made, rest, parsed);
        HandleObject(parsed);
        if closed || parsed.More? {
          return;
        }
        made := made + [calls[|calls| - 1]];
        rest := parsed.rest;
      }
    }

    /** The rest of parse_object: computes the Object ID and hands the object to the route. */
    method HandleObject(r: Parse<RawObject>)
      requires !closed && route.Some?
      modifies this`subgroup, this`last, this`calls, this`closed
      ensures HeaderOf() == old(HeaderOf())
      ensures var b, pos := Binding(HeaderOf(), route.value, stream), Position(old(subgroup), old(last));
              match r
              case More => !closed && calls == old(calls) && Position(subgroup, last) == pos
              case Bad => closed && calls == old(calls) + [Fail] && Position(subgroup, last) == pos
              case Done(raw, _) =>
                match NextId(pos.last, raw.delta)
                case None => closed && calls == old(calls) + [Fail] && Position(subgroup, last) == pos
                case Some(id) =>
                  && !closed && Position(subgroup, last) == Advance(b.header, pos, id)
                  && calls == old(calls) + [Deliver(MakeObject(b, Position(subgroup, last), id, raw))]
    {
      match r {
        case More =>
        case Bad =>
          FailStream();
        case Done(raw, _) =>
          var id := raw.delta;
          if last.Some? {
            if last.value == MAX64 || raw.delta > MAX64 - (last.value + 1) {
              FailStream();
              return;
            }
            id := last.value + raw.delta + 1;
          }
          if mode == 1 && subgroup.None? {
            subgroup := Some(id);
          }
          last := Some(id);
          calls := calls + [Deliver(Object(route.value, alias, group,
              Some(if subgroup.Some? then subgroup.value else 0),
                                           id, priority, raw.status, raw.properties, raw.payload, SubgroupStream,
                                               stream))];
      }
    }

    /** fail: reports a protocol error and reads no more. */
    method FailStream()
      modifies this`closed, this`calls
      ensures closed && calls == old(calls) + [Fail]
    {
      closed := true;
      calls := calls + [Fail];
    }

    /** enforce_pending_buffer_limit. */
    method EnforceLimit(env: Env)
      requires Valid()
      modifies this
      ensures Valid()
      ensures View(stash) == Enforce(old(View(stash)), env.limit)
    {
      if waiting && |stash| > env.limit {
        ghost var was := calls;
        Abandon();
        assert calls == was + [Unpark(alias), Abort];
      }
    }

    /** abandon: leaves the pending table and stops the stream. */
    method Abandon()
      modifies this`calls, this`closed, this`waiting, this`stash
      ensures closed && !waiting && stash == []
      ensures calls == old(calls) + (if old(waiting) then [Unpark(alias)] else []) + [Abort]
    {
      if waiting {
        calls := calls + [Unpark(alias)];
      }
      calls := calls + [Abort];
      closed := true;
      waiting := false;
      stash := [];
    }
  }

  lemma EnforceThen(first: Outcome, second: Outcome, limit: nat)
    ensures Enforce(Then(first, second), limit) == Then(first, Enforce(second, limit))
  {
    var u := [Unpark(if second.rx.Waiting? then second.rx.header.alias else 0), Abort];
    assert first.calls + second.calls + u == first.calls + (second.calls + u);
  }

  /** The drain that has made the calls `made` so far and stands at `pos` before `rest`. */
  ghost function Resume(b: Binding, pos: Position, made: seq<Call>, rest: bytes): Drained {
    Join(Drained(pos, made, [], false), Drain(b, pos, rest))
  }

  lemma ResumeStep(b: Binding, pos: Position, made: seq<Call>, rest: bytes, p: Parse<RawObject>)
    requires p == ParseObject(b.header.properties, rest)
    ensures var id := if p.Done? then NextId(pos.last, p.value.delta) else None;
            if id.None? then Resume(b, pos, made, rest) == Drained(pos, made, rest, !p.More?) else
            var pos' := Advance(b.header, pos, id.value);
            Resume(b, pos, made, rest) ==
            Resume(b, pos', made + [Deliver(MakeObject(b, pos', id.value, p.value))], p.rest)
  {
    assert made + [] == made;
    if p.Done? && NextId(pos.last, p.value.delta).Some? {
      var id := NextId(pos.last, p.value.delta).value;
      var pos' := Advance(b.header, pos, id);
      var call := Deliver(MakeObject(b, pos', id, p.value));
      var d := Drain(b, pos', p.rest);
      assert made + ([call] + d.calls) == made + [call] + d.calls;
    }
  }
}

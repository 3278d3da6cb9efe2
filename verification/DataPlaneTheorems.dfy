/** Every step of the receive plane keeps its counters exact; what holds in every state it can reach. */
module DataPlaneTheorems {
  import opened Basics
  import opened Reception
  import opened DataPlanes
  import opened DataPlaneInvariants
  import Datagrams
  import Varint

  function With(p: Plane, s: u64, rx: Receiver): Plane {
    p.(receivers := p.receivers[s := rx])
  }

  /** A receiver that does not wait, before or after. */
  lemma UnparkedStays(x: Context, p: Plane, s: u64, rx: Receiver)
    requires Good(x, p) && (s !in p.receivers || !p.receivers[s].Waiting?) && !rx.Waiting?
    ensures Good(x, With(p, s, rx))
  {
    hide ParkedExactly, Table, Sum, Sizes;
    StillNotParked(x, p, s, rx, []);
    assert Table(With(p, s, rx)) by { SameTable(p, With(p, s, rx)); }
  }

  lemma SameTable(p: Plane, q: Plane)
    requires q.routes == p.routes && q.states == p.states && q.owned == p.owned && Table(p)
    requires q.busy == p.busy && q.stopped == p.stopped
    ensures Table(q)
  {
  }

  lemma ParkedStays(x: Context, p: Plane, s: u64, rx: Receiver)
    requires Good(x, p) && s in p.receivers && p.receivers[s].Waiting? && rx.Waiting?
    requires rx.header == p.receivers[s].header && Within(rx, x.config.maxStreamBytes)
    ensures Good(x, With(p, s, rx))
  {
    hide Table, Sum, Sizes, Counts, ListsDistinct;
    SameTable(p, With(p, s, rx));
    var after := p.receivers[s := rx];
    forall a, y | a in p.pending && y in p.pending[a] ensures WaitsFor(after, y, a) {
      assert WaitsFor(p.receivers, y, a);
    }
    forall y, a | WaitsFor(after, y, a) ensures a in p.pending && y in p.pending[a] {
      assert WaitsFor(p.receivers, y, a);
    }
  }

  lemma ParkedGood(x: Context, p: Plane, s: u64, rx: Receiver)
    requires Good(x, p) && s in p.receivers && !p.receivers[s].Waiting? && rx.Waiting?
    requires rx.header.alias !in p.routes && p.pendingCount < x.config.maxPending && Within(rx, x.config.maxStreamBytes)
    ensures Good(x, DataPlanes.Park(With(p, s, rx), rx.header.alias, s))
  {
    hide Table, Sum, Sizes, ParkedExactly;
    Parked(x, p, s, rx);
    SameTable(p, DataPlanes.Park(With(p, s, rx), rx.header.alias, s));
  }

  lemma UnparkedGood(x: Context, p: Plane, s: u64, rx: Receiver)
    requires Good(x, p) && s in p.receivers && p.receivers[s].Waiting? && !rx.Waiting?
    ensures Good(x, Discard(With(p, s, rx), p.receivers[s].header.alias, s))
  {
    hide Table, Sum, Sizes, ParkedExactly;
    Unparked(x, p, s, rx);
    SameTable(p, Discard(With(p, s, rx), p.receivers[s].header.alias, s));
  }

  lemma LogGood(x: Context, p: Plane, c: Callback)
    requires Good(x, p)
    ensures Good(x, p.(log := p.log + [c]))
  {
    hide Table, Sum, Sizes, Counts, ListsDistinct, ParkedWait, WaitersParked, Within;
    SameTable(p, p.(log := p.log + [c]));
  }

  lemma PlainGood(x: Context, p: Plane, s: u64, o: Outcome)
    requires Good(x, p) && (s !in p.receivers || !p.receivers[s].Waiting?) && !o.rx.Waiting? && Plain(o.calls)
    ensures Good(x, Becomes(x, p, s, o))
  {
    hide Good, ApplyAll, Calm;
    UnparkedStays(x, p, s, o.rx);
    ApplyAllCalm(x, With(p, s, o.rx), s, o.calls);
    CalmGood(x, With(p, s, o.rx), Becomes(x, p, s, o));
  }

  lemma ApplyOne(x: Context, p: Plane, s: u64, a: Call)
    ensures ApplyAll(x, p, s, [a]) == Apply(x, p, s, a)
  {
    hide Apply;
    assert ApplyAll(x, Apply(x, p, s, a), s, []) == Apply(x, p, s, a);
  }

  lemma ApplyTwo(x: Context, p: Plane, s: u64, a: Call, b: Call)
    ensures ApplyAll(x, p, s, [a, b]) == Apply(x, Apply(x, p, s, a), s, b)
  {
    hide Apply;
    assert [a, b][1..] == [b];
    ApplyOne(x, Apply(x, p, s, a), s, b);
  }

  lemma ApplyThree(x: Context, p: Plane, s: u64, a: Call, b: Call, c: Call)
    ensures ApplyAll(x, p, s, [a, b, c]) == Apply(x, Apply(x, Apply(x, p, s, a), s, b), s, c)
  {
    hide Apply;
    assert [a, b, c][1..] == [b, c];
    ApplyTwo(x, Apply(x, p, s, a), s, b, c);
  }

  /** Every outcome of a receive keeps the plane good. */
  lemma ShapeGood(x: Context, p: Plane, s: u64, o: Outcome)
    requires Good(x, p) && s in p.receivers && Shape(p.receivers[s], EnvOf(x, p, s), o)
    requires Within(o.rx, x.config.maxStreamBytes)
    ensures Good(x, Becomes(x, p, s, o))
  {
    hide Good, ApplyAll, DataPlanes.Park, Discard, Within;
    var rx := p.receivers[s];
    if Plain(o.calls) && !rx.Waiting? && !o.rx.Waiting? {
      PlainGood(x, p, s, o);
    } else if rx.Waiting? && o.rx.Waiting? {
      ParkedStays(x, p, s, o.rx);
      NoCalls(x, With(p, s, o.rx), s);
    } else if rx.Waiting? {
      UnparkedGood(x, p, s, o.rx);
      ApplyTwo(x, With(p, s, o.rx), s, Unpark(rx.header.alias), Abort);
      LogGood(x, Discard(With(p, s, o.rx), rx.header.alias, s), AbortReceive(s));
    } else if o.rx.Waiting? {
      ParkedGood(x, p, s, o.rx);
      ApplyOne(x, With(p, s, o.rx), s, Call.Park(o.rx.header.alias));
    } else {
      ParkedAndGone(x, p, s, o);
    }
  }

  lemma NoCalls(x: Context, p: Plane, s: u64)
    ensures ApplyAll(x, p, s, []) == p
  {
  }

  lemma ParkedAndGone(x: Context, p: Plane, s: u64, o: Outcome)
    requires Good(x, p) && s in p.receivers && !p.receivers[s].Waiting? && !o.rx.Waiting?
    requires |o.calls| == 3 && o.calls[0].Park? && o.calls == [o.calls[0], Unpark(o.calls[0].alias), Abort]
    ensures Good(x, Becomes(x, p, s, o))
  {
    hide Good, ApplyAll, DataPlanes.Park, Discard;
    var a := o.calls[0].alias;
    var p1 := With(p, s, o.rx);
    UnparkedStays(x, p, s, o.rx);
    ApplyThree(x, p1, s, o.calls[0], Unpark(a), Abort);
    assert Discard(DataPlanes.Park(p1, a, s), a, s) == p1 by { Restored(x, p1, s, a); }
    LogGood(x, p1, AbortReceive(s));
  }

  lemma Restored(x: Context, p: Plane, s: u64, a: u64)
    requires Good(x, p) && s in p.receivers && !p.receivers[s].Waiting?
    ensures Discard(DataPlanes.Park(p, a, s), a, s) == p
  {
    hide ParkedExactly;
    ParkedAndDiscarded(x, p, s, a);
  }

  lemma ReceiveGood(x: Context, p: Plane, s: u64, received: bytes, fin: bool)
    requires Good(x, p)
    ensures Good(x, StreamReceive(x, p, s, received, fin))
  {
    hide Good, Becomes, Receive, Shape, Within;
    if s in p.receivers {
      var env := EnvOf(x, p, s);
      ReceiveShape(p.receivers[s], env, received, fin);
      ReceiveWithin(p.receivers[s], env, received, fin);
      ShapeGood(x, p, s, Receive(p.receivers[s], env, received, fin));
    }
  }

  lemma StartGood(x: Context, p: Plane, s: u64, prefix: bytes, fin: bool)
    requires Good(x, p)
    ensures Good(x, StartStream(x, p, s, prefix, fin))
  {
    hide Good, StreamReceive;
    if s !in p.receivers {
      UnparkedStays(x, p, s, Opening(prefix));
      ReceiveGood(x, With(p, s, Opening(prefix)), s, [], fin);
    }
  }

  lemma AbortedGood(x: Context, p: Plane, s: u64)
    requires Good(x, p)
    ensures Good(x, StreamAborted(p, s))
  {
    hide Good;
    if s in p.receivers {
      if p.receivers[s].Waiting? {
        UnparkedGood(x, p, s, Closed);
        assert StreamAborted(p, s) == Discard(With(p, s, Closed), p.receivers[s].header.alias, s);
      } else {
        UnparkedStays(x, p, s, Closed);
      }
    }
  }

  lemma BodyCalm(x: Context, p: Plane, h: Datagrams.Head, body: Parse<Object>)
    ensures Calm(p, DeliverBody(x, p, h, body))
  {
    hide Emit, DataPlanes.Deliver, Mark, Table;
    match body
    case Done(o, _) =>
      var p1 := if h.flags.endOfGroup then Mark(p, o.request, h.group, h.id) else p;
      MarkCalm(p, o.request, h.group, h.id);
      DeliverCalm(x, p1, o);
      CalmJoin(p, p1, DataPlanes.Deliver(x, p1, o));
    case _ => EmitCalm(x, p, ProtocolError);
  }

  /** A datagram is held, or changes nothing that is held. */
  lemma DatagramEffect(x: Context, p: Plane, d: bytes, allow: bool)
    ensures var q := DeliverDatagram(x, p, d, allow);
            Calm(p, q) || (allow && exists a: u64 :: a !in p.routes && q == Hold(x, p, a, d))
  {
    hide Emit, DeliverBody, Datagrams.ParseHead, Datagrams.ParseBody, Varint.Take, Table, Hold;
    EmitCalm(x, p, ProtocolError);
    var head := Datagrams.ParseHead(d);
    if head.Done? {
      var h := head.value;
      if h.alias in p.routes {
        BodyCalm(x, p, h, Datagrams.ParseBody(h, head.rest, p.routes[h.alias]));
      }
    }
  }

  /** A list of held datagrams may change if the byte counter changes with it, within the limits. */
  lemma ListGood(x: Context, p: Plane, a: u64, list: seq<bytes>, bytes: nat)
    requires Good(x, p) && a !in p.routes && |list| <= x.config.maxDatagramsPerAlias
    requires bytes + Size(Held(p, a)) == p.heldBytes + Size(list) && bytes <= x.config.maxDatagramBytes
    ensures Good(x, p.(datagrams := p.datagrams[a := list], heldBytes := bytes))
  {
    hide Table, Sum, Sizes, ParkedExactly, Size, Within;
    var q := p.(datagrams := p.datagrams[a := list], heldBytes := bytes);
    SizesChange(p.datagrams, a, list);
    assert Size([]) == 0 by { NothingHeld(); }
    SameParking(x, p, q);
    SameTable(p, q);
  }

  lemma HeldLists(x: Context, p: Plane, a: u64)
    requires Good(x, p)
    ensures |Held(p, a)| <= x.config.maxDatagramsPerAlias && p.heldBytes <= x.config.maxDatagramBytes
  {
    hide Table, Sum, Sizes, ParkedExactly, Within;
  }

  lemma HoldGood(x: Context, p: Plane, a: u64, d: bytes)
    requires Good(x, p) && a !in p.routes
    ensures Good(x, Hold(x, p, a, d))
  {
    hide Emit, Good, Calm, Size;
    if x.config.policy.Error? {
      EmitCalm(x, p, ProtocolError);
      CalmGood(x, p, Emit(x, p, ProtocolError));
    } else if x.config.policy.Buffer? && p.heldBytes + |d| <= x.config.maxDatagramBytes {
      var list := Held(p, a);
      HeldLists(x, p, a);
      if |list| >= x.config.maxDatagramsPerAlias {
        ListGood(x, p, a, list, p.heldBytes);
        assert Hold(x, p, a, d) == p.(datagrams := p.datagrams[a := list], heldBytes := p.heldBytes);
      } else {
        SizeAppend(list, d);
        ListGood(x, p, a, list + [d], p.heldBytes + |d|);
      }
    }
  }

  lemma NothingHeld()
    ensures Size([]) == 0
  {
  }

  lemma SameParking(x: Context, p: Plane, q: Plane)
    requires ParkedExactly(x, p, []) && q.pending == p.pending && q.pendingCount == p.pendingCount
            && q.receivers == p.receivers
    ensures ParkedExactly(x, q, [])
  {
  }

  lemma DatagramGood(x: Context, p: Plane, d: bytes)
    requires Good(x, p)
    ensures Good(x, DeliverDatagram(x, p, d, true))
  {
    hide Good, DeliverDatagram, Hold, Calm;
    var q := DeliverDatagram(x, p, d, true);
    DatagramEffect(x, p, d, true);
    if Calm(p, q) {
      CalmGood(x, p, q);
    } else {
      var a: u64 :| a !in p.routes && q == Hold(x, p, a, d);
      HoldGood(x, p, a, d);
    }
  }

  /** The route that is being installed. */
  predicate Installing(p: Plane, alias: u64, request: u64) {
    p.busy == Some(request) && alias in p.routes && p.routes[alias] == request
  }

  /** The plane while install_route is at work: `bytes` to replay, and the streams that left their list. */
  ghost predicate Replaying(x: Context, p: Plane, bytes: nat, moved: seq<u64>) {
    && BytesExact(x, p, bytes) && ParkedExactly(x, p, moved) && StashesWithin(x, p) && Apart(p) && Table(p)
    && NoRepeat(moved) && forall s :: s in moved ==> s in p.receivers && p.receivers[s].Waiting?
  }

  lemma CalmReplaying(x: Context, p: Plane, q: Plane, bytes: nat, moved: seq<u64>)
    requires Calm(p, q) && Replaying(x, p, bytes, moved)
    ensures Replaying(x, q, bytes, moved)
  {
    hide BytesExact, ParkedExactly, StashesWithin, Apart, Table, NoRepeat;
    CalmKeeps(x, p, q, bytes, moved);
  }

  lemma ClaimedReplays(x: Context, p: Plane, alias: u64, request: u64)
    requires Good(x, p) && alias !in p.routes && request !in p.states
    ensures Replaying(x, Claimed(p, alias, request), Size(Held(p, alias)), Streams(p, alias))
    ensures |Streams(p, alias)| <= p.pendingCount
  {
    hide BytesExact, Table, Size, NoRepeat, ListsDistinct, ParkedWait, WaitersParked, Sum, Counts;
    var q := Claimed(p, alias, request);
    CountsChange(p.pending, alias, []);
    ClaimedBytes(x, p, alias, request);
    ClaimedTable(p, alias, request);
    ClaimedLists(p, alias, request);
    assert NoRepeat(Streams(p, alias)) by { ListNoRepeat(p, alias); }
  }

  lemma ListNoRepeat(p: Plane, alias: u64)
    requires ListsDistinct(p.pending)
    ensures NoRepeat(Streams(p, alias))
  {
  }

  lemma ClaimedBytes(x: Context, p: Plane, alias: u64, request: u64)
    requires BytesExact(x, p, 0)
    ensures BytesExact(x, Claimed(p, alias, request), Size(Held(p, alias)))
  {
    hide Sum, Sizes, Size;
    SizesChange(p.datagrams, alias, []);
    assert Size([]) == 0 by { NothingHeld(); }
  }

  lemma ClaimedTable(p: Plane, alias: u64, request: u64)
    requires Table(p) && p.busy.None? && alias !in p.routes && request !in p.states
    ensures Table(Claimed(p, alias, request))
  {
    var q := Claimed(p, alias, request);
    forall r | r in q.states && q.states[r].active ensures r in q.routes.Values {
      if r == request {
        assert q.routes[alias] == r;
      } else {
        var a :| a in p.routes && p.routes[a] == r;
        assert a in q.routes && q.routes[a] == r;
      }
    }
    assert Owners(q) by { ClaimedOwners(p, alias, request); }
  }

  lemma ClaimedOwners(p: Plane, alias: u64, request: u64)
    requires Table(p) && p.busy.None? && alias !in p.routes && request !in p.states
    ensures Owners(Claimed(p, alias, request))
  {
    forall q | q in p.owned ensures q != request {
      assert p.routes[p.owned[q]] == q;
    }
  }

  lemma ClaimedLists(p: Plane, alias: u64, request: u64)
    requires ListsDistinct(p.pending) && ParkedWait(p.pending, p.receivers, [])
            && WaitersParked(p.pending, p.receivers, [])
    ensures var q, moved := Claimed(p, alias, request), Streams(p, alias);
            && ListsDistinct(q.pending) && ParkedWait(q.pending, q.receivers, moved)
                && WaitersParked(q.pending, q.receivers, moved)
            && (forall s :: s in moved ==> WaitsFor(q.receivers, s, alias))
  {
    hide NoRepeat;
    var q, moved := Claimed(p, alias, request), Streams(p, alias);
    forall a, s | a in q.pending && s in q.pending[a] ensures WaitsFor(q.receivers, s, a) && s !in moved {
      assert WaitsFor(p.receivers, s, a);
      if alias in p.pending {
        assert s in p.pending[alias] ==> WaitsFor(p.receivers, s, alias);
      }
    }
    forall s | s in moved ensures WaitsFor(q.receivers, s, alias) {
      assert WaitsFor(p.receivers, s, alias);
    }
    forall s, a | WaitsFor(q.receivers, s, a) && s !in moved ensures a in q.pending && s in q.pending[a] {
      assert WaitsFor(p.receivers, s, a);
    }
  }

  lemma {:induction false} DatagramsReplayed(x: Context, p: Plane, ds: seq<bytes>, moved: seq<u64>)
    requires Replaying(x, p, Size(ds), moved)
    ensures Replaying(x, ReplayDatagrams(x, p, ds), 0, moved)
    decreases |ds|
  {
    hide DeliverDatagram, Calm, Hold, ParkedExactly, Table, Sum, Sizes, NoRepeat, Replaying;
    if ds != [] {
      BytesAtLeast(x, p, |ds[0]|, Size(ds[1..]), moved);
      var p1 := p.(heldBytes := p.heldBytes - |ds[0]|);
      DatagramEffect(x, p1, ds[0], false);
      CalmReplaying(x, p1, DeliverDatagram(x, p1, ds[0], false), Size(ds[1..]), moved);
      DatagramsReplayed(x, DeliverDatagram(x, p1, ds[0], false), ds[1..], moved);
    }
  }

  lemma BytesAtLeast(x: Context, p: Plane, n: nat, rest: nat, moved: seq<u64>)
    requires Replaying(x, p, n + rest, moved)
    ensures p.heldBytes >= n && Replaying(x, p.(heldBytes := p.heldBytes - n), rest, moved)
  {
    hide Sum, Sizes, ListsDistinct, ParkedWait, WaitersParked, Counts, Table;
    SameTable(p, p.(heldBytes := p.heldBytes - n));
  }

  /** Establishing the first of the moved streams ends its wait. */
  lemma EstablishedOne(x: Context, p: Plane, moved: seq<u64>, request: u64)
    requires Replaying(x, p, 0, moved) && moved != []
    ensures var s := moved[0];
            s in p.receivers && Replaying(x, Becomes(x, p, s, Establish(p.receivers[s], s, request)), 0, moved[1..])
  {
    hide ApplyAll, Feed, BytesExact, ParkedExactly, Table, NoRepeat, Calm;
    var s := moved[0];
    assert s in moved && p.receivers[s].Waiting?;
    var rx := p.receivers[s];
    var o := Establish(rx, s, request);
    FeedPlain(Binding(rx.header, request, s), Position(rx.header.subgroup, None), rx.stash, rx.finPending);
    HeadNotInTail(moved);
    TailNoRepeat(moved);
    EstablishedParking(x, p, moved, o.rx);
    SameBytes(x, p, With(p, s, o.rx), 0);
    SameTable(p, With(p, s, o.rx));
    assert forall y :: y in moved[1..] ==> y in moved;
    assert Replaying(x, With(p, s, o.rx), 0, moved[1..]);
    ApplyAllCalm(x, With(p, s, o.rx), s, o.calls);
    CalmReplaying(x, With(p, s, o.rx), Becomes(x, p, s, o), 0, moved[1..]);
  }

  lemma SameBytes(x: Context, p: Plane, q: Plane, bytes: nat)
    requires BytesExact(x, p, bytes) && q.datagrams == p.datagrams && q.heldBytes == p.heldBytes
    ensures BytesExact(x, q, bytes)
  {
  }

  lemma EstablishedParking(x: Context, p: Plane, moved: seq<u64>, rx: Receiver)
    requires ParkedExactly(x, p, moved) && moved != [] && !rx.Waiting?
    ensures ParkedExactly(x, With(p, moved[0], rx), moved[1..])
  {
    hide Sum, Counts, ListsDistinct;
    var s := moved[0];
    var after := p.receivers[s := rx];
    assert moved == [s] + moved[1..];
    forall a, y | a in p.pending && y in p.pending[a] ensures WaitsFor(after, y, a) && y !in moved[1..] {
      assert WaitsFor(p.receivers, y, a) && y !in moved;
    }
    forall y, a | WaitsFor(after, y, a) && y !in moved[1..] ensures a in p.pending && y in p.pending[a] {
      assert WaitsFor(p.receivers, y, a);
    }
  }

  lemma {:induction false} StreamsReplayed(x: Context, p: Plane, moved: seq<u64>, request: u64)
    requires Replaying(x, p, 0, moved)
    ensures Replaying(x, ReplayStreams(x, p, moved, request), 0, [])
    decreases |moved|
  {
    hide Replaying, Becomes, Establish;
    if moved != [] {
      EstablishedOne(x, p, moved, request);
      var s := moved[0];
      StreamsReplayed(x, Becomes(x, p, s, Establish(p.receivers[s], s, request)), moved[1..], request);
    }
  }

  /** The replays leave the route of the request they are for in the table, whatever is stopped meanwhile. */
  lemma CalmInstalling(p: Plane, q: Plane, alias: u64, request: u64)
    requires Calm(p, q) && Installing(p, alias, request) && Table(p)
    ensures Installing(q, alias, request)
  {
    hide Table;
  }

  lemma {:induction false} DatagramsInstalling(x: Context, p: Plane, ds: seq<bytes>, alias: u64, request: u64)
    requires Installing(p, alias, request) && Table(p)
    ensures var q := ReplayDatagrams(x, p, ds); Installing(q, alias, request) && Table(q)
    decreases |ds|
  {
    hide DeliverDatagram, Table;
    if ds != [] {
      var left := if |ds[0]| <= p.heldBytes then p.heldBytes - |ds[0]| else 0;
      var p1 := p.(heldBytes := left);
      SameTable(p, p1);
      DatagramEffect(x, p1, ds[0], false);
      CalmInstalling(p1, DeliverDatagram(x, p1, ds[0], false), alias, request);
      DatagramsInstalling(x, DeliverDatagram(x, p1, ds[0], false), ds[1..], alias, request);
    }
  }

  lemma {:induction false} StreamsInstalling(x: Context, p: Plane, ss: seq<u64>, alias: u64, request: u64)
    requires Installing(p, alias, request) && Table(p)
    ensures var q := ReplayStreams(x, p, ss, request); Installing(q, alias, request) && Table(q)
    decreases |ss|
  {
    hide ApplyAll, Feed, Table;
    if ss != [] && ss[0] in p.receivers {
      var rx := p.receivers[ss[0]];
      var o := Establish(rx, ss[0], request);
      if rx.Waiting? {
        FeedPlain(Binding(rx.header, request, ss[0]), Position(rx.header.subgroup, None), rx.stash, rx.finPending);
      }
      var p1 := With(p, ss[0], o.rx);
      SameTable(p, p1);
      ApplyAllCalm(x, p1, ss[0], o.calls);
      CalmInstalling(p1, Becomes(x, p, ss[0], o), alias, request);
      StreamsInstalling(x, Becomes(x, p, ss[0], o), ss[1..], alias, request);
    } else if ss != [] {
      StreamsInstalling(x, p, ss[1..], alias, request);
    }
  }

  lemma ReplayInstalling(x: Context, p: Plane, alias: u64, request: u64)
    requires Table(p) && p.busy.None? && alias !in p.routes && request !in p.states
    ensures var q := Replay(x, p, alias, request); Installing(q, alias, request) && Table(q)
  {
    hide ReplayStreams, ReplayDatagrams, Table;
    ClaimedTable(p, alias, request);
    var q := Claimed(p, alias, request);
    DatagramsInstalling(x, q, Held(p, alias), alias, request);
    StreamsInstalling(x, ReplayDatagrams(x, q, Held(p, alias)), Streams(p, alias), alias, request);
  }

  lemma SettledTable(p: Plane, alias: u64, request: u64)
    requires Table(p) && Installing(p, alias, request)
    ensures var q := Settled(p, alias, request); Table(q) && q.busy.None?
  {
    var q := Settled(p, alias, request);
    forall r | r in q.states && q.states[r].active ensures r in q.routes.Values {
      var a :| a in p.routes && p.routes[a] == r;
      assert a in q.routes && q.routes[a] == r;
    }
    assert Owners(q) by { SettledOwners(p, alias, request); }
  }

  lemma SettledOwners(p: Plane, alias: u64, request: u64)
    requires Table(p) && Installing(p, alias, request)
    ensures Owners(Settled(p, alias, request))
  {
  }

  lemma SettledGood(x: Context, p: Plane, alias: u64, request: u64)
    requires Replaying(x, p, 0, []) && Installing(p, alias, request)
    ensures Good(x, Settled(p, alias, request))
  {
    hide Table, Sum, Sizes, ParkedExactly;
    SettledTable(p, alias, request);
    SameParking(x, p, Settled(p, alias, request));
  }

  lemma InstallGood(x: Context, p: Plane, alias: u64, request: u64)
    requires Good(x, p) && request !in p.states
    ensures Good(x, Install(x, p, alias, request))
  {
    hide ReplayStreams, ReplayDatagrams, Claimed, Streams, Held, ParkedExactly, BytesExact, StashesWithin, Apart, Table,
         Settled, StopEvery;
    if alias in p.routes {
      StopEveryGood(x, p);
    } else {
      ClaimedReplays(x, p, alias, request);
      var p1 := Claimed(p, alias, request);
      DatagramsReplayed(x, p1, Held(p, alias), Streams(p, alias));
      StreamsReplayed(x, ReplayDatagrams(x, p1, Held(p, alias)), Streams(p, alias), request);
      ReplayInstalling(x, p, alias, request);
      SettledGood(x, Replay(x, p, alias, request), alias, request);
    }
  }

  lemma StopGood(x: Context, p: Plane, request: u64)
    requires Good(x, p)
    ensures Good(x, Stop(p, request))
  {
    hide Good, Stop, Calm;
    StopCalm(p, request);
    CalmGood(x, p, Stop(p, request));
  }

  lemma StopEveryGood(x: Context, p: Plane)
    requires Good(x, p)
    ensures Good(x, StopEvery(p))
  {
    hide Good, StopEvery, Calm;
    StopEveryCalm(p);
    CalmGood(x, p, StopEvery(p));
  }

  lemma StepGood(x: Context, p: Plane, e: Event)
    requires Good(x, p) && Allowed(p, e)
    ensures Good(x, Step(x, p, e))
  {
    hide Good, Install, Stop, DeliverDatagram, StartStream, StreamReceive, StreamAborted;
    match e
    case InstallRoute(alias, request) => InstallGood(x, p, alias, request);
    case StopRequest(request) => StopGood(x, p, request);
    case OnDatagram(d) => DatagramGood(x, p, d);
    case Start(stream, prefix, fin) => StartGood(x, p, stream, prefix, fin);
    case Data(stream, received, fin) => ReceiveGood(x, p, stream, received, fin);
    case Aborted(stream) => AbortedGood(x, p, stream);
  }

  lemma {:induction false} RunGood(x: Context, p: Plane, events: seq<Event>)
    requires Good(x, p) && AllowedRun(x, p, events)
    ensures Good(x, DataPlanes.Run(x, p, events))
    decreases |events|
  {
    hide Good, Step;
    if events != [] {
      StepGood(x, p, events[0]);
      RunGood(x, Step(x, p, events[0]), events[1..]);
    }
  }

  /**
   * Receive-buffer accounting, in every state that any run of events and any behaviour of the
   * callbacks can reach: both counters are exact and within their limits, a stream is parked exactly
   * once if it waits for a route and not at all otherwise, every parked stream keeps its byte limit,
   * nothing is held for an alias that has a route, and a route is active exactly if it is in the table,
   * under the alias that its established request knows.
   */
  lemma Accounting(x: Context, events: seq<Event>)
    requires AllowedRun(x, EMPTY, events)
    ensures Good(x, DataPlanes.Run(x, EMPTY, events))
  {
    assert Sizes(map[]) == map[] && Counts(map[]) == map[];
    assert Good(x, EMPTY);
    RunGood(x, EMPTY, events);
  }
}

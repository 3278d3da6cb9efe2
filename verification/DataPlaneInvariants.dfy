/** What the receive plane keeps: exact counters within their limits, and streams parked exactly once. */
module DataPlaneInvariants {
  import opened Basics
  import opened Reception
  import opened DataPlanes
  import Delivery
  import SubgroupWire

  /** The sum of a table's entries. */
  ghost function Sum(m: map<u64, nat>): nat {
    if m == map[] then 0 else
    var k :| k in m;
    m[k] + Sum(m - {k})
  }

  lemma {:induction false} SumRemove(m: map<u64, nat>, k: u64)
    requires k in m
    ensures Sum(m) == m[k] + Sum(m - {k})
    decreases |m|
  {
    var j :| j in m && Sum(m) == m[j] + Sum(m - {j});
    if j != k {
      SumRemove(m - {j}, k);
      SumRemove(m - {k}, j);
      assert m - {j} - {k} == m - {k} - {j};
    }
  }

  lemma SumUpdate(m: map<u64, nat>, k: u64, v: nat)
    ensures Sum(m[k := v]) == Sum(m - {k}) + v
  {
    SumRemove(m[k := v], k);
    assert m[k := v] - {k} == m - {k};
  }

  lemma SumWithout(m: map<u64, nat>, k: u64)
    ensures Sum(m) == Sum(m - {k}) + (if k in m then m[k] else 0)
  {
    if k in m {
      SumRemove(m, k);
    } else {
      assert m - {k} == m;
    }
  }

  function Size(ds: seq<bytes>): nat {
    if ds == [] then 0 else |ds[0]| + Size(ds[1..])
  }

  lemma {:induction false} SizeAppend(ds: seq<bytes>, d: bytes)
    ensures Size(ds + [d]) == Size(ds) + |d|
  {
    if ds != [] {
      assert (ds + [d])[1..] == ds[1..] + [d];
      SizeAppend(ds[1..], d);
    } else {
      assert ([] + [d])[1..] == [];
    }
  }

  function Sizes(m: map<u64, seq<bytes>>): map<u64, nat> {
    map a | a in m :: Size(m[a])
  }

  function Counts(m: map<u64, seq<u64>>): map<u64, nat> {
    map a | a in m :: |m[a]|
  }

  /** The byte counter: what is held per alias, and `replaying` bytes that are not yet replayed. */
  ghost predicate BytesExact(x: Context, p: Plane, replaying: nat) {
    && p.heldBytes == Sum(Sizes(p.datagrams)) + replaying
    && p.heldBytes <= x.config.maxDatagramBytes
    && forall a :: a in p.datagrams ==> |p.datagrams[a]| <= x.config.maxDatagramsPerAlias
  }

  predicate NoRepeat(list: seq<u64>) {
    forall i, j :: 0 <= i < j < |list| ==> list[i] != list[j]
  }

  predicate WaitsFor(receivers: map<u64, Receiver>, s: u64, alias: u64) {
    s in receivers && receivers[s].Waiting? && receivers[s].header.alias == alias
  }

  predicate ListsDistinct(pending: map<u64, seq<u64>>) {
    forall a :: a in pending ==> pending[a] != [] && NoRepeat(pending[a])
  }

  /** Whatever is parked waits; the `moved` streams have left the lists. */
  predicate ParkedWait(pending: map<u64, seq<u64>>, receivers: map<u64, Receiver>, moved: seq<u64>) {
    forall a, s :: a in pending && s in pending[a] ==> WaitsFor(receivers, s, a) && s !in moved
  }

  /** Whatever waits is parked, or has just left the lists. */
  predicate WaitersParked(pending: map<u64, seq<u64>>, receivers: map<u64, Receiver>, moved: seq<u64>) {
    forall s, a :: WaitsFor(receivers, s, a) && s !in moved ==> a in pending && s in pending[a]
  }

  /** The parked streams: counted, none twice, and parked under an alias exactly if they wait for it. */
  ghost predicate ParkedExactly(x: Context, p: Plane, moved: seq<u64>) {
    && p.pendingCount == Sum(Counts(p.pending)) <= x.config.maxPending
    && ListsDistinct(p.pending)
    && ParkedWait(p.pending, p.receivers, moved)
    && WaitersParked(p.pending, p.receivers, moved)
  }

  predicate StashesWithin(x: Context, p: Plane) {
    forall s :: s in p.receivers ==> Within(p.receivers[s], x.config.maxStreamBytes)
  }

  /** An alias with a route has nothing held for it. */
  predicate Apart(p: Plane) {
    forall a :: a in p.routes ==> a !in p.pending && a !in p.datagrams
  }

  /** A route is active exactly if it is in the table, under one alias. */
  predicate Active(p: Plane) {
    && (forall a :: a in p.routes ==> p.routes[a] in p.states && p.states[p.routes[a]].active)
    && (forall a, b :: a in p.routes && b in p.routes && p.routes[a] == p.routes[b] ==> a == b)
    && (forall q :: q in p.states && p.states[q].active ==> q in p.routes.Values)
  }

  /** Every route belongs to an established request, which knows its alias, or to the busy one. */
  predicate Owners(p: Plane) {
    && (forall q :: q in p.owned ==> p.owned[q] in p.routes && p.routes[p.owned[q]] == q && p.busy != Some(q))
    && (forall a :: a in p.routes ==> p.routes[a] in p.owned || p.busy == Some(p.routes[a]))
    && (p.busy.Some? ==> p.busy.value in p.states && p.states[p.busy.value].active)
    && (p.stopped ==> p.busy.Some?)
  }

  predicate Table(p: Plane) {
    Active(p) && Owners(p)
  }

  ghost predicate Good(x: Context, p: Plane) {
    && BytesExact(x, p, 0) && ParkedExactly(x, p, []) && StashesWithin(x, p) && Apart(p) && Table(p)
    && p.busy.None?
  }

  /** From `p` to `q` requests may have been stopped; nothing that is held has changed. */
  predicate Calm(p: Plane, q: Plane) {
    && q.pending == p.pending && q.pendingCount == p.pendingCount
    && q.datagrams == p.datagrams && q.heldBytes == p.heldBytes && q.receivers == p.receivers
    && q.routes.Keys <= p.routes.Keys && q.states.Keys == p.states.Keys && q.busy == p.busy
    && (forall a :: a in q.routes ==> q.routes[a] == p.routes[a])
    && (forall a :: a in p.routes && p.busy == Some(p.routes[a]) && Table(p) ==> a in q.routes)
    && (Table(p) ==> Table(q))
  }

  lemma CalmJoin(p: Plane, q: Plane, r: Plane)
    requires Calm(p, q) && Calm(q, r)
    ensures Calm(p, r)
  {
    hide Table;
  }

  lemma StopCalm(p: Plane, request: u64)
    ensures Calm(p, Stop(p, request))
  {
    hide Table, Stop;
    StopFields(p, request);
    if Table(p) {
      StoppedTable(p, request);
      forall a | a in p.routes && p.busy == Some(p.routes[a])
        ensures a in Stop(p, request).routes
      {
        BusyStays(p, request, a);
      }
    }
  }

  lemma StopFields(p: Plane, request: u64)
    ensures var q := Stop(p, request);
            && q.pending == p.pending && q.pendingCount == p.pendingCount
            && q.datagrams == p.datagrams && q.heldBytes == p.heldBytes && q.receivers == p.receivers
            && q.routes.Keys <= p.routes.Keys && q.states.Keys == p.states.Keys && q.busy == p.busy
            && (forall a :: a in q.routes ==> q.routes[a] == p.routes[a])
  {
    hide Retire;
    if request in p.owned {
      RetireFields(p, p.owned[request]);
    }
  }

  lemma RetireFields(p: Plane, alias: u64)
    ensures var q := Retire(p, alias);
            && q.pending == p.pending && q.pendingCount == p.pendingCount
            && q.datagrams == p.datagrams && q.heldBytes == p.heldBytes && q.receivers == p.receivers
            && q.routes.Keys == p.routes.Keys - {alias} && q.states.Keys == p.states.Keys && q.busy == p.busy
            && (forall a :: a in q.routes ==> q.routes[a] == p.routes[a])
  {
  }

  lemma BusyStays(p: Plane, request: u64, a: u64)
    requires Table(p) && a in p.routes && p.busy == Some(p.routes[a])
    ensures a in Stop(p, request).routes
  {
    OwnersApart(p, a);
  }

  /** The alias of the busy request is nobody else's. */
  lemma OwnersApart(p: Plane, a: u64)
    requires Table(p) && a in p.routes && p.busy == Some(p.routes[a])
    ensures forall q :: q in p.owned ==> p.owned[q] != a
  {
  }

  lemma StoppedTable(p: Plane, request: u64)
    requires Table(p)
    ensures Table(Stop(p, request))
  {
    hide Stop;
    if p.busy != Some(request) && request in p.owned {
      StoppedActive(p, request);
      StoppedOwners(p, request);
    } else {
      assert Active(Stop(p, request)) && Owners(Stop(p, request)) by { StoppedElsewhere(p, request); }
    }
  }

  lemma StoppedElsewhere(p: Plane, request: u64)
    requires Table(p) && (p.busy == Some(request) || request !in p.owned)
    ensures Table(Stop(p, request))
  {
  }

  lemma StoppedActive(p: Plane, request: u64)
    requires Table(p) && p.busy != Some(request) && request in p.owned
    ensures Active(Stop(p, request))
  {
    var q := Stop(p, request);
    forall r | r in q.states && q.states[r].active
      ensures r in q.routes.Values
    {
      var a :| a in p.routes && p.routes[a] == r;
      assert a in q.routes && q.routes[a] == r;
    }
  }

  lemma StoppedOwners(p: Plane, request: u64)
    requires Table(p) && p.busy != Some(request) && request in p.owned
    ensures Owners(Stop(p, request))
  {
  }

  lemma {:induction false} StopAllCalm(p: Plane, requests: seq<u64>)
    ensures Calm(p, StopAll(p, requests))
    decreases |requests|
  {
    hide Stop, Table;
    if requests != [] {
      StopCalm(p, requests[0]);
      StopAllCalm(Stop(p, requests[0]), requests[1..]);
      CalmJoin(p, Stop(p, requests[0]), StopAll(p, requests));
    }
  }

  lemma StopEveryCalm(p: Plane)
    ensures Calm(p, StopEvery(p))
  {
    var q := StopEvery(p);
    if Table(p) {
      forall r | r in q.states && q.states[r].active
        ensures r in q.routes.Values
      {
        var a :| a in p.routes && p.routes[a] == r;
        assert a in q.routes && q.routes[a] == r;
      }
      assert Owners(q);
    }
  }

  lemma EmitCalm(x: Context, p: Plane, c: Callback)
    ensures Calm(p, Emit(x, p, c))
  {
    hide StopAll, Stop, StopEvery, Table;
    var p1 := p.(log := p.log + [c]);
    var p2 := React(p1, c);
    assert Calm(p, p1) by { LogCalm(p, c); }
    match c {
      case TrackError(request) => StopCalm(p1, request);
      case ProtocolError => StopEveryCalm(p1);
      case HandedOver(_) =>
      case AbortReceive(_) =>
    }
    CalmJoin(p, p1, p2);
    StopAllCalm(p2, x.stops(|p.log|));
    CalmJoin(p, p2, Emit(x, p, c));
  }

  lemma LogCalm(p: Plane, c: Callback)
    ensures Calm(p, p.(log := p.log + [c]))
  {
    assert Table(p) ==> Table(p.(log := p.log + [c]));
  }

  /** A route may change what it has recorded. */
  lemma RecordCalm(p: Plane, request: u64, r: Delivery.Route)
    requires request in p.states && r.active == p.states[request].active
    ensures Calm(p, p.(states := p.states[request := r]))
  {
  }

  lemma DeliverCalm(x: Context, p: Plane, o: Object)
    ensures Calm(p, DataPlanes.Deliver(x, p, o))
  {
    hide Emit, Table;
    if o.request in p.states {
      var r := p.states[o.request];
      match Delivery.FateOf(r, o)
      case Ignored =>
      case Malformed => EmitCalm(x, p, TrackError(o.request));
      case Handed =>
        var p1 := p.(states := p.states[o.request := Delivery.Delivered(r, o)]);
        RecordCalm(p, o.request, Delivery.Delivered(r, o));
        EmitCalm(x, p1, HandedOver(o));
        CalmJoin(p, p1, Emit(x, p1, HandedOver(o)));
    }
  }

  lemma MarkCalm(p: Plane, request: u64, group: u64, id: u64)
    ensures Calm(p, Mark(p, request, group, id))
  {
    hide Table;
    if request in p.states {
      RecordCalm(p, request, Delivery.Marked(p.states[request], group, id));
    }
  }

  /** A call that has nothing to do with parking. */
  predicate Plain(calls: seq<Call>) {
    forall c :: c in calls ==> !c.Park? && !c.Unpark?
  }

  lemma ApplyCalm(x: Context, p: Plane, stream: u64, c: Call)
    requires !c.Park? && !c.Unpark?
    ensures Calm(p, Apply(x, p, stream, c))
  {
    hide Emit, DataPlanes.Deliver, Mark;
    match c
    case Deliver(o) => DeliverCalm(x, p, o);
    case Fail => EmitCalm(x, p, ProtocolError);
    case GroupFinal(request, group, id) => MarkCalm(p, request, group, id);
    case Abort => LogCalm(p, AbortReceive(stream));
  }

  lemma {:induction false} ApplyAllCalm(x: Context, p: Plane, stream: u64, calls: seq<Call>)
    requires Plain(calls)
    ensures Calm(p, ApplyAll(x, p, stream, calls))
    decreases |calls|
  {
    hide Apply, Table;
    if calls != [] {
      ApplyCalm(x, p, stream, calls[0]);
      var p1 := Apply(x, p, stream, calls[0]);
      ApplyAllCalm(x, p1, stream, calls[1..]);
      CalmJoin(p, p1, ApplyAll(x, p, stream, calls));
    }
  }

  lemma CalmKeeps(x: Context, p: Plane, q: Plane, replaying: nat, moved: seq<u64>)
    requires Calm(p, q)
    ensures BytesExact(x, p, replaying) ==> BytesExact(x, q, replaying)
    ensures ParkedExactly(x, p, moved) ==> ParkedExactly(x, q, moved)
    ensures StashesWithin(x, p) ==> StashesWithin(x, q)
    ensures Apart(p) ==> Apart(q)
  {
    hide Sum, Sizes, Counts, ListsDistinct, ParkedWait, WaitersParked, Within, Table;
  }

  lemma CalmGood(x: Context, p: Plane, q: Plane)
    requires Calm(p, q) && Good(x, p)
    ensures Good(x, q)
  {
    hide BytesExact, ParkedExactly, StashesWithin, Apart, Table;
    CalmKeeps(x, p, q, 0, []);
  }

  lemma {:induction false} DrainPlain(b: Binding, pos: Position, s: bytes)
    ensures Plain(Drain(b, pos, s).calls)
    decreases |s|
  {
    hide SubgroupWire.ParseObject;
    var parsed := SubgroupWire.ParseObject(b.header.properties, s);
    if parsed.Done? && NextId(pos.last, parsed.value.delta).Some? {
      var id := NextId(pos.last, parsed.value.delta).value;
      DrainPlain(b, Reception.Advance(b.header, pos, id), parsed.rest);
    }
  }

  lemma FeedPlain(b: Binding, pos: Position, s: bytes, fin: bool)
    ensures var o := Feed(b, pos, s, fin); Plain(o.calls) && !o.rx.Waiting? && !o.rx.Opening?
  {
    hide Drain;
    DrainPlain(b, pos, s);
  }

  /** What a receive can do to the parking of its stream. */
  predicate Shape(rx: Receiver, env: Env, o: Outcome) {
    || (Plain(o.calls) && !rx.Waiting? && !o.rx.Waiting?)
    || (rx.Waiting? && o.rx.Waiting? && o.rx.header == rx.header && o.calls == [])
    || (rx.Waiting? && o.rx.Closed? && o.calls == [Unpark(rx.header.alias), Abort])
    || (rx.Opening? && o.rx.Waiting? && Parks(env, o, o.rx.header.alias) && o.calls == [Call.Park(o.rx.header.alias)])
    || (rx.Opening? && o.rx.Closed? && |o.calls| == 3 && o.calls[0].Park? && Parks(env, o, o.calls[0].alias)
        && o.calls == [o.calls[0], Unpark(o.calls[0].alias), Abort])
  }

  predicate Parks(env: Env, o: Outcome, alias: u64) {
    alias !in env.routes && env.room
  }

  lemma OpenShape(env: Env, s: bytes, fin: bool)
    ensures var o := Open(env, s, fin);
            || (Plain(o.calls) && !o.rx.Waiting?)
            || (o.rx.Waiting? && Parks(env, o, o.rx.header.alias) && o.calls == [Call.Park(o.rx.header.alias)])
  {
    hide Feed, SubgroupWire.ParseHeader;
    var parsed := SubgroupWire.ParseHeader(s);
    if parsed.Done? && parsed.value.alias in env.routes {
      var h := parsed.value;
      FeedPlain(Binding(h, env.routes[h.alias], env.stream), Position(h.subgroup, None), parsed.rest, fin);
    }
  }

  lemma ReceiveShape(rx: Receiver, env: Env, received: bytes, fin: bool)
    ensures Shape(rx, env, Receive(rx, env, received, fin))
  {
    hide Feed, Open;
    match rx
    case Opening(stash) => OpenShape(env, stash + received, fin);
    case Waiting(_, _, _) =>
    case Bound(b, pos, stash) => FeedPlain(b, pos, stash + received, fin);
    case Closed =>
  }

  lemma CountsChange(m: map<u64, seq<u64>>, a: u64, list: seq<u64>)
    ensures var had := if a in m then |m[a]| else 0;
            && Sum(Counts(m[a := list])) + had == Sum(Counts(m)) + |list|
            && Sum(Counts(m - {a})) + had == Sum(Counts(m))
  {
    hide Sum;
    assert Counts(m[a := list]) == Counts(m)[a := |list|] && Counts(m - {a}) == Counts(m) - {a};
    SumUpdate(Counts(m), a, |list|);
    SumWithout(Counts(m), a);
  }

  lemma SizesChange(m: map<u64, seq<bytes>>, a: u64, list: seq<bytes>)
    ensures var had := if a in m then Size(m[a]) else 0;
            && Sum(Sizes(m[a := list])) + had == Sum(Sizes(m)) + Size(list)
            && Sum(Sizes(m - {a})) + had == Sum(Sizes(m))
  {
    hide Sum, Size;
    assert Sizes(m[a := list]) == Sizes(m)[a := Size(list)] && Sizes(m - {a}) == Sizes(m) - {a};
    SumUpdate(Sizes(m), a, Size(list));
    SumWithout(Sizes(m), a);
  }

  lemma {:induction false} WithoutAbsent(list: seq<u64>, s: u64)
    requires s !in list
    ensures Without(list, s) == list && Without(list + [s], s) == list
  {
    if list == [] {
      assert ([] + [s])[1..] == [];
    } else {
      assert (list + [s])[1..] == list[1..] + [s];
      WithoutAbsent(list[1..], s);
    }
  }

  lemma {:induction false} WithoutMember(list: seq<u64>, s: u64)
    requires NoRepeat(list) && s in list
    ensures var left := Without(list, s);
            |left| == |list| - 1 && NoRepeat(left) && forall y :: y in left <==> y in list && y != s
  {
    assert list == [list[0]] + list[1..];
    assert NoRepeat(list[1..]) by { TailNoRepeat(list); }
    if list[0] == s {
      assert s !in list[1..] by { HeadNotInTail(list); }
      WithoutAbsent(list[1..], s);
    } else {
      WithoutMember(list[1..], s);
      assert list[0] !in list[1..] by { HeadNotInTail(list); }
    }
  }

  lemma TailNoRepeat(list: seq<u64>)
    requires NoRepeat(list) && list != []
    ensures NoRepeat(list[1..])
  {
    forall i, j | 0 <= i < j < |list| - 1 ensures list[1..][i] != list[1..][j] {
      assert list[i + 1] != list[j + 1];
    }
  }

  lemma HeadNotInTail(list: seq<u64>)
    requires NoRepeat(list) && list != []
    ensures list[0] !in list[1..]
  {
  }

  lemma NoRepeatAppend(list: seq<u64>, s: u64)
    requires NoRepeat(list) && s !in list
    ensures NoRepeat(list + [s])
  {
  }

  /** A stream that does not wait is in no list. */
  lemma NotParked(pending: map<u64, seq<u64>>, receivers: map<u64, Receiver>, moved: seq<u64>, s: u64, a: u64)
    requires ParkedWait(pending, receivers, moved) && a in pending
    requires s in moved || s !in receivers || !receivers[s].Waiting? || receivers[s].header.alias != a
    ensures s !in pending[a]
  {
    assert s in pending[a] ==> WaitsFor(receivers, s, a);
  }

  /** A stream that does not wait changes its receiver to one that does not wait either. */
  lemma StillNotParked(x: Context, p: Plane, s: u64, rx: Receiver, moved: seq<u64>)
    requires ParkedExactly(x, p, moved)
    requires s !in p.receivers || !p.receivers[s].Waiting? || s in moved
    requires !rx.Waiting?
    ensures ParkedExactly(x, p.(receivers := p.receivers[s := rx]), moved)
  {
    hide Sum, Counts, ListsDistinct;
    var after := p.receivers[s := rx];
    forall a, y | a in p.pending && y in p.pending[a] ensures WaitsFor(after, y, a) && y !in moved {
      assert WaitsFor(p.receivers, y, a);
    }
    forall y, a | WaitsFor(after, y, a) && y !in moved ensures a in p.pending && y in p.pending[a] {
      assert WaitsFor(p.receivers, y, a);
    }
  }

  lemma Parked(x: Context, p: Plane, s: u64, rx: Receiver)
    requires ParkedExactly(x, p, []) && p.pendingCount < x.config.maxPending
    requires s in p.receivers && !p.receivers[s].Waiting? && rx.Waiting?
    ensures ParkedExactly(x, DataPlanes.Park(p.(receivers := p.receivers[s := rx]), rx.header.alias, s), [])
  {
    hide Sum, Counts, NoRepeat;
    var a := rx.header.alias;
    var list := Streams(p, a);
    if a in p.pending {
      NotParked(p.pending, p.receivers, [], s, a);
    } else {
      assert NoRepeat(list) by { EmptyNoRepeat(); }
    }
    NoRepeatAppend(list, s);
    CountsChange(p.pending, a, list + [s]);
    var pending, after := p.pending[a := list + [s]], p.receivers[s := rx];
    forall b, y | b in pending && y in pending[b] ensures WaitsFor(after, y, b) {
      assert y != s ==> b in p.pending && y in p.pending[b] && WaitsFor(p.receivers, y, b);
      if y == s && b in p.pending {
        NotParked(p.pending, p.receivers, [], s, b);
      }
    }
    forall y, b | WaitsFor(after, y, b) ensures b in pending && y in pending[b] {
      assert y != s ==> WaitsFor(p.receivers, y, b);
    }
  }

  lemma EmptyNoRepeat()
    ensures NoRepeat([])
  {
  }

  /** Parking and discarding at once leaves the lists as they were. */
  lemma ParkedAndDiscarded(x: Context, p: Plane, s: u64, a: u64)
    requires ParkedExactly(x, p, [])
    requires s in p.receivers && !p.receivers[s].Waiting?
    ensures Discard(DataPlanes.Park(p, a, s), a, s) == p
  {
    hide Sum, Counts, NoRepeat;
    var list := Streams(p, a);
    if a in p.pending {
      NotParked(p.pending, p.receivers, [], s, a);
    }
    WithoutAbsent(list, s);
    var q := Discard(DataPlanes.Park(p, a, s), a, s);
    assert q.pending == p.pending;
  }

  /** A parked stream that stops waiting leaves its list. */
  lemma Unparked(x: Context, p: Plane, s: u64, rx: Receiver)
    requires ParkedExactly(x, p, [])
    requires s in p.receivers && p.receivers[s].Waiting? && !rx.Waiting?
    ensures var a := p.receivers[s].header.alias;
            var q := Discard(p.(receivers := p.receivers[s := rx]), a, s);
            && ParkedExactly(x, q, []) && q.pendingCount == p.pendingCount - 1
            && (forall b :: b in q.pending ==> b in p.pending)
  {
    hide Sum, Counts, NoRepeat;
    var a := p.receivers[s].header.alias;
    assert WaitsFor(p.receivers, s, a);
    var list := p.pending[a];
    var left := Without(list, s);
    WithoutMember(list, s);
    CountsChange(p.pending, a, left);
    var q := Discard(p.(receivers := p.receivers[s := rx]), a, s);
    assert q.pendingCount == p.pendingCount - 1;
    assert Sum(Counts(q.pending)) == p.pendingCount - 1;
    UnparkedLists(p.pending, q.pending, p.receivers, s, a, rx);
  }

  lemma UnparkedLists(pending: map<u64, seq<u64>>, after: map<u64, seq<u64>>, receivers: map<u64, Receiver>, s: u64,
                      a: u64, rx: Receiver)
    requires ListsDistinct(pending) && ParkedWait(pending, receivers, []) && WaitersParked(pending, receivers, [])
    requires a in pending && WaitsFor(receivers, s, a) && !rx.Waiting?
    requires var left := Without(pending[a], s);
             && NoRepeat(left) && (forall y :: y in left <==> y in pending[a] && y != s)
             && after == if left == [] then pending - {a} else pending[a := left]
    ensures ListsDistinct(after) && ParkedWait(after, receivers[s := rx], [])
    ensures WaitersParked(after, receivers[s := rx], [])
  {
    hide NoRepeat, Without;
    var left := Without(pending[a], s);
    forall b, y | b in after && y in after[b] ensures WaitsFor(receivers[s := rx], y, b) {
      assert b in pending && y in pending[b];
      assert WaitsFor(receivers, y, b);
    }
    forall y, b | WaitsFor(receivers[s := rx], y, b) ensures b in after && y in after[b] {
      assert WaitsFor(receivers, y, b);
      assert b == a ==> y in left;
    }
  }
}

/**
 * In every run of the session with its plane the two route tables agree, and no handler is called for
 * a request that is not live, except by the replay of its own installation.
 */
module JoiningTheorems {
  import opened Basics
  import opened Reception
  import opened DataPlanes
  import opened DataPlaneInvariants
  import opened DataPlaneTheorems
  import opened RetiredRoutes
  import opened Joining
  import Delivery
  import Datagrams
  import Handover
  import Varint
  import S = Subscribing
  import SI = SubscribingInvariants

  /** A live request that has been given an alias. */
  predicate Live(st: S.State, q: u64) {
    q in st.requests && st.requests[q].alias.Some?
  }

  /** The plane's requests are the session's: each established one owns its alias, a stopped one does not. */
  predicate Linked(st: S.State, p: Plane) {
    && (forall q :: q in p.owned <==> Live(st, q))
    && (forall q :: q in p.owned ==> st.requests[q].alias == Some(p.owned[q]))
    && (forall q :: q in p.states ==> q in st.roles)
    && (forall q :: q in st.requests && q in p.states ==> Live(st, q) || p.busy == Some(q))
    && (p.busy.Some? ==> p.busy.value in p.states && (p.stopped <==> p.busy.value !in st.requests))
  }

  /** What holds at every callback; `installing` is the alias whose route is being installed. */
  predicate Paired(st: S.State, p: Plane, installing: Option<u64>) {
    SI.Sound(st, installing) && SI.Shut(st) && Linked(st, p) && Table(p)
  }

  // ----- calls of the application -----

  lemma LinkedStop(st: S.State, p: Plane, id: u64)
    requires Linked(st, p) && Table(p)
    ensures Linked(S.Terminate(st, id), Stop(p, id))
  {
    hide S.Terminate, Table, Linked, Stop;
    BusyApart(p);
    StopEffect(p, id);
    if id in st.requests {
      SI.TerminateEffect(st, id);
      LinkedGone(st, S.Terminate(st, id), p, Stop(p, id), id);
    } else {
      assert S.Terminate(st, id) == st by { NotThere(st, id); }
      LinkedGone(st, st, p, Stop(p, id), id);
    }
  }

  /** One request is gone on both sides. */
  lemma LinkedGone(st: S.State, r: S.State, p: Plane, q: Plane, id: u64)
    requires Linked(st, p) && (p.busy == Some(id) ==> id !in p.owned)
    requires r.requests == st.requests - {id} && r.roles == st.roles
    requires q.busy == p.busy && q.states.Keys == p.states.Keys && q.stopped == (p.stopped || p.busy == Some(id))
    requires q.owned == if p.busy == Some(id) then p.owned else p.owned - {id}
    ensures Linked(r, q)
  {
    assert forall k :: Live(r, k) <==> Live(st, k) && k != id;
  }

  lemma NotThere(st: S.State, id: u64)
    requires id !in st.requests
    ensures S.Terminate(st, id) == st
  {
  }

  lemma BusyApart(p: Plane)
    requires Table(p)
    ensures p.busy.Some? ==> p.busy.value !in p.owned
  {
  }

  lemma StopEffect(p: Plane, id: u64)
    ensures var q := Stop(p, id);
            && q.busy == p.busy && q.states.Keys == p.states.Keys
            && q.stopped == (p.stopped || p.busy == Some(id))
            && q.owned == (if p.busy == Some(id) then p.owned else p.owned - {id})
  {
    hide Retire;
    if id in p.owned {
      RetireFields(p, p.owned[id]);
      RetireRest(p, p.owned[id]);
    }
  }

  lemma RetireRest(p: Plane, alias: u64)
    ensures var q := Retire(p, alias); q.owned == p.owned && q.stopped == p.stopped
  {
  }

  lemma {:induction false} StopAllEffect(p: Plane, ids: seq<u64>)
    requires Table(p)
    ensures var q := StopAll(p, ids);
            && q.busy == p.busy && q.states.Keys == p.states.Keys && Table(q)
            && q.stopped == (p.stopped || (p.busy.Some? && p.busy.value in ids))
            && (forall r :: r in q.owned <==> r in p.owned && r !in ids)
            && (forall r :: r in q.owned ==> q.owned[r] == p.owned[r])
    decreases |ids|
  {
    hide Stop, Table;
    if ids != [] {
      BusyApart(p);
      StopEffect(p, ids[0]);
      StopCalm(p, ids[0]);
      StopAllEffect(Stop(p, ids[0]), ids[1..]);
    }
  }

  /** Nothing that matters to the plane has happened to the session. */
  predicate Alike(st: S.State, r: S.State) {
    && r.requests.Keys == st.requests.Keys
    && (forall q :: q in st.requests ==> r.requests[q].alias == st.requests[q].alias)
    && (forall q :: q in st.roles ==> q in r.roles)
  }

  lemma LinkedAlike(st: S.State, r: S.State, p: Plane)
    requires Linked(st, p) && Alike(st, r)
    ensures Linked(r, p)
  {
    assert forall q :: Live(r, q) <==> Live(st, q);
  }

  lemma UpdateAlike(st: S.State, id: u64, ok: bool)
    ensures Alike(st, S.RequestUpdate(st, id, ok))
  {
  }

  lemma LinkedSubscribe(st: S.State, p: Plane, ok: bool)
    requires Linked(st, p) && SI.Core(st)
    ensures Linked(S.Subscribe(st, ok), p)
  {
    hide S.Terminate, SI.Core;
    if st.ready && st.nextId <= MAX64 - 2 {
      var id, st1 := st.nextId, SI.Inserted(st);
      SI.UnusedId(st);
      SI.TerminateEffect(st1, id);
      assert forall q :: q != id ==> (Live(st1, q) <==> Live(st, q));
      assert Linked(st1, p);
      assert st1.requests - {id} == st.requests;
      assert Alike(st, S.Subscribe(st, false)) by { assert S.Subscribe(st, false).requests == st.requests; }
      LinkedAlike(st, S.Subscribe(st, false), p);
    }
  }

  /** Everything is gone, on both sides. */
  lemma LinkedClosed(st: S.State, r: S.State, p: Plane, q: Plane)
    requires Linked(st, p) && r.requests == map[] && (forall k :: k in st.roles ==> k in r.roles)
    requires q.owned == map[] && q.busy == p.busy && q.states.Keys == p.states.Keys && (q.busy.Some? ==> q.stopped)
    ensures Linked(r, q)
  {
  }

  lemma LinkedDo(st: S.State, p: Plane, c: S.Call, installing: Option<u64>)
    requires Paired(st, p, installing) && S.AllowedCall(st, c)
    ensures Paired(S.Do(st, c), StopAll(p, Halts(c)), installing)
  {
    hide SI.Core, SI.Routes, Table, Linked, Alike, S.Terminate, S.RequestUpdate, S.Subscribe, S.Shutdown, SI.Later;
    SI.DoSound(st, c, installing);
    StopAllEffect(p, Halts(c));
    match c
    case Stop(id) =>
      LinkedStop(st, p, id);
      assert [id][1..] == [] && StopAll(Stop(p, id), []) == Stop(p, id);
    case Update(id, ok) =>
      UpdateAlike(st, id, ok);
      LinkedAlike(st, S.RequestUpdate(st, id, ok), p);
    case NewSubscription(ok) => LinkedSubscribe(st, p, ok);
    case Close(order, reactions) => LinkedClose(st, p, order, reactions, StopAll(p, order), installing);
  }

  /** Closing the session stops every request of the plane. */
  lemma LinkedClose(st: S.State, p: Plane, order: seq<u64>, reactions: seq<seq<S.Quick>>, q: Plane,
                    installing: Option<u64>)
    requires Paired(st, p, installing) && (st.ready ==> forall id :: id in st.requests ==> id in order)
    requires q.busy == p.busy && q.states.Keys == p.states.Keys
    requires p.stopped || (p.busy.Some? && p.busy.value in order) ==> q.stopped
    requires forall r :: r in q.owned ==> r in p.owned && r !in order
    ensures Linked(S.Shutdown(st, order, reactions), q)
  {
    hide SI.Core, SI.Routes, Table, S.TerminateAll;
    var r := S.Shutdown(st, order, reactions);
    if st.ready {
      SI.ShutdownSound(st, order, reactions, installing);
    }
    assert r.requests == map[];
    assert q.owned == map[] by {
      assert forall k :: k in q.owned ==> Live(st, k);
    }
    LinkedClosed(st, r, p, q);
  }

  lemma {:induction false} StopAllJoin(p: Plane, a: seq<u64>, b: seq<u64>)
    ensures StopAll(p, a + b) == StopAll(StopAll(p, a), b)
    decreases |a|
  {
    hide Stop;
    if a == [] {
      assert a + b == b;
    } else {
      assert (a + b)[0] == a[0] && (a + b)[1..] == a[1..] + b;
      StopAllJoin(Stop(p, a[0]), a[1..], b);
    }
  }

  lemma {:induction false} LinkedCalls(st: S.State, p: Plane, calls: seq<S.Call>, installing: Option<u64>)
    requires Paired(st, p, installing) && S.AllowedCalls(st, calls)
    ensures Paired(S.DoAll(st, calls), StopAll(p, HaltsAll(calls)), installing)
    decreases |calls|
  {
    hide Paired, S.Do, Halts;
    if calls != [] {
      LinkedDo(st, p, calls[0], installing);
      StopAllJoin(p, Halts(calls[0]), HaltsAll(calls[1..]));
      LinkedCalls(S.Do(st, calls[0]), StopAll(p, Halts(calls[0])), calls[1..], installing);
    }
  }

  // ----- lists of calls -----

  lemma {:induction false} DoAllJoin(st: S.State, a: seq<S.Call>, b: seq<S.Call>)
    ensures S.DoAll(st, a + b) == S.DoAll(S.DoAll(st, a), b)
    ensures S.AllowedCalls(st, a + b) <==> S.AllowedCalls(st, a) && S.AllowedCalls(S.DoAll(st, a), b)
    decreases |a|
  {
    hide S.Do, S.AllowedCall;
    if a == [] {
      assert a + b == b;
    } else {
      assert (a + b)[0] == a[0] && (a + b)[1..] == a[1..] + b;
      DoAllJoin(S.Do(st, a[0]), a[1..], b);
    }
  }

  lemma {:induction false} AnswersJoin(app: App, first: seq<Callback>, log: seq<Callback>, n: nat)
    requires first <= log && n <= |first|
    ensures Answers(app, log, n) == Answers(app, first, n) + Answers(app, log, |first|)
    decreases |first| - n
  {
    hide Answer;
    if n < |first| {
      AnswersJoin(app, first, log, n + 1);
      var a := Answer(app, log[n], n);
      assert a + (Answers(app, first, n + 1) + Answers(app, log, |first|)) ==
             a + Answers(app, first, n + 1) + Answers(app, log, |first|);
    } else {
      assert [] + Answers(app, log, |first|) == Answers(app, log, |first|);
    }
  }

  // ----- from one state of the plane to another -----

  /** Whoever a callback is for is live when it is made, or is being installed. */
  ghost predicate Attended(app: App, st: S.State, p: Plane, log: seq<Callback>) {
    forall n: nat, r: u64 :: |p.log| <= n < |log| && Concerns(log[n], r) ==>
      p.busy == Some(r) || Live(S.DoAll(st, Answers(app, log[..n], |p.log|)), r)
  }

  /** The plane goes from `p` to `q`, and the session with it, through what the callbacks between them do. */
  ghost predicate LeadsFrom(app: App, st: S.State, p: Plane, q: Plane, installing: Option<u64>) {
    var calls := Answers(app, q.log, |p.log|);
    Paired(st, p, installing) && S.AllowedCalls(st, calls) ==>
      Paired(S.DoAll(st, calls), q, installing) && Attended(app, st, p, q.log)
  }

  ghost predicate Leads(app: App, p: Plane, q: Plane, installing: Option<u64>) {
    && p.log <= q.log && q.busy == p.busy
    && forall st :: LeadsFrom(app, st, p, q, installing)
  }

  lemma LeadsJoin(app: App, p: Plane, q: Plane, r: Plane, installing: Option<u64>)
    requires Leads(app, p, q, installing) && Leads(app, q, r, installing)
    ensures Leads(app, p, r, installing)
  {
    hide Paired, Attended;
    forall st
      ensures LeadsFrom(app, st, p, r, installing)
    {
      var first, second := Answers(app, q.log, |p.log|), Answers(app, r.log, |q.log|);
      AnswersJoin(app, q.log, r.log, |p.log|);
      DoAllJoin(st, first, second);
      assert LeadsFrom(app, st, p, q, installing) && LeadsFrom(app, S.DoAll(st, first), q, r, installing);
      if Paired(st, p, installing) && S.AllowedCalls(st, first + second) {
        AttendedJoin(app, st, p, q, r);
      }
    }
  }

  lemma AttendedJoin(app: App, st: S.State, p: Plane, q: Plane, r: Plane)
    requires p.log <= q.log && q.log <= r.log && q.busy == p.busy && Attended(app, st, p, q.log)
    requires Attended(app, S.DoAll(st, Answers(app, q.log, |p.log|)), q, r.log)
    ensures Attended(app, st, p, r.log)
  {
    hide Live, Concerns, Answer;
    forall n: nat, k: u64 | |p.log| <= n < |r.log| && Concerns(r.log[n], k)
      ensures p.busy == Some(k) || Live(S.DoAll(st, Answers(app, r.log[..n], |p.log|)), k)
    {
      if n < |q.log| {
        assert r.log[..n] == q.log[..n] && r.log[n] == q.log[n];
      } else {
        AnswersJoin(app, q.log, r.log[..n], |p.log|);
        DoAllJoin(st, Answers(app, q.log, |p.log|), Answers(app, r.log[..n], |q.log|));
      }
    }
  }

  /** The plane has changed nothing that the session knows of. */
  lemma LeadsQuietly(app: App, p: Plane, q: Plane, installing: Option<u64>)
    requires q.log == p.log && q.busy == p.busy && q.stopped == p.stopped && q.owned == p.owned
    requires q.states.Keys == p.states.Keys && (Table(p) ==> Table(q))
    ensures Leads(app, p, q, installing)
  {
    hide Table, SI.Sound, SI.Shut;
    forall st
      ensures LeadsFrom(app, st, p, q, installing)
    {
      assert Answers(app, q.log, |p.log|) == [];
      assert S.DoAll(st, []) == st;
    }
  }

  /** A callback for nobody, or for a request whose route is active. */
  predicate InOrder(p: Plane, c: Callback) {
    match c
    case HandedOver(o) => o.request in p.states && p.states[o.request].active
    case TrackError(q) => q in p.states && p.states[q].active
    case _ => true
  }

  lemma LeadsEmit(app: App, p: Plane, c: Callback, installing: Option<u64>)
    requires InOrder(p, c) && !c.AbortReceive?
    ensures Leads(app, p, Emit(ContextOf(app), p, c), installing)
  {
    hide Paired, Emit, Stop, StopEvery, StopAll, InOrder, Attended, Answer, S.DoAll, S.AllowedCalls;
    var x := ContextOf(app);
    var q := Emit(x, p, c);
    Handover.EmitLog(x, p, c);
    assert q.busy == p.busy by { EmitBusy(x, p, c); }
    var n := |p.log|;
    assert Answers(app, q.log, n) == Answer(app, c, n) by { LastAnswer(app, q.log); }
    forall st
      ensures LeadsFrom(app, st, p, q, installing)
    {
      if Paired(st, p, installing) && S.AllowedCalls(st, Answer(app, c, n)) {
        LinkedEmit(app, st, p, c, installing);
        AttendedEmit(app, st, p, c, installing);
      }
    }
  }

  lemma EmitBusy(x: Context, p: Plane, c: Callback)
    ensures Emit(x, p, c).busy == p.busy
  {
    hide Emit, Table;
    EmitCalm(x, p, c);
  }

  lemma LastAnswer(app: App, log: seq<Callback>)
    requires log != []
    ensures Answers(app, log, |log| - 1) == Answer(app, log[|log| - 1], |log| - 1)
  {
    hide Answer;
    assert Answers(app, log, |log|) == [];
  }

  lemma AttendedEmit(app: App, st: S.State, p: Plane, c: Callback, installing: Option<u64>)
    requires Paired(st, p, installing) && InOrder(p, c)
    ensures Attended(app, st, p, p.log + [c])
  {
    hide SI.Sound, SI.Shut;
    var n := |p.log|;
    assert (p.log + [c])[..n] == p.log && Answers(app, p.log, n) == [] && S.DoAll(st, []) == st;
    forall r: u64 | Concerns(c, r)
      ensures p.busy == Some(r) || Live(st, r)
    {
      var a :| a in p.routes && p.routes[a] == r;
    }
  }

  lemma LinkedEmit(app: App, st: S.State, p: Plane, c: Callback, installing: Option<u64>)
    requires Paired(st, p, installing) && !c.AbortReceive?
    requires S.AllowedCalls(st, Answer(app, c, |p.log|))
    ensures Paired(S.DoAll(st, Answer(app, c, |p.log|)), Emit(ContextOf(app), p, c), installing)
  {
    hide Paired, Stop, StopAll, StopEvery, S.Terminate, S.Shutdown, HaltsAll;
    var n, p1 := |p.log|, p.(log := p.log + [c]);
    var acts := app.acts(n);
    assert Paired(st, p1, installing) by { PairedLog(st, p, p1, installing); }
    match c
    case HandedOver(_) => LinkedCalls(st, p1, acts, installing);
    case TrackError(q) =>
      var own := S.Call.Stop(q);
      FirstCall(st, own, acts);
      LinkedDo(st, p1, own, installing);
      assert StopAll(p1, [q]) == Stop(p1, q) by { StopOne(p1, q); }
      LinkedCalls(S.Do(st, own), Stop(p1, q), acts, installing);
    case ProtocolError =>
      var own := S.Call.Close(app.order(n), app.reactions(n));
      FirstCall(st, own, acts);
      PairedClose(st, p1, app.order(n), app.reactions(n), installing);
      LinkedCalls(S.Do(st, own), StopEvery(p1), acts, installing);
  }

  lemma PairedLog(st: S.State, p: Plane, q: Plane, installing: Option<u64>)
    requires Paired(st, p, installing) && q == p.(log := q.log)
    ensures Paired(st, q, installing)
  {
    hide Table, SI.Sound, SI.Shut;
    SameTable(p, q);
  }

  lemma StopOne(p: Plane, q: u64)
    ensures StopAll(p, [q]) == Stop(p, q)
  {
    hide Stop;
    assert [q][1..] == [] && StopAll(Stop(p, q), []) == Stop(p, q);
  }

  lemma FirstCall(st: S.State, c: S.Call, rest: seq<S.Call>)
    ensures S.DoAll(st, [c] + rest) == S.DoAll(S.Do(st, c), rest)
    ensures S.AllowedCalls(st, [c] + rest) <==> S.AllowedCall(st, c) && S.AllowedCalls(S.Do(st, c), rest)
  {
    hide S.Do, S.AllowedCall;
    assert ([c] + rest)[0] == c && ([c] + rest)[1..] == rest;
  }

  lemma PairedClose(st: S.State, p: Plane, order: seq<u64>, reactions: seq<seq<S.Quick>>, installing: Option<u64>)
    requires Paired(st, p, installing) && S.AllowedCall(st, S.Call.Close(order, reactions))
    ensures Paired(S.Shutdown(st, order, reactions), StopEvery(p), installing)
  {
    hide SI.Core, SI.Routes, Table, Linked, S.Shutdown, Calm, SI.Later;
    SI.DoSound(st, S.Call.Close(order, reactions), installing);
    assert Table(StopEvery(p)) by { StopEveryTable(p); }
    StopEveryEffect(p);
    LinkedClose(st, p, order, reactions, StopEvery(p), installing);
  }

  lemma StopEveryTable(p: Plane)
    requires Table(p)
    ensures Table(StopEvery(p))
  {
    hide Table, StopEvery;
    StopEveryCalm(p);
  }

  lemma StopEveryEffect(p: Plane)
    ensures var q := StopEvery(p);
            && q.busy == p.busy && q.states.Keys == p.states.Keys && q.owned == map[]
            && q.stopped == (p.stopped || p.busy.Some?)
  {
  }

  // ----- the operations of the plane -----

  lemma LeadsDeliver(app: App, p: Plane, o: Object, installing: Option<u64>)
    ensures Leads(app, p, DataPlanes.Deliver(ContextOf(app), p, o), installing)
  {
    hide Leads, Emit, Table;
    if o.request in p.states {
      var x, r := ContextOf(app), p.states[o.request];
      match Delivery.FateOf(r, o)
      case Ignored => LeadsQuietly(app, p, p, installing);
      case Malformed => LeadsEmit(app, p, TrackError(o.request), installing);
      case Handed =>
        var p1 := p.(states := p.states[o.request := Delivery.Delivered(r, o)]);
        RecordCalm(p, o.request, Delivery.Delivered(r, o));
        LeadsQuietly(app, p, p1, installing);
        LeadsEmit(app, p1, HandedOver(o), installing);
        LeadsJoin(app, p, p1, Emit(x, p1, HandedOver(o)), installing);
    } else {
      LeadsQuietly(app, p, p, installing);
    }
  }

  lemma LeadsMark(app: App, p: Plane, q: u64, group: u64, id: u64, installing: Option<u64>)
    ensures Leads(app, p, Mark(p, q, group, id), installing)
  {
    hide Leads, Table;
    MarkCalm(p, q, group, id);
    LeadsQuietly(app, p, Mark(p, q, group, id), installing);
  }

  lemma LeadsAbort(app: App, p: Plane, s: u64, installing: Option<u64>)
    ensures Leads(app, p, p.(log := p.log + [AbortReceive(s)]), installing)
  {
    hide Table, SI.Sound, SI.Shut;
    var q := p.(log := p.log + [AbortReceive(s)]);
    LastAnswer(app, q.log);
    forall st
      ensures LeadsFrom(app, st, p, q, installing)
    {
      assert S.DoAll(st, []) == st;
      if Paired(st, p, installing) {
        SameTable(p, q);
      }
    }
  }

  lemma LeadsApply(app: App, p: Plane, s: u64, c: Call, installing: Option<u64>)
    ensures Leads(app, p, Apply(ContextOf(app), p, s, c), installing)
  {
    hide Leads, Emit, DataPlanes.Deliver, Mark, Table;
    match c
    case Deliver(o) => LeadsDeliver(app, p, o, installing);
    case Fail => LeadsEmit(app, p, ProtocolError, installing);
    case GroupFinal(q, group, id) => LeadsMark(app, p, q, group, id, installing);
    case Park(alias) =>
      var q := DataPlanes.Park(p, alias, s);
      assert Table(p) ==> Table(q) by {
        if Table(p) {
          SameTable(p, q);
        }
      }
      LeadsQuietly(app, p, q, installing);
    case Unpark(alias) =>
      var q := Discard(p, alias, s);
      assert Table(p) ==> Table(q) by {
        if Table(p) {
          SameTable(p, q);
        }
      }
      LeadsQuietly(app, p, q, installing);
    case Abort => LeadsAbort(app, p, s, installing);
  }

  lemma {:induction false} LeadsApplyAll(app: App, p: Plane, s: u64, calls: seq<Call>, installing: Option<u64>)
    ensures Leads(app, p, ApplyAll(ContextOf(app), p, s, calls), installing)
    decreases |calls|
  {
    hide Leads, Apply, Table;
    if calls == [] {
      LeadsQuietly(app, p, p, installing);
    } else {
      var x := ContextOf(app);
      var p1 := Apply(x, p, s, calls[0]);
      LeadsApply(app, p, s, calls[0], installing);
      LeadsApplyAll(app, p1, s, calls[1..], installing);
      LeadsJoin(app, p, p1, ApplyAll(x, p, s, calls), installing);
    }
  }

  lemma LeadsWith(app: App, p: Plane, s: u64, rx: Receiver, installing: Option<u64>)
    ensures Leads(app, p, With(p, s, rx), installing)
  {
    hide Leads, Table;
    var q := With(p, s, rx);
    assert Table(p) ==> Table(q) by {
      if Table(p) {
        SameTable(p, q);
      }
    }
    LeadsQuietly(app, p, q, installing);
  }

  lemma LeadsBecomes(app: App, p: Plane, s: u64, o: Outcome, installing: Option<u64>)
    ensures Leads(app, p, Becomes(ContextOf(app), p, s, o), installing)
  {
    hide Leads, ApplyAll;
    LeadsWith(app, p, s, o.rx, installing);
    LeadsApplyAll(app, With(p, s, o.rx), s, o.calls, installing);
    LeadsJoin(app, p, With(p, s, o.rx), Becomes(ContextOf(app), p, s, o), installing);
  }

  lemma LeadsReceive(app: App, p: Plane, s: u64, received: bytes, fin: bool, installing: Option<u64>)
    ensures Leads(app, p, StreamReceive(ContextOf(app), p, s, received, fin), installing)
  {
    hide Leads, Becomes, Receive, Table;
    var x := ContextOf(app);
    if s in p.receivers {
      LeadsBecomes(app, p, s, Receive(p.receivers[s], EnvOf(x, p, s), received, fin), installing);
    } else {
      LeadsQuietly(app, p, p, installing);
    }
  }

  lemma LeadsStart(app: App, p: Plane, s: u64, prefix: bytes, fin: bool, installing: Option<u64>)
    ensures Leads(app, p, StartStream(ContextOf(app), p, s, prefix, fin), installing)
  {
    hide Leads, StreamReceive, Table;
    if s in p.receivers {
      LeadsQuietly(app, p, p, installing);
    } else {
      var p1 := With(p, s, Opening(prefix));
      LeadsWith(app, p, s, Opening(prefix), installing);
      LeadsReceive(app, p1, s, [], fin, installing);
      LeadsJoin(app, p, p1, StreamReceive(ContextOf(app), p1, s, [], fin), installing);
    }
  }

  lemma LeadsAborted(app: App, p: Plane, s: u64, installing: Option<u64>)
    ensures Leads(app, p, StreamAborted(p, s), installing)
  {
    hide Leads, Table;
    var q := StreamAborted(p, s);
    assert Table(p) ==> Table(q) by {
      if Table(p) {
        SameTable(p, q);
      }
    }
    LeadsQuietly(app, p, q, installing);
  }

  lemma LeadsBody(app: App, p: Plane, h: Datagrams.Head, body: Parse<Object>, installing: Option<u64>)
    ensures Leads(app, p, DeliverBody(ContextOf(app), p, h, body), installing)
  {
    hide Leads, Emit, DataPlanes.Deliver, Mark, Table;
    match body
    case Done(o, _) =>
      var p1 := if h.flags.endOfGroup then Mark(p, o.request, h.group, h.id) else p;
      LeadsQuietly(app, p, p, installing);
      LeadsMark(app, p, o.request, h.group, h.id, installing);
      LeadsDeliver(app, p1, o, installing);
      LeadsJoin(app, p, p1, DataPlanes.Deliver(ContextOf(app), p1, o), installing);
    case _ => LeadsEmit(app, p, ProtocolError, installing);
  }

  lemma LeadsHeld(app: App, p: Plane, q: Plane, installing: Option<u64>)
    requires q == p.(datagrams := q.datagrams, heldBytes := q.heldBytes)
    ensures Leads(app, p, q, installing)
  {
    hide Leads, Table;
    assert Table(p) ==> Table(q) by {
      if Table(p) {
        SameTable(p, q);
      }
    }
    LeadsQuietly(app, p, q, installing);
  }

  lemma LeadsHold(app: App, p: Plane, alias: u64, d: bytes, installing: Option<u64>)
    ensures Leads(app, p, Hold(ContextOf(app), p, alias, d), installing)
  {
    hide Leads, Emit;
    if app.config.policy.Error? {
      LeadsEmit(app, p, ProtocolError, installing);
    } else {
      LeadsHeld(app, p, Hold(ContextOf(app), p, alias, d), installing);
    }
  }

  lemma LeadsDatagram(app: App, p: Plane, d: bytes, allow: bool, installing: Option<u64>)
    ensures Leads(app, p, DeliverDatagram(ContextOf(app), p, d, allow), installing)
  {
    hide Leads, Emit, DeliverBody, Datagrams.ParseHead, Datagrams.ParseBody, Varint.Take, Hold, Table;
    LeadsEmit(app, p, ProtocolError, installing);
    LeadsQuietly(app, p, p, installing);
    var head := Datagrams.ParseHead(d);
    if head.Done? {
      var h := head.value;
      LeadsHold(app, p, h.alias, d, installing);
      if h.alias in p.routes {
        LeadsBody(app, p, h, Datagrams.ParseBody(h, head.rest, p.routes[h.alias]), installing);
      }
    }
  }

  lemma {:induction false} LeadsReplayed(app: App, p: Plane, ds: seq<bytes>, installing: Option<u64>)
    ensures Leads(app, p, ReplayDatagrams(ContextOf(app), p, ds), installing)
    decreases |ds|
  {
    hide Leads, DeliverDatagram, Table;
    if ds == [] {
      LeadsQuietly(app, p, p, installing);
    } else {
      var x, left := ContextOf(app), if |ds[0]| <= p.heldBytes then p.heldBytes - |ds[0]| else 0;
      var p1 := p.(heldBytes := left);
      var p2 := DeliverDatagram(x, p1, ds[0], false);
      LeadsHeld(app, p, p1, installing);
      LeadsDatagram(app, p1, ds[0], false, installing);
      LeadsJoin(app, p, p1, p2, installing);
      LeadsReplayed(app, p2, ds[1..], installing);
      LeadsJoin(app, p, p2, ReplayDatagrams(x, p, ds), installing);
    }
  }

  lemma {:induction false} LeadsEstablished(app: App, p: Plane, ss: seq<u64>, request: u64, installing: Option<u64>)
    ensures Leads(app, p, ReplayStreams(ContextOf(app), p, ss, request), installing)
    decreases |ss|
  {
    hide Leads, Becomes, Establish, Table;
    var x := ContextOf(app);
    if ss == [] {
      LeadsQuietly(app, p, p, installing);
    } else if ss[0] in p.receivers {
      var o := Establish(p.receivers[ss[0]], ss[0], request);
      var p1 := Becomes(x, p, ss[0], o);
      LeadsBecomes(app, p, ss[0], o, installing);
      LeadsEstablished(app, p1, ss[1..], request, installing);
      LeadsJoin(app, p, p1, ReplayStreams(x, p, ss, request), installing);
    } else {
      LeadsEstablished(app, p, ss[1..], request, installing);
    }
  }

  lemma LeadsReplay(app: App, p: Plane, alias: u64, request: u64, installing: Option<u64>)
    ensures Leads(app, Claimed(p, alias, request), Replay(ContextOf(app), p, alias, request), installing)
  {
    hide Leads, ReplayDatagrams, ReplayStreams, Claimed;
    var x, q := ContextOf(app), Claimed(p, alias, request);
    var q1 := ReplayDatagrams(x, q, Held(p, alias));
    LeadsReplayed(app, q, Held(p, alias), installing);
    LeadsEstablished(app, q1, Streams(p, alias), request, installing);
    LeadsJoin(app, q, q1, Replay(x, p, alias, request), installing);
  }
}

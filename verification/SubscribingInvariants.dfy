/** What every step of the subscriber session keeps, in every run. */
module SubscribingInvariants {
  import opened Basics
  import opened Subscribing

  /**
   * A request holds its result exactly while it is pending, and was granted the alias it has; only an
   * established one has updates.
   */
  predicate RequestOkay(st: State, id: u64)
    requires id in st.requests
  {
    var r := st.requests[id];
    && (r.resultHeld <==> r.phase.Pending?) && (r.alias.None? <==> r.phase.Pending?)
    && (r.updates != [] ==> r.phase.Established?)
    && id in st.roles && st.roles[id] == ForSubscribe && id in st.history
    && (r.phase.Pending? <==> id !in st.settled)
    && (!r.phase.Pending? ==> st.settled[id] == Granted(r.alias.value))
  }

  predicate Requests(st: State) {
    forall id :: id in st.requests ==> RequestOkay(st, id)
  }

  /** Request IDs are even and rise; every promise is settled or still held by someone. */
  predicate Promised(st: State) {
    && st.nextId % 2 == 0
    && (forall p :: p in st.roles ==> p % 2 == 0 && p < st.nextId && Kept(st, p))
    && (forall p :: p in st.settled ==> p in st.roles)
    && (forall id :: id in st.history ==> id in st.roles && st.roles[id] == ForSubscribe)
  }

  predicate Kept(st: State, p: u64)
    requires p in st.roles
  {
    match st.roles[p]
    case ForSubscribe => p in st.settled || p in st.requests
    case ForUpdate(id, k) => id in st.history && k < |st.history[id].sent| && st.history[id].sent[k] == p
    case Unsent => p in st.settled && st.settled[p] == Failed
  }

  /** The k-th REQUEST_OK settled the k-th update sent; the others wait, or failed for one common reason. */
  predicate HistoryOkay(st: State, id: u64)
    requires id in st.history
  {
    var h := st.history[id];
    && |h.oks| <= |h.sent|
    && (forall k :: 0 <= k < |h.sent| ==> h.sent[k] in st.roles && st.roles[h.sent[k]] == ForUpdate(id, k))
    && (forall k :: 0 <= k < |h.oks| ==> h.sent[k] in st.settled && st.settled[h.sent[k]] == Answered(h.oks[k]))
    && if id in st.requests && st.requests[id].phase.Pending? then h == History([], [], None)
       else if id in st.requests && st.requests[id].phase.Established? then
         && h.error.None? && st.requests[id].updates == h.sent[|h.oks|..]
         && (forall k :: |h.oks| <= k < |h.sent| ==> h.sent[k] !in st.settled)
       else
         && (id in st.requests ==> h.error.Some?)
         && (forall k :: |h.oks| <= k < |h.sent| ==>
               h.sent[k] in st.settled && st.settled[h.sent[k]] ==
                   if h.error.Some? then Rejected(h.error.value) else Failed)
  }

  predicate Histories(st: State) {
    forall id :: id in st.history ==> HistoryOkay(st, id)
  }

  /** A route of the table: active, and of a live request that holds its alias, unless it is being installed. */
  predicate RouteOkay(st: State, alias: u64, installing: Option<u64>)
    requires alias in st.routes
  {
    && st.routes[alias] < |st.store|
    && var route := st.store[st.routes[alias]];
       && route.active && route.alias == alias
       && (installing != Some(alias) ==>
             route.request in st.requests && st.requests[route.request].alias == Some(alias))
  }

  /** A live request's alias is bound to its own route. */
  predicate Bound(st: State, id: u64, installing: Option<u64>)
    requires id in st.requests
  {
    var alias := st.requests[id].alias;
    alias.Some? ==>
      && alias != installing && alias.value in st.routes && st.routes[alias.value] < |st.store|
      && st.store[st.routes[alias.value]].request == id
  }

  /** The route table is exactly the live requests with an alias, and nothing else delivers. */
  predicate Routes(st: State, installing: Option<u64>) {
    && (forall alias :: alias in st.routes ==> RouteOkay(st, alias, installing))
    && (forall id :: id in st.requests ==> Bound(st, id, installing))
    && (forall i :: 0 <= i < |st.store| && st.store[i].active ==>
          st.store[i].alias in st.routes && st.routes[st.store[i].alias] == i)
  }

  predicate Core(st: State) {
    Requests(st) && Promised(st) && Histories(st) && !st.broken
  }

  /** What holds between events, and with `installing` also while an alias is being bound. */
  predicate Sound(st: State, installing: Option<u64>) {
    Core(st) && Routes(st, installing)
  }

  /** A closed session has no request left; this holds except inside the closing loop itself. */
  predicate Shut(st: State) {
    !st.ready ==> st.requests == map[]
  }

  /** What holds between events. */
  predicate Good(st: State) {
    Sound(st, None) && Shut(st)
  }

  // ----- settling -----

  /** The promises `ps` that were open are settled with `v`; no other promise is touched. */
  predicate Settles(before: map<u64, Verdict>, after: map<u64, Verdict>, ps: set<u64>, v: Verdict) {
    && after.Keys == before.Keys + ps
    && (forall p :: p in before ==> after[p] == before[p])
    && (forall p :: p in ps && p !in before ==> after[p] == v)
  }

  function Members(ps: seq<u64>): set<u64> {
    set p | p in ps
  }

  lemma SettlesTwice(a: map<u64, Verdict>, b: map<u64, Verdict>, c: map<u64, Verdict>, ps: set<u64>, qs: set<u64>,
                     v: Verdict)
    requires Settles(a, b, ps, v) && Settles(b, c, qs, v)
    ensures Settles(a, c, ps + qs, v)
  {
  }

  lemma FailSettles(st: State, p: u64, v: Verdict)
    ensures Settles(st.settled, Fail(st, p, v).settled, {p}, v)
  {
  }

  lemma {:induction false} FailAllEffect(st: State, ps: seq<u64>, v: Verdict)
    ensures var r := FailAll(st, ps, v);
            r == st.(settled := r.settled) && Settles(st.settled, r.settled, Members(ps), v)
    decreases |ps|
  {
    if ps == [] {
      assert Members(ps) == {};
    } else {
      hide Settles;
      var st1 := Fail(st, ps[0], v);
      FailSettles(st, ps[0], v);
      FailAllEffect(st1, ps[1..], v);
      SettlesTwice(st.settled, st1.settled, FailAll(st, ps, v).settled, {ps[0]}, Members(ps[1..]), v);
      assert Members(ps) == {ps[0]} + Members(ps[1..]);
    }
  }

  /** What termination settles: the result if it is held, and the waiting updates. */
  function Due(st: State, id: u64): set<u64>
    requires id in st.requests
  {
    Members(st.requests[id].updates) + if st.requests[id].resultHeld then {id} else {}
  }

  lemma FailDueEffect(st: State, id: u64)
    requires id in st.requests
    ensures var r := FailDue(st, id, st.requests[id]);
            r == st.(settled := r.settled) && Settles(st.settled, r.settled, Due(st, id), Failed)
  {
    hide FailAll, Members, Settles;
    var q := st.requests[id];
    var st1 := if q.resultHeld then Fail(st, id, Failed) else st;
    FailAllEffect(st1, q.updates, Failed);
    if q.resultHeld {
      FailSettles(st, id, Failed);
      SettlesTwice(st.settled, st1.settled, FailAll(st1, q.updates, Failed).settled, {id}, Members(q.updates), Failed);
      assert Due(st, id) == {id} + Members(q.updates);
    } else {
      assert Due(st, id) == Members(q.updates);
    }
  }

  lemma TerminateEffect(st: State, id: u64)
    requires id in st.requests
    ensures var r := Terminate(st, id); var alias := st.requests[id].alias;
            && r == st.(requests := st.requests - {id}, settled := r.settled, routes := r.routes, store := r.store)
            && Settles(st.settled, r.settled, Due(st, id), Failed)
            && r.routes == (if alias.Some? then Retire(st, alias.value).routes else st.routes)
            && r.store == (if alias.Some? then Retire(st, alias.value).store else st.store)
  {
    hide FailDue, Due, Settles;
    FailDueEffect(st, id);
  }

  /** The table without one request and the route of its alias. */
  lemma DropRoutes(st: State, id: u64, installing: Option<u64>, r: State)
    requires Routes(st, installing) && id in st.requests && r.requests == st.requests - {id}
    requires var alias := st.requests[id].alias;
             if alias.Some? then r.routes == Retire(st, alias.value).routes && r.store == Retire(st, alias.value).store
             else r.routes == st.routes && r.store == st.store
    ensures Routes(r, installing)
  {
    assert Bound(st, id, installing);
    forall alias | alias in r.routes
      ensures RouteOkay(r, alias, installing)
    {
      assert RouteOkay(st, alias, installing);
    }
    forall other | other in r.requests
      ensures Bound(r, other, installing)
    {
      assert Bound(st, other, installing);
    }
  }

  lemma TerminateRoutes(st: State, id: u64, installing: Option<u64>)
    requires Routes(st, installing) && id in st.requests
    ensures Routes(Terminate(st, id), installing)
  {
    hide Terminate, Settles, Routes, Retire;
    TerminateEffect(st, id);
    DropRoutes(st, id, installing, Terminate(st, id));
  }

  lemma TerminateCore(st: State, id: u64)
    requires Core(st) && id in st.requests
    ensures Core(Terminate(st, id))
  {
    hide Terminate, Requests, Promised, Histories, Settles;
    TerminateEffect(st, id);
    DroppedCore(st, id, Terminate(st, id), Failed);
  }

  lemma DroppedCore(st: State, id: u64, r: State, v: Verdict)
    requires Core(st) && Dropped(st, id, r, v)
    ensures Core(r)
  {
    hide Requests, Promised, Histories, Dropped;
    DropRequests(st, id, r, v);
    DropPromised(st, id, r, v);
    DropHistories(st, id, r, v);
    assert r.broken == st.broken by { DroppedUnbroken(st, id, r, v); }
  }

  lemma DroppedUnbroken(st: State, id: u64, r: State, v: Verdict)
    requires Dropped(st, id, r, v)
    ensures r.broken == st.broken
  {
  }

  /** `r` is `st` without the request, everything due on it settled with `v`. */
  predicate Dropped(st: State, id: u64, r: State, v: Verdict) {
    && id in st.requests && r.requests == st.requests - {id} && r.roles == st.roles && r.history == st.history
    && r.nextId == st.nextId && r.broken == st.broken && Settles(st.settled, r.settled, Due(st, id), v)
    && (v == Failed || st.requests[id].phase.Pending?)
  }

  /** The updates of a request are promises of its own. */
  lemma OwnUpdates(st: State, id: u64, p: u64)
    requires Requests(st) && Histories(st) && id in st.requests && p in st.requests[id].updates
    ensures p in st.roles && st.roles[p].ForUpdate? && st.roles[p].request == id
  {
    assert RequestOkay(st, id) && HistoryOkay(st, id);
    var h := st.history[id];
    var i :| 0 <= i < |st.requests[id].updates| && st.requests[id].updates[i] == p;
    assert h.sent[|h.oks|..][i] == h.sent[|h.oks| + i];
  }

  lemma DropRequests(st: State, id: u64, r: State, v: Verdict)
    requires Requests(st) && Histories(st) && Dropped(st, id, r, v)
    ensures Requests(r)
  {
    hide HistoryOkay;
    forall other | other in r.requests
      ensures RequestOkay(r, other)
    {
      assert RequestOkay(st, other);
      if other in Members(st.requests[id].updates) {
        OwnUpdates(st, id, other);
      }
    }
  }

  lemma DropPromised(st: State, id: u64, r: State, v: Verdict)
    requires Requests(st) && Promised(st) && Histories(st) && Dropped(st, id, r, v)
    ensures Promised(r)
  {
    hide HistoryOkay;
    assert RequestOkay(st, id);
    forall p | p in Due(st, id)
      ensures p in st.roles
    {
      if p in st.requests[id].updates {
        OwnUpdates(st, id, p);
      }
    }
    forall p | p in r.roles
      ensures Kept(r, p)
    {
      assert Kept(st, p);
    }
  }

  lemma DropHistories(st: State, id: u64, r: State, v: Verdict)
    requires Requests(st) && Histories(st) && Dropped(st, id, r, v)
    ensures Histories(r)
  {
    forall other | other in r.history
      ensures HistoryOkay(r, other)
    {
      DropHistory(st, id, r, v, other);
    }
  }

  lemma DropHistory(st: State, id: u64, r: State, v: Verdict, other: u64)
    requires Requests(st) && Histories(st) && Dropped(st, id, r, v) && other in st.history
    ensures HistoryOkay(r, other)
  {
    if other == id {
      DropOwnHistory(st, id, r, v);
    } else {
      hide Settles, Due, HistoryOkay;
      var h := st.history[other];
      assert forall k :: 0 <= k < |h.sent| ==> h.sent[k] in st.roles && st.roles[h.sent[k]] == ForUpdate(other, k) by {
        SentRoles(st, other);
      }
      forall k | 0 <= k < |h.sent|
        ensures h.sent[k] in r.settled <==> h.sent[k] in st.settled
        ensures h.sent[k] in st.settled ==> r.settled[h.sent[k]] == st.settled[h.sent[k]]
      {
        NotDue(st, id, h.sent[k], r, v);
      }
      SameHistory(st, r, other);
    }
  }

  lemma SentRoles(st: State, id: u64)
    requires id in st.history && HistoryOkay(st, id)
    ensures var h := st.history[id];
            forall k :: 0 <= k < |h.sent| ==> h.sent[k] in st.roles && st.roles[h.sent[k]] == ForUpdate(id, k)
  {
  }

  /** A history stays in order if its request and the verdicts on its updates stay as they are. */
  lemma SameHistory(st: State, r: State, id: u64)
    requires id in st.history && HistoryOkay(st, id) && id in r.history && r.history[id] == st.history[id]
    requires r.roles == st.roles && (id in r.requests <==> id in st.requests)
    requires id in st.requests ==> r.requests[id] == st.requests[id]
    requires var h := st.history[id]; forall k :: 0 <= k < |h.sent| ==>
               && (h.sent[k] in r.settled <==> h.sent[k] in st.settled)
               && (h.sent[k] in st.settled ==> r.settled[h.sent[k]] == st.settled[h.sent[k]])
    ensures HistoryOkay(r, id)
  {
  }

  /** Promises of other requests are left alone. */
  lemma NotDue(st: State, id: u64, p: u64, r: State, v: Verdict)
    requires Requests(st) && Histories(st) && Dropped(st, id, r, v)
    requires p in st.roles && st.roles[p].ForUpdate? && st.roles[p].request != id
    ensures (p in r.settled <==> p in st.settled) && (p in st.settled ==> r.settled[p] == st.settled[p])
  {
    hide HistoryOkay;
    assert RequestOkay(st, id);
    if p in Members(st.requests[id].updates) {
      OwnUpdates(st, id, p);
    }
  }

  lemma DropOwnHistory(st: State, id: u64, r: State, v: Verdict)
    requires Requests(st) && Histories(st) && Dropped(st, id, r, v)
    ensures id in st.history && HistoryOkay(r, id)
  {
    assert RequestOkay(st, id) && HistoryOkay(st, id);
    var h := st.history[id];
    if st.requests[id].phase.Established? {
      forall k | |h.oks| <= k < |h.sent|
        ensures h.sent[k] in Due(st, id)
      {
        assert h.sent[|h.oks|..][k - |h.oks|] == h.sent[k];
      }
    }
  }

  // ----- what calls can do -----

  /**
   * What no call undoes: settled promises keep their verdict, a pending request is as it was or gone,
   * no route comes back to life, and the alias that is being bound stays bound as it is.
   */
  predicate Later(st: State, r: State, installing: Option<u64>) {
    && (forall p :: p in st.settled ==> p in r.settled && r.settled[p] == st.settled[p])
    && (forall id :: id in st.requests && id in r.requests && st.requests[id].phase.Pending? ==>
        r.requests[id] == st.requests[id])
    && |r.store| == |st.store|
    && (forall i :: 0 <= i < |st.store| ==> r.store[i] == st.store[i] || r.store[i] == st.store[i].(active := false))
    && (installing.Some? && installing.value in st.routes ==>
          installing.value in r.routes && r.routes[installing.value] == st.routes[installing.value])
    && (forall id :: id in r.requests && id !in st.requests ==> id !in st.roles)
    && (forall p :: p in st.roles ==> p in r.roles && r.roles[p] == st.roles[p])
    && (!st.ready ==> !r.ready)
  }

  lemma LaterTwice(a: State, b: State, c: State, installing: Option<u64>)
    requires Later(a, b, installing) && Later(b, c, installing)
    requires forall id :: id in a.requests ==> id in a.roles
    ensures Later(a, c, installing)
  {
    forall id | id in a.requests && id in c.requests && a.requests[id].phase.Pending?
      ensures c.requests[id] == a.requests[id]
    {
      assert id in b.requests;
    }
  }

  lemma TerminateSound(st: State, id: u64, installing: Option<u64>)
    requires Sound(st, installing)
    ensures Sound(Terminate(st, id), installing) && Later(st, Terminate(st, id), installing)
    ensures Terminate(st, id).requests == st.requests - {id} && Terminate(st, id).ready == st.ready
  {
    if id in st.requests {
      hide Terminate, Core, Requests, Promised, Histories, Routes;
      TerminateEffect(st, id);
      TerminateCore(st, id);
      TerminateRoutes(st, id, installing);
      TerminateLater(st, id, installing);
    } else {
      assert st.requests - {id} == st.requests;
    }
  }

  lemma TerminateLater(st: State, id: u64, installing: Option<u64>)
    requires Sound(st, installing) && id in st.requests
    ensures Later(st, Terminate(st, id), installing)
  {
    hide Terminate, Core;
    TerminateEffect(st, id);
    assert Bound(st, id, installing);
  }

  lemma UpdateRoutes(st: State, id: u64, sendOk: bool, installing: Option<u64>)
    requires Routes(st, installing)
    ensures Routes(RequestUpdate(st, id, sendOk), installing)
  {
    var r := RequestUpdate(st, id, sendOk);
    forall other | other in r.requests
      ensures Bound(r, other, installing)
    {
      assert Bound(st, other, installing);
    }
    forall alias | alias in r.routes
      ensures RouteOkay(r, alias, installing)
    {
      assert RouteOkay(st, alias, installing);
    }
  }

  lemma UpdateCore(st: State, id: u64, sendOk: bool)
    requires Core(st)
    ensures Core(RequestUpdate(st, id, sendOk))
  {
    hide RequestOkay, HistoryOkay, Kept;
    var r := RequestUpdate(st, id, sendOk);
    if r != st {
      var p := st.nextId;
      assert p !in st.roles && p !in st.settled;
      forall other | other in r.requests
        ensures RequestOkay(r, other)
      {
        UpdateRequest(st, id, sendOk, other);
      }
      forall q | q in r.roles
        ensures q % 2 == 0 && q < r.nextId && Kept(r, q)
      {
        UpdateKept(st, id, sendOk, q);
      }
      forall other | other in r.history
        ensures HistoryOkay(r, other)
      {
        UpdateHistory(st, id, sendOk, other);
      }
    }
  }

  lemma UpdateRequest(st: State, id: u64, sendOk: bool, other: u64)
    requires Core(st) && other in st.requests && RequestUpdate(st, id, sendOk) != st
    ensures RequestOkay(RequestUpdate(st, id, sendOk), other)
  {
    hide HistoryOkay;
    assert RequestOkay(st, other);
    assert st.nextId !in st.roles;
  }

  lemma UpdateKept(st: State, id: u64, sendOk: bool, q: u64)
    requires Core(st) && RequestUpdate(st, id, sendOk) != st && q in RequestUpdate(st, id, sendOk).roles
    ensures var r := RequestUpdate(st, id, sendOk); q % 2 == 0 && q < r.nextId && Kept(r, q)
  {
    hide HistoryOkay, RequestOkay;
    if q != st.nextId {
      assert Kept(st, q);
    }
  }

  lemma UpdateHistory(st: State, id: u64, sendOk: bool, other: u64)
    requires Core(st) && RequestUpdate(st, id, sendOk) != st && other in st.history
    ensures HistoryOkay(RequestUpdate(st, id, sendOk), other)
  {
    hide RequestOkay, Kept;
    assert HistoryOkay(st, other);
    assert st.nextId !in st.roles && st.nextId !in st.settled;
    if sendOk && other == id {
      UpdateOwnHistory(st, id);
    } else {
      var r := RequestUpdate(st, id, sendOk);
      assert r.history[other] == st.history[other];
      assert other in st.requests ==> r.requests[other] == st.requests[other];
    }
  }

  lemma UpdateOwnHistory(st: State, id: u64)
    requires id in st.history && HistoryOkay(st, id) && RequestUpdate(st, id, true) != st
    requires st.nextId !in st.roles && st.nextId !in st.settled
    ensures HistoryOkay(RequestUpdate(st, id, true), id)
  {
    var h := st.history[id];
    assert (h.sent + [st.nextId])[|h.oks|..] == h.sent[|h.oks|..] + [st.nextId];
  }

  lemma UpdateSound(st: State, id: u64, sendOk: bool, installing: Option<u64>)
    requires Sound(st, installing)
    ensures var r := RequestUpdate(st, id, sendOk);
            && Sound(r, installing) && Later(st, r, installing) && r.requests.Keys == st.requests.Keys
                && r.ready == st.ready
  {
    hide Core, Routes, Later, RequestUpdate;
    UpdateCore(st, id, sendOk);
    UpdateRoutes(st, id, sendOk, installing);
    UpdateLater(st, id, sendOk, installing);
  }

  lemma UpdateLater(st: State, id: u64, sendOk: bool, installing: Option<u64>)
    requires Core(st)
    ensures var r := RequestUpdate(st, id, sendOk);
            Later(st, r, installing) && r.requests.Keys == st.requests.Keys && r.ready == st.ready
  {
    hide Core;
    if st.nextId <= MAX64 - 2 {
      UnusedId(st);
    }
  }

  /** The state behind the insertion of a new request, before it is sent. */
  function Inserted(st: State): State
    requires st.nextId <= MAX64 - 2
  {
    var id := st.nextId;
    st.(nextId := id + 2, requests := st.requests[id := Request(Pending, None, true, [])],
        roles := st.roles[id := ForSubscribe], history := st.history[id := History([], [], None)])
  }

  /** A new Request ID is known nowhere. */
  lemma UnusedId(st: State)
    requires Core(st) && st.nextId <= MAX64 - 2
    ensures st.nextId !in st.roles && st.nextId !in st.settled && st.nextId !in st.requests && st.nextId !in st.history
  {
    hide HistoryOkay, Kept;
    assert forall id :: id in st.requests ==> RequestOkay(st, id);
  }

  lemma InsertedCore(st: State)
    requires Core(st) && st.nextId <= MAX64 - 2
    ensures Core(Inserted(st))
  {
    hide HistoryOkay, Kept, RequestOkay;
    UnusedId(st);
    var r := Inserted(st);
    forall other | other in r.requests
      ensures RequestOkay(r, other)
    {
      InsertedRequest(st, other);
    }
    forall p | p in r.roles
      ensures p % 2 == 0 && p < r.nextId && Kept(r, p)
    {
      InsertedKept(st, p);
    }
    forall other | other in r.history
      ensures HistoryOkay(r, other)
    {
      InsertedHistory(st, other);
    }
  }

  lemma InsertedRequest(st: State, other: u64)
    requires Core(st) && st.nextId <= MAX64 - 2 && other in Inserted(st).requests
    requires st.nextId !in st.settled && st.nextId !in st.history
    ensures RequestOkay(Inserted(st), other)
  {
    hide HistoryOkay, Kept;
    assert other != st.nextId ==> RequestOkay(st, other);
  }

  lemma InsertedKept(st: State, p: u64)
    requires Core(st) && st.nextId <= MAX64 - 2 && p in Inserted(st).roles && st.nextId !in st.history
    ensures p % 2 == 0 && p < st.nextId + 2 && Kept(Inserted(st), p)
  {
    hide HistoryOkay, RequestOkay;
    assert p != st.nextId ==> Kept(st, p);
  }

  lemma InsertedHistory(st: State, other: u64)
    requires Core(st) && st.nextId <= MAX64 - 2 && other in Inserted(st).history
    requires st.nextId !in st.roles
    ensures HistoryOkay(Inserted(st), other)
  {
    hide RequestOkay, Kept;
    assert other != st.nextId ==> HistoryOkay(st, other);
  }

  lemma InsertedSound(st: State, installing: Option<u64>)
    requires Sound(st, installing) && st.nextId <= MAX64 - 2
    ensures Sound(Inserted(st), installing) && Later(st, Inserted(st), installing)
  {
    hide Core;
    InsertedCore(st);
    UnusedId(st);
    var r := Inserted(st);
    forall other | other in r.requests
      ensures Bound(r, other, installing)
    {
      assert other != st.nextId ==> Bound(st, other, installing);
    }
    forall alias | alias in r.routes
      ensures RouteOkay(r, alias, installing)
    {
      assert RouteOkay(st, alias, installing);
    }
  }

  lemma SubscribeSound(st: State, sendOk: bool, installing: Option<u64>)
    requires Sound(st, installing)
    ensures var r := Subscribe(st, sendOk);
            Sound(r, installing) && Later(st, r, installing) && r.ready == st.ready && (!st.ready ==> r == st)
  {
    hide Core, Routes, Later, Terminate;
    LaterSame(st, installing);
    if st.ready && st.nextId <= MAX64 - 2 {
      var id := st.nextId;
      InsertedSound(st, installing);
      TerminateSound(Inserted(st), id, installing);
      RequestsHaveRoles(st);
      LaterTwice(st, Inserted(st), Terminate(Inserted(st), id), installing);
      TerminateSettles(Inserted(st), id);
    }
  }

  lemma TerminateSettles(st: State, id: u64)
    requires id in st.requests && st.requests[id].resultHeld
    ensures id in Terminate(st, id).settled
  {
    hide Terminate;
    TerminateEffect(st, id);
  }

  lemma LaterSame(st: State, installing: Option<u64>)
    ensures Later(st, st, installing)
  {
  }

  lemma RequestsHaveRoles(st: State)
    requires Core(st)
    ensures forall id :: id in st.requests ==> id in st.roles
  {
    hide HistoryOkay, Kept;
    assert forall id :: id in st.requests ==> RequestOkay(st, id);
  }

  // ----- the closing loop -----

  lemma {:induction false} QuickSound(st: State, qs: seq<Quick>, installing: Option<u64>)
    requires Sound(st, installing)
    ensures var r := DoQuick(st, qs);
            && Sound(r, installing) && Later(st, r, installing) && r.ready == st.ready
            && r.requests.Keys <= st.requests.Keys
    decreases |qs|
  {
    hide Core, Routes, Later, Terminate, RequestUpdate;
    LaterSame(st, installing);
    if qs != [] {
      var st1 := match qs[0] case StopNow(id) => Terminate(st, id) case UpdateNow(id, ok) => RequestUpdate(st, id, ok);
      match qs[0] {
        case StopNow(id) => TerminateSound(st, id, installing);
        case UpdateNow(id, ok) => UpdateSound(st, id, ok, installing);
      }
      QuickSound(st1, qs[1..], installing);
      RequestsHaveRoles(st);
      LaterTwice(st, st1, DoQuick(st, qs), installing);
    }
  }

  lemma {:induction false} TerminateAllSound(st: State, order: seq<u64>, reactions: seq<seq<Quick>>,
                                             installing: Option<u64>)
    requires Sound(st, installing)
    ensures var r := TerminateAll(st, order, reactions);
            && Sound(r, installing) && Later(st, r, installing) && r.ready == st.ready
            && (forall id :: id in r.requests ==> id in st.requests && id !in order)
    decreases |order|
  {
    hide Core, Routes, Later, Terminate, DoQuick;
    LaterSame(st, installing);
    if order != [] {
      var st1 := Terminate(st, order[0]);
      var st2 := if order[0] in st.requests && reactions != [] then DoQuick(st1, reactions[0]) else st1;
      TerminateSound(st, order[0], installing);
      if reactions != [] {
        QuickSound(st1, reactions[0], installing);
      }
      LaterSame(st1, installing);
      TerminateAllSound(st2, order[1..], if reactions == [] then [] else reactions[1..], installing);
      RequestsHaveRoles(st);
      LaterTwice(st, st1, st2, installing);
      LaterTwice(st, st2, TerminateAll(st, order, reactions), installing);
    }
  }

  // ----- calls -----

  lemma DoSound(st: State, c: Call, installing: Option<u64>)
    requires Sound(st, installing) && Shut(st) && AllowedCall(st, c)
    ensures var r := Do(st, c); Sound(r, installing) && Shut(r) && Later(st, r, installing)
  {
    hide Core, Routes, Later, Terminate, RequestUpdate, Subscribe, TerminateAll;
    LaterSame(st, installing);
    match c
    case Stop(id) => TerminateSound(st, id, installing);
    case Update(id, ok) => UpdateSound(st, id, ok, installing);
    case NewSubscription(ok) => SubscribeSound(st, ok, installing);
    case Close(order, reactions) =>
      if st.ready {
        ShutdownSound(st, order, reactions, installing);
      }
  }

  lemma ShutdownSound(st: State, order: seq<u64>, reactions: seq<seq<Quick>>, installing: Option<u64>)
    requires Sound(st, installing) && st.ready && forall id :: id in st.requests ==> id in order
    ensures var r := Shutdown(st, order, reactions);
            Sound(r, installing) && !r.ready && r.requests == map[] && Later(st, r, installing)
  {
    hide Core, Routes, Later, TerminateAll;
    var st1 := st.(ready := false);
    ReadyOnly(st, installing);
    TerminateAllSound(st1, order, reactions, installing);
    RequestsHaveRoles(st);
    LaterTwice(st, st1, Shutdown(st, order, reactions), installing);
  }

  lemma ReadyOnly(st: State, installing: Option<u64>)
    requires Sound(st, installing)
    ensures var r := st.(ready := false); Sound(r, installing) && Later(st, r, installing)
  {
    hide Core, Routes;
    CoreFrame(st, st.(ready := false));
    ReadyRoutes(st, installing);
  }

  /** Requests and promises are no concern of the routes or of the session's phase. */
  lemma CoreFrame(st: State, r: State)
    requires Core(st)
    requires r == st.(ready := r.ready, routes := r.routes, store := r.store)
    ensures Core(r)
  {
    hide RequestOkay, HistoryOkay, Kept;
    forall id | id in r.requests
      ensures RequestOkay(r, id)
    {
      RequestFrame(st, r, id);
    }
    forall p | p in r.roles
      ensures Kept(r, p)
    {
      KeptFrame(st, r, p);
    }
    forall id | id in r.history
      ensures HistoryOkay(r, id)
    {
      HistoryFrame(st, r, id);
    }
  }

  lemma RequestFrame(st: State, r: State, id: u64)
    requires id in st.requests && RequestOkay(st, id)
            && r == st.(ready := r.ready, routes := r.routes, store := r.store)
    ensures RequestOkay(r, id)
  {
  }

  lemma KeptFrame(st: State, r: State, p: u64)
    requires p in st.roles && Kept(st, p) && r == st.(ready := r.ready, routes := r.routes, store := r.store)
    ensures Kept(r, p)
  {
  }

  lemma HistoryFrame(st: State, r: State, id: u64)
    requires id in st.history && HistoryOkay(st, id) && r == st.(ready := r.ready, routes := r.routes, store := r.store)
    ensures HistoryOkay(r, id)
  {
  }

  lemma ReadyRoutes(st: State, installing: Option<u64>)
    requires Routes(st, installing)
    ensures Routes(st.(ready := false), installing)
  {
    var r := st.(ready := false);
    assert forall alias :: alias in st.routes ==> RouteOkay(st, alias, installing) ==> RouteOkay(r, alias, installing);
    assert forall id :: id in st.requests ==> Bound(st, id, installing) ==> Bound(r, id, installing);
  }

  lemma {:induction false} DoAllSound(st: State, calls: seq<Call>, installing: Option<u64>)
    requires Sound(st, installing) && Shut(st) && AllowedCalls(st, calls)
    ensures var r := DoAll(st, calls); Sound(r, installing) && Shut(r) && Later(st, r, installing)
    decreases |calls|
  {
    hide Core, Routes, Later, Do, Shut;
    LaterSame(st, installing);
    if calls != [] {
      DoSound(st, calls[0], installing);
      DoAllSound(Do(st, calls[0]), calls[1..], installing);
      RequestsHaveRoles(st);
      LaterTwice(st, Do(st, calls[0]), DoAll(st, calls), installing);
    }
  }

  // ----- messages -----

  /** The alias that is being bound points at the route of the pending request. */
  predicate Installing(st: State, id: u64, alias: u64) {
    && alias in st.routes && st.routes[alias] < |st.store| && st.store[st.routes[alias]].request == id
    && (id in st.requests ==> st.requests[id].phase.Pending?)
  }

  lemma InstallSound(st: State, id: u64, alias: u64)
    requires Sound(st, None) && id in st.requests && st.requests[id].phase.Pending? && alias !in st.routes
    ensures var r := InstallRoute(st, id, alias); Sound(r, Some(alias)) && Installing(r, id, alias)
  {
    hide Requests, Promised, Histories;
    var r := InstallRoute(st, id, alias);
    CoreFrame(st, r);
    forall other | other in r.requests
      ensures Bound(r, other, Some(alias))
    {
      assert Bound(st, other, None);
    }
    forall a | a in r.routes
      ensures RouteOkay(r, a, Some(alias))
    {
      assert a != alias ==> RouteOkay(st, a, None);
    }
  }

  lemma LaterInstalling(st: State, r: State, id: u64, alias: u64)
    requires Installing(st, id, alias) && Later(st, r, Some(alias)) && (id in r.requests ==> id in st.requests)
    ensures Installing(r, id, alias)
  {
  }

  /** The binding is undone when the request was stopped while its data was replayed. */
  lemma RetireSound(st: State, id: u64, alias: u64)
    requires Sound(st, Some(alias)) && Installing(st, id, alias) && id !in st.requests
    ensures Sound(Retire(st, alias), None)
  {
    hide Requests, Promised, Histories;
    var r := Retire(st, alias);
    CoreFrame(st, r);
    assert RouteOkay(st, alias, Some(alias));
    forall other | other in r.requests
      ensures Bound(r, other, None)
    {
      assert Bound(st, other, Some(alias));
    }
    forall a | a in r.routes
      ensures RouteOkay(r, a, None)
    {
      assert RouteOkay(st, a, Some(alias));
    }
  }

  /** The request becomes established; its promise was still open. */
  lemma EstablishSound(st: State, id: u64, alias: u64)
    requires Sound(st, Some(alias)) && Installing(st, id, alias) && id in st.requests
    ensures Sound(Establish(st, id, alias), None)
  {
    hide Requests, Promised, Histories;
    EstablishCore(st, id, alias);
    var r := Establish(st, id, alias);
    forall other | other in r.requests
      ensures Bound(r, other, None)
    {
      assert Bound(st, other, Some(alias));
    }
    forall a | a in r.routes
      ensures RouteOkay(r, a, None)
    {
      assert RouteOkay(st, a, Some(alias));
      NoAliasYet(st, id, a, alias);
    }
  }

  lemma NoAliasYet(st: State, id: u64, a: u64, alias: u64)
    requires Sound(st, Some(alias)) && Installing(st, id, alias) && a in st.routes && id in st.requests
    ensures a != alias ==> st.store[st.routes[a]].request != id
  {
    hide Promised, Histories, HistoryOkay;
    assert RequestOkay(st, id) && RouteOkay(st, a, Some(alias));
  }

  lemma EstablishCore(st: State, id: u64, alias: u64)
    requires Core(st) && id in st.requests && st.requests[id].phase.Pending?
    ensures Core(Establish(st, id, alias))
  {
    hide RequestOkay, HistoryOkay, Kept;
    var r := Establish(st, id, alias);
    PendingOpen(st, id);
    forall other | other in r.requests
      ensures RequestOkay(r, other)
    {
      EstablishRequest(st, id, alias, other);
    }
    forall p | p in r.roles
      ensures Kept(r, p)
    {
      assert Kept(st, p);
      EstablishKept(st, id, alias, p);
    }
    forall other | other in r.history
      ensures HistoryOkay(r, other)
    {
      EstablishHistory(st, id, alias, other);
    }
  }

  lemma PendingOpen(st: State, id: u64)
    requires Core(st) && id in st.requests && st.requests[id].phase.Pending?
    ensures id !in st.settled && id in st.roles
  {
    assert RequestOkay(st, id);
  }

  lemma EstablishRequest(st: State, id: u64, alias: u64, other: u64)
    requires Core(st) && id in st.requests && st.requests[id].phase.Pending? && other in st.requests
    ensures RequestOkay(Establish(st, id, alias), other)
  {
    hide HistoryOkay, Kept;
    assert RequestOkay(st, other) && RequestOkay(st, id);
  }

  lemma EstablishKept(st: State, id: u64, alias: u64, p: u64)
    requires id in st.requests && p in st.roles && Kept(st, p)
    ensures Kept(Establish(st, id, alias), p)
  {
  }

  lemma EstablishHistory(st: State, id: u64, alias: u64, other: u64)
    requires Core(st) && id in st.requests && st.requests[id].phase.Pending? && other in st.history
    ensures HistoryOkay(Establish(st, id, alias), other)
  {
    hide Kept;
    assert HistoryOkay(st, other) && RequestOkay(st, id);
  }

  lemma BindGood(st: State, id: u64, alias: u64, replay: seq<Call>)
    requires Good(st) && id in st.requests && st.requests[id].phase.Pending? && alias !in st.routes
    requires AllowedCalls(InstallRoute(st, id, alias), replay)
    ensures Good(Bind(st, id, alias, replay))
  {
    hide Core, Routes, DoAll, Later, InstallRoute, Retire, Establish, AllowedCalls;
    var st0 := InstallRoute(st, id, alias);
    InstallSound(st, id, alias);
    InstallKeeps(st, id, alias);
    DoAllSound(st0, replay, Some(alias));
    var st1 := DoAll(st0, replay);
    RequestsHaveRoles(st0);
    NotReborn(st0, st1, id, alias);
    LaterInstalling(st0, st1, id, alias);
    if id in st1.requests {
      EstablishSound(st1, id, alias);
      EstablishKeeps(st1, id, alias);
    } else {
      RetireSound(st1, id, alias);
      RetireKeeps(st1, alias);
    }
  }

  lemma InstallKeeps(st: State, id: u64, alias: u64)
    ensures var r := InstallRoute(st, id, alias); r.requests == st.requests && r.ready == st.ready
  {
  }

  lemma EstablishKeeps(st: State, id: u64, alias: u64)
    requires id in st.requests
    ensures Establish(st, id, alias).ready == st.ready
  {
  }

  lemma RetireKeeps(st: State, alias: u64)
    ensures Retire(st, alias).ready == st.ready && Retire(st, alias).requests == st.requests
  {
  }

  lemma NotReborn(st: State, r: State, id: u64, alias: u64)
    requires Later(st, r, Some(alias)) && id in st.roles
    ensures id in r.requests ==> id in st.requests
  {
  }

  /** Routes look at nothing of a request but its alias. */
  lemma RoutesFrame(st: State, r: State)
    requires Routes(st, None) && r.routes == st.routes && r.store == st.store && r.requests.Keys == st.requests.Keys
    requires forall id :: id in st.requests ==> r.requests[id].alias == st.requests[id].alias
    ensures Routes(r, None)
  {
    forall alias | alias in r.routes
      ensures RouteOkay(r, alias, None)
    {
      assert RouteOkay(st, alias, None);
    }
    forall id | id in r.requests
      ensures Bound(r, id, None)
    {
      assert Bound(st, id, None);
    }
  }

  /** REQUEST_ERROR on a pending request: its promise is rejected and the request is gone. */
  lemma RejectedGood(st: State, id: u64, tag: nat, reaction: seq<Call>)
    requires Good(st) && id in st.requests && st.requests[id].phase.Pending?
    ensures Good(Handle(st, id, RequestError(tag, reaction)))
  {
    hide Core, Routes;
    PendingFields(st, id);
    var r := Handle(st, id, RequestError(tag, reaction));
    var held := Fail(st, id, Rejected(tag)).(requests := st.requests[id := st.requests[id].(resultHeld := false)]);
    assert r == Terminate(held, id) == held.(requests := held.requests - {id});
    assert held.requests - {id} == st.requests - {id};
    FailSettles(st, id, Rejected(tag));
    assert Due(st, id) == {id};
    DroppedCore(st, id, r, Rejected(tag));
    DropRoutes(st, id, None, r);
  }

  lemma PendingFields(st: State, id: u64)
    requires Core(st) && id in st.requests && st.requests[id].phase.Pending?
    ensures var q := st.requests[id]; q.resultHeld && q.alias.None? && q.updates == []
    ensures id !in st.settled && id in st.history
  {
    assert RequestOkay(st, id);
  }

  /** Established requests: what their own answers change. `due` is what the answer settles, with `v`. */
  predicate Answer(st: State, id: u64, r: State, due: set<u64>, v: Verdict) {
    && id in st.requests && id in st.history && st.requests[id].phase.Established?
    && due <= Members(st.requests[id].updates) && Settles(st.settled, r.settled, due, v)
    && id in r.requests && id in r.history
    && r == st.(settled := r.settled, requests := st.requests[id := r.requests[id]],
        history := st.history[id := r.history[id]])
    && r.history[id].sent == st.history[id].sent
    && r.requests[id].alias == st.requests[id].alias && !r.requests[id].resultHeld && !r.requests[id].phase.Pending?
    && (r.requests[id].updates != [] ==> r.requests[id].phase.Established?)
  }

  lemma AnswerGood(st: State, id: u64, r: State, due: set<u64>, v: Verdict)
    requires Good(st) && Answer(st, id, r, due, v) && HistoryOkay(r, id)
    ensures Good(r)
  {
    hide HistoryOkay, RequestOkay, Kept, Answer;
    AnswerParts(st, id, r, due, v);
    forall other | other in r.requests
      ensures RequestOkay(r, other)
    {
      AnswerRequest(st, id, r, due, v, other);
    }
    forall p | p in r.roles
      ensures Kept(r, p)
    {
      assert Kept(st, p);
      AnswerKept(st, id, r, due, v, p);
    }
    forall other | other in r.history
      ensures HistoryOkay(r, other)
    {
      if other != id {
        AnswerHistory(st, id, r, due, v, other);
      }
    }
    RoutesFrame(st, r);
  }

  lemma AnswerParts(st: State, id: u64, r: State, due: set<u64>, v: Verdict)
    requires Good(st) && Answer(st, id, r, due, v)
    ensures r.requests.Keys == st.requests.Keys && r.history.Keys == st.history.Keys && r.roles == st.roles
    ensures r.routes == st.routes && r.store == st.store && r.nextId == st.nextId && !r.broken && r.ready == st.ready
    ensures forall p :: p in r.settled ==> p in st.roles
    ensures forall other :: other in st.requests ==> r.requests[other].alias == st.requests[other].alias
    ensures r.ready
  {
    hide HistoryOkay, Kept, RequestOkay;
    forall p | p in r.settled
      ensures p in st.roles
    {
      if p in due {
        OwnUpdates(st, id, p);
      }
    }
  }

  lemma AnswerRequest(st: State, id: u64, r: State, due: set<u64>, v: Verdict, other: u64)
    requires Good(st) && Answer(st, id, r, due, v) && other in st.requests
    ensures RequestOkay(r, other)
  {
    hide HistoryOkay, Kept, Routes;
    assert RequestOkay(st, other) && RequestOkay(st, id);
    if other in due {
      OwnUpdates(st, id, other);
    }
  }

  lemma AnswerKept(st: State, id: u64, r: State, due: set<u64>, v: Verdict, p: u64)
    requires Answer(st, id, r, due, v) && p in st.roles && Kept(st, p)
    ensures Kept(r, p)
  {
  }

  lemma AnswerHistory(st: State, id: u64, r: State, due: set<u64>, v: Verdict, other: u64)
    requires Good(st) && Answer(st, id, r, due, v) && other in st.history && other != id
    ensures HistoryOkay(r, other)
  {
    hide Kept, Routes, RequestOkay;
    assert HistoryOkay(st, other);
    var h := st.history[other];
    forall k | 0 <= k < |h.sent|
      ensures h.sent[k] in r.settled <==> h.sent[k] in st.settled
      ensures h.sent[k] in st.settled ==> r.settled[h.sent[k]] == st.settled[h.sent[k]]
    {
      if h.sent[k] in due {
        OwnUpdates(st, id, h.sent[k]);
      }
    }
    assert r.history[other] == h && (other in st.requests ==> r.requests[other] == st.requests[other]);
  }

  /** REQUEST_OK answers the oldest update. */
  lemma AnsweredGood(st: State, id: u64, tag: nat, reaction: seq<Call>)
    requires Good(st) && id in st.requests && st.requests[id].updates != []
    ensures Good(Handle(st, id, RequestOk(tag, false, reaction)))
  {
    hide Routes, Kept;
    assert RequestOkay(st, id) && HistoryOkay(st, id);
    var h, q := st.history[id], st.requests[id];
    var p := q.updates[0];
    assert p == h.sent[|h.oks|];
    var r := Handle(st, id, RequestOk(tag, false, reaction));
    assert h.sent[|h.oks|..][1..] == h.sent[|h.oks| + 1..];
    AnsweredHistory(st, id, tag, r);
    AnswerGood(st, id, r, {p}, Answered(tag));
  }

  lemma AnsweredHistory(st: State, id: u64, tag: nat, r: State)
    requires id in st.history && HistoryOkay(st, id) && id in st.requests && st.requests[id].phase.Established?
    requires var h := st.history[id];
             && |h.oks| < |h.sent| && id in r.requests && id in r.history && r.roles == st.roles
             && r.history[id] == h.(oks := h.oks + [tag])
             && r.requests[id] == st.requests[id].(updates := h.sent[|h.oks| + 1..])
             && r.settled == st.settled[h.sent[|h.oks|] := Answered(tag)]
    ensures HistoryOkay(r, id)
  {
    var h := st.history[id];
    assert forall j, k :: 0 <= j < k < |h.sent| ==> h.sent[j] != h.sent[k];
  }

  /** REQUEST_ERROR fails every update that waits. */
  lemma RefusedGood(st: State, id: u64, tag: nat, reaction: seq<Call>)
    requires Good(st) && id in st.requests && st.requests[id].updates != []
    ensures Good(Handle(st, id, RequestError(tag, reaction)))
  {
    hide Routes, Kept, FailAll;
    assert RequestOkay(st, id) && HistoryOkay(st, id);
    var r := Handle(st, id, RequestError(tag, reaction));
    FailAllEffect(st, st.requests[id].updates, Rejected(tag));
    RefusedHistory(st, id, tag, r);
    AnswerGood(st, id, r, Members(st.requests[id].updates), Rejected(tag));
  }

  lemma RefusedHistory(st: State, id: u64, tag: nat, r: State)
    requires id in st.history && HistoryOkay(st, id) && id in st.requests && st.requests[id].phase.Established?
    requires Settles(st.settled, r.settled, Members(st.requests[id].updates), Rejected(tag))
    requires id in r.requests && id in r.history && r.roles == st.roles
    requires r.history[id] == st.history[id].(error := Some(tag)) && r.requests[id].phase.UpdateFailed?
    ensures HistoryOkay(r, id)
  {
    var h := st.history[id];
    forall k | |h.oks| <= k < |h.sent|
      ensures h.sent[k] in Members(st.requests[id].updates)
    {
      assert h.sent[|h.oks|..][k - |h.oks|] == h.sent[k];
    }
  }

  // ----- whole runs -----

  lemma AbortGood(st: State, id: u64, reaction: seq<Call>)
    requires Good(st) && AllowedCalls(Terminate(st, id), reaction)
    ensures Good(Abort(st, id, reaction))
  {
    hide Core, Routes, Terminate, DoAll, AllowedCalls, Later;
    TerminateSound(st, id, None);
    assert Shut(Terminate(st, id));
    DoAllSound(Terminate(st, id), reaction, None);
  }

  lemma HandleGood(st: State, id: u64, m: Message)
    requires Good(st) && Allowed(st, Received(id, m))
    ensures Good(Handle(st, id, m))
  {
    hide Good, Abort, Bind, Shutdown, Terminate, DoAll, AllowedCalls, InstallRoute;
    if id in st.requests && id in st.history {
      var q := st.requests[id];
      match m
      case SubscribeOk(alias, replay, order, reactions) =>
        if !q.phase.Pending? {
          AbortGood(st, id, replay);
        } else if alias in st.routes {
          TakenAliasGood(st, order, reactions);
        } else {
          BindGood(st, id, alias, replay);
        }
      case RequestError(tag, reaction) =>
        if q.phase.Pending? {
          RejectedGood(st, id, tag, reaction);
        } else if q.updates == [] {
          AbortGood(st, id, reaction);
        } else {
          RefusedGood(st, id, tag, reaction);
        }
      case RequestOk(tag, properties, reaction) =>
        if q.phase.Pending? || q.updates == [] || properties {
          AbortGood(st, id, reaction);
        } else {
          AnsweredGood(st, id, tag, reaction);
        }
      case PublishDone(reaction) =>
        if q.phase.Pending? {
          AbortGood(st, id, reaction);
        } else {
          DoneGood(st, id, reaction);
        }
      case GoAway(reaction) => AbortGood(st, id, reaction);
      case Undecodable(reaction) => AbortGood(st, id, reaction);
      case Unknown(reaction) =>
        if q.phase.Pending? {
          AbortGood(st, id, reaction);
        } else {
          DoneGood(st, id, reaction);
        }
    }
  }

  /** A taken alias closes the session, which ends every request, the owner of the alias among them. */
  lemma TakenAliasGood(st: State, order: seq<u64>, reactions: seq<seq<Quick>>)
    requires Good(st) && forall id :: id in st.requests ==> id in order
    ensures Good(Shutdown(st, order, reactions))
  {
    hide Core, Routes, Shutdown, Later;
    if st.ready {
      ShutdownSound(st, order, reactions, None);
    } else {
      assert Shutdown(st, order, reactions) == st by { ClosedAlready(st, order, reactions); }
    }
  }

  lemma ClosedAlready(st: State, order: seq<u64>, reactions: seq<seq<Quick>>)
    requires !st.ready
    ensures Shutdown(st, order, reactions) == st
  {
  }

  lemma DoneGood(st: State, id: u64, reaction: seq<Call>)
    requires Good(st) && AllowedCalls(st, reaction)
    ensures Good(DoAll(st, reaction)) && Good(Terminate(DoAll(st, reaction), id))
  {
    hide Core, Routes, Terminate, DoAll, AllowedCalls, Later;
    DoAllSound(st, reaction, None);
    TerminateSound(DoAll(st, reaction), id, None);
  }

  lemma StepGood(st: State, e: Event)
    requires Good(st) && Allowed(st, e)
    ensures Good(Step(st, e))
  {
    hide Good, Handle, Abort, DoAll, AllowedCalls, Terminate;
    match e
    case Received(id, m) => HandleGood(st, id, m);
    case StreamEnded(id, reaction) => AbortGood(st, id, reaction);
    case Calls(calls) => DoneGood(st, 0, calls);
  }

  lemma {:induction false} RunGood(st: State, events: seq<Event>)
    requires Good(st) && AllowedRun(st, events)
    ensures Good(Run(st, events))
    decreases |events|
  {
    hide Good, Step, Allowed;
    if events != [] {
      StepGood(st, events[0]);
      RunGood(Step(st, events[0]), events[1..]);
    }
  }

  /** Everything above holds in every state the subscriber can reach. */
  lemma Reachable(events: seq<Event>)
    requires AllowedRun(INITIAL, events)
    ensures Good(Run(INITIAL, events))
  {
    assert Good(INITIAL);
    RunGood(INITIAL, events);
  }
}

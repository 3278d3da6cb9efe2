/**
 * The life of a session: its phases, the promises that wait for it to become ready, the reason it
 * closes and the Request IDs it hands out. A step is one transport callback or one call.
 */
module Sessions {
  import opened Basics

  datatype Phase = Init | SetupInProgress | Ready | Closing | Closed

  function Rank(p: Phase): nat {
    match p
    case Init => 0
    case SetupInProgress => 1
    case Ready => 2
    case Closing => 3
    case Closed => 4
  }

  datatype Reason = Reason(code: u64, text: string)

  /**
   * Promises are numbered in the order in which they were asked for. `open` lists those asked for
   * before the session began to close, `readied` remembers that Ready was reached, `broken` that a
   * settled promise was given a value, which throws in the source.
   */
  datatype State = State(phase: Phase, localSetup: bool, peerSetup: bool, reason: Option<Reason>, waiters: seq<nat>,
                         nextId: u64, asked: nat, open: set<nat>, settled: map<nat, bool>, ids: seq<u64>,
                         readied: bool, broken: bool)

  const INITIAL := State(Init, false, false, None, [], 0, 0, {}, map[], [], false, false)

  function Fulfil(st: State, p: nat): State {
    if p in st.settled then st.(broken := true) else st.(settled := st.settled[p := true])
  }

  /** fail: settles a promise unless it is settled already. */
  function Fail(st: State, p: nat): State {
    if p in st.settled then st else st.(settled := st.settled[p := false])
  }

  function FulfilAll(st: State, ps: seq<nat>): State
    decreases |ps|
  {
    if ps == [] then st else FulfilAll(Fulfil(st, ps[0]), ps[1..])
  }

  function FailAll(st: State, ps: seq<nat>): State
    decreases |ps|
  {
    if ps == [] then st else FailAll(Fail(st, ps[0]), ps[1..])
  }

  /** fail_ready_waiters. */
  function FailWaiters(st: State): State {
    FailAll(st, st.waiters).(waiters := [])
  }

  /** maybe_ready; on_ready then announces, which takes `announcements` Request IDs. */
  function MaybeReady(st: State, announcements: nat): State {
    if !st.localSetup || !st.peerSetup || Rank(st.phase) >= Rank(Ready) then st
    else AllocateMany(FulfilAll(st.(phase := Ready, readied := true), st.waiters).(waiters := []), announcements)
  }

  /** begin_close, up to the subscriptions, which are terminated in the sessions that have them. */
  function BeginClose(st: State, why: Reason): State {
    if Rank(st.phase) >= Rank(Closing) then st
    else FailWaiters(st.(phase := Closing, reason := Some(why)))
  }

  /** ready. */
  function AskReady(st: State): State {
    var p := st.asked;
    var st1 := st.(asked := p + 1, open := if Rank(st.phase) < Rank(Closing) then st.open + {p} else st.open);
    if st.phase == Ready then Fulfil(st1, p)
    else if Rank(st.phase) >= Rank(Closing) then Fail(st1, p)
    else st1.(waiters := st1.waiters + [p])
  }

  /** allocate_request_id; it throws when the IDs run out. */
  function Allocate(st: State): State {
    if st.nextId > MAX64 - 2 then st else st.(nextId := st.nextId + 2, ids := st.ids + [st.nextId])
  }

  function AllocateMany(st: State, n: nat): State
    decreases n
  {
    if n == 0 then st else AllocateMany(Allocate(st), n - 1)
  }

  datatype Event =
    | Connected(sent: bool, announcements: nat, failure: Reason)
    | PeerSetup(announcements: nat)
    | CloseNow(why: Reason)
    | ShutdownComplete(handshake: bool, failure: Reason)
    | Wait
    | TakeId

  function Step(st: State, e: Event): State {
    match e
    case Connected(sent, announcements, failure) =>
      if st.phase != Init then st
      else if sent then MaybeReady(st.(phase := SetupInProgress, localSetup := true), announcements)
      else BeginClose(st.(phase := SetupInProgress), failure)
    case PeerSetup(announcements) => MaybeReady(st.(peerSetup := true), announcements)
    case CloseNow(why) => BeginClose(st, why)
    case ShutdownComplete(handshake, failure) =>
      FailWaiters(st.(phase := Closed, reason := if !handshake && st.reason.None? then Some(failure) else st.reason))
    case Wait => AskReady(st)
    case TakeId => Allocate(st)
  }

  function Run(st: State, events: seq<Event>): State
    decreases |events|
  {
    if events == [] then st else Run(Step(st, events[0]), events[1..])
  }
}

/** What holds over every run of a session. */
module SessionTheorems {
  import opened Basics
  import opened Sessions

  ghost predicate Distinct(ps: seq<nat>) {
    forall i, j :: 0 <= i < j < |ps| ==> ps[i] != ps[j]
  }

  /** Every promise asked for waits or is settled, and not both; only a session before Ready has waiters. */
  ghost predicate WaitersGood(st: State) {
    && Distinct(st.waiters) && !st.broken
    && (forall p :: p in st.waiters ==> p in st.open && p !in st.settled)
    && (forall p :: 0 <= p < st.asked ==> p in st.waiters || p in st.settled)
    && (forall p :: p in st.waiters || p in st.settled || p in st.open ==> p < st.asked)
    && (st.waiters != [] ==> Rank(st.phase) < Rank(Ready))
  }

  /** A settled promise was fulfilled exactly if it was asked for before closing and Ready was reached. */
  ghost predicate VerdictsGood(st: State) {
    forall p :: p in st.settled ==> (st.settled[p] <==> p in st.open && st.readied)
  }

  ghost predicate PhaseGood(st: State) {
    && (st.readied ==> Rank(st.phase) >= Rank(Ready))
    && (st.phase == Ready ==> st.readied)
    && (st.reason.Some? ==> Rank(st.phase) >= Rank(Closing))
    && (st.phase == Closing ==> st.reason.Some?)
    && (Rank(st.phase) < Rank(Ready) ==> st.settled == map[])
  }

  ghost predicate IdsGood(st: State) {
    st.nextId == 2 * |st.ids| && forall i :: 0 <= i < |st.ids| ==> st.ids[i] == 2 * i
  }

  ghost predicate Good(st: State) {
    WaitersGood(st) && VerdictsGood(st) && PhaseGood(st) && IdsGood(st)
  }

  /** What never changes again: the phase only advances, reasons, verdicts and IDs stay. */
  ghost predicate Later(a: State, b: State) {
    && Rank(a.phase) <= Rank(b.phase)
    && (a.reason.Some? ==> b.reason == a.reason)
    && (forall p :: p in a.settled ==> p in b.settled && b.settled[p] == a.settled[p])
    && |a.ids| <= |b.ids| && b.ids[..|a.ids|] == a.ids
    && a.open <= b.open && (a.readied ==> b.readied)
    && (Rank(a.phase) >= Rank(Closing) ==> b.readied == a.readied && b.open == a.open)
  }

  lemma LaterJoin(a: State, b: State, c: State)
    requires Later(a, b) && Later(b, c)
    ensures Later(a, c)
  {
    assert c.ids[..|a.ids|] == c.ids[..|b.ids|][..|a.ids|];
  }

  /** Settling promises that are distinct and not settled yet gives each of them the verdict, once. */
  ghost predicate SettledAs(st: State, r: State, ps: seq<nat>, verdict: bool) {
    && r == st.(settled := r.settled)
    && (forall p :: p in r.settled <==> p in st.settled || p in ps)
    && (forall p :: p in st.settled ==> r.settled[p] == st.settled[p])
    && (forall p :: p in ps ==> r.settled[p] == verdict)
  }

  ghost predicate Unsettled(st: State, ps: seq<nat>) {
    Distinct(ps) && forall p :: p in ps ==> p !in st.settled
  }

  lemma FirstSettled(st: State, ps: seq<nat>, verdict: bool)
    requires Unsettled(st, ps) && ps != []
    ensures Unsettled(st.(settled := st.settled[ps[0] := verdict]), ps[1..])
    ensures ps[0] !in st.settled
    ensures forall p :: p in ps <==> p == ps[0] || p in ps[1..]
    ensures ps[0] !in ps[1..]
  {
    assert ps == [ps[0]] + ps[1..];
    forall i, j | 0 <= i < j < |ps| - 1 ensures ps[1..][i] != ps[1..][j] {
      assert ps[i + 1] != ps[j + 1];
    }
    assert ps[0] in ps;
  }

  lemma {:induction false} AllFulfilled(st: State, ps: seq<nat>)
    requires Unsettled(st, ps)
    ensures SettledAs(st, FulfilAll(st, ps), ps, true)
    decreases |ps|
  {
    hide Unsettled;
    if ps != [] {
      FirstSettled(st, ps, true);
      AllFulfilled(Fulfil(st, ps[0]), ps[1..]);
    }
  }

  lemma {:induction false} AllFailed(st: State, ps: seq<nat>)
    requires Unsettled(st, ps)
    ensures SettledAs(st, FailAll(st, ps), ps, false)
    decreases |ps|
  {
    hide Unsettled;
    if ps != [] {
      FirstSettled(st, ps, false);
      AllFailed(Fail(st, ps[0]), ps[1..]);
    }
  }

  lemma AllocateKeeps(st: State)
    requires Good(st)
    ensures Good(Allocate(st)) && Later(st, Allocate(st))
  {
  }

  lemma {:induction false} AllocateManyKeeps(st: State, n: nat)
    requires Good(st)
    ensures Good(AllocateMany(st, n)) && Later(st, AllocateMany(st, n))
    decreases n
  {
    hide Good, Later, Allocate;
    if n > 0 {
      AllocateKeeps(st);
      AllocateManyKeeps(Allocate(st), n - 1);
      LaterJoin(st, Allocate(st), AllocateMany(st, n));
    } else {
      Unchanged(st);
    }
  }

  lemma Unchanged(st: State)
    ensures Later(st, st)
  {
  }

  /** Failing the waiters of a session that never became ready, as it closes. */
  lemma FailWaitersKeeps(st: State, closing: State)
    requires Good(st)
    requires closing == st.(phase := closing.phase, reason := closing.reason)
    requires Rank(closing.phase) >= Rank(Closing) && Rank(st.phase) <= Rank(closing.phase)
    requires closing.phase == Closing ==> closing.reason.Some?
    requires st.reason.Some? ==> closing.reason == st.reason
    ensures Good(FailWaiters(closing)) && Later(st, FailWaiters(closing))
  {
    hide FailAll;
    AllFailed(closing, st.waiters);
    var r := FailWaiters(closing);
    assert st.waiters != [] ==> !st.readied;
  }

  lemma MaybeReadyKeeps(before: State, st: State, announcements: nat)
    requires Good(before) && Good(st) && Later(before, st)
    ensures Good(MaybeReady(st, announcements)) && Later(before, MaybeReady(st, announcements))
  {
    hide Good, Later, FulfilAll, AllocateMany;
    if st.localSetup && st.peerSetup && Rank(st.phase) < Rank(Ready) {
      var st1 := FulfilAll(st.(phase := Ready, readied := true), st.waiters).(waiters := []);
      BecomesReady(st);
      AllocateManyKeeps(st1, announcements);
      LaterJoin(st, st1, MaybeReady(st, announcements));
      LaterJoin(before, st, MaybeReady(st, announcements));
    }
  }

  lemma BecomesReady(st: State)
    requires Good(st) && Rank(st.phase) < Rank(Ready)
    ensures var st1 := FulfilAll(st.(phase := Ready, readied := true), st.waiters).(waiters := []);
            Good(st1) && Later(st, st1)
  {
    hide FulfilAll;
    AllFulfilled(st.(phase := Ready, readied := true), st.waiters);
  }

  /** A new promise that is settled at once. */
  lemma SettledAtOnce(st: State, r: State, verdict: bool)
    requires Good(st) && Rank(st.phase) >= Rank(Ready) && verdict == (st.phase == Ready)
    requires r == st.(asked := st.asked + 1, open := if verdict then st.open + {st.asked} else st.open,
                      settled := st.settled[st.asked := verdict])
    ensures Good(r) && Later(st, r)
  {
    hide IdsGood, Distinct;
    SameIds(st, r);
    assert st.asked !in st.settled && st.asked !in st.open;
  }

  /** A new promise that has to wait. */
  lemma HasToWait(st: State, r: State)
    requires Good(st) && Rank(st.phase) < Rank(Ready)
    requires r == st.(asked := st.asked + 1, open := st.open + {st.asked}, waiters := st.waiters + [st.asked])
    ensures Good(r) && Later(st, r)
  {
    hide IdsGood, Distinct;
    SameIds(st, r);
    assert Distinct(r.waiters) by { DistinctAppend(st.waiters, st.asked); }
  }

  lemma DistinctAppend(ps: seq<nat>, p: nat)
    requires Distinct(ps) && p !in ps
    ensures Distinct(ps + [p])
  {
  }

  lemma AskKeeps(st: State)
    requires Good(st)
    ensures Good(AskReady(st)) && Later(st, AskReady(st))
  {
    hide Good, Later;
    assert st.asked !in st.settled by { NewPromise(st); }
    if Rank(st.phase) < Rank(Ready) {
      HasToWait(st, AskReady(st));
    } else {
      SettledAtOnce(st, AskReady(st), st.phase == Ready);
    }
  }

  lemma NewPromise(st: State)
    requires Good(st)
    ensures st.asked !in st.settled
  {
  }

  lemma SameIds(st: State, r: State)
    requires IdsGood(st) && r.ids == st.ids && r.nextId == st.nextId
    ensures IdsGood(r)
  {
  }

  lemma CloseKeeps(before: State, st: State, why: Reason)
    requires Good(before) && Good(st) && Later(before, st)
    ensures Good(BeginClose(st, why)) && Later(before, BeginClose(st, why))
  {
    hide Good, Later, FailWaiters;
    if Rank(st.phase) < Rank(Closing) {
      assert st.reason.None? by { OpenHasNoReason(st); }
      FailWaitersKeeps(st, st.(phase := Closing, reason := Some(why)));
      LaterJoin(before, st, BeginClose(st, why));
    }
  }

  lemma OpenHasNoReason(st: State)
    requires Good(st) && Rank(st.phase) < Rank(Closing)
    ensures st.reason.None?
  {
  }

  lemma StepKeeps(st: State, e: Event)
    requires Good(st)
    ensures Good(Step(st, e)) && Later(st, Step(st, e))
  {
    hide Good, Later, MaybeReady, BeginClose, FailWaiters, AskReady, Allocate;
    Unchanged(st);
    match e
    case Connected(sent, announcements, failure) =>
      if st.phase == Init {
        var st1 := st.(phase := SetupInProgress, localSetup := sent || st.localSetup);
        assert Good(st1) && Later(st, st1) by { Advances(st, st1); }
        MaybeReadyKeeps(st, st1, announcements);
        CloseKeeps(st, st1, failure);
      }
    case PeerSetup(announcements) =>
      var st1 := st.(peerSetup := true);
      assert Good(st1) && Later(st, st1) by { Advances(st, st1); }
      MaybeReadyKeeps(st, st1, announcements);
    case CloseNow(why) => CloseKeeps(st, st, why);
    case ShutdownComplete(handshake, failure) =>
      var reason := if !handshake && st.reason.None? then Some(failure) else st.reason;
      FailWaitersKeeps(st, st.(phase := Closed, reason := reason));
    case Wait => AskKeeps(st);
    case TakeId => AllocateKeeps(st);
  }

  lemma Advances(st: State, r: State)
    requires Good(st) && r == st.(phase := r.phase, localSetup := r.localSetup, peerSetup := r.peerSetup)
    requires r.phase == st.phase || (st.phase == Init && r.phase == SetupInProgress)
    ensures Good(r) && Later(st, r)
  {
  }

  lemma {:induction false} RunKeeps(st: State, events: seq<Event>)
    requires Good(st)
    ensures Good(Run(st, events)) && Later(st, Run(st, events))
    decreases |events|
  {
    hide Good, Later, Step;
    if events == [] {
      Unchanged(st);
    } else {
      StepKeeps(st, events[0]);
      RunKeeps(Step(st, events[0]), events[1..]);
      LaterJoin(st, Step(st, events[0]), Run(st, events));
    }
  }

  lemma {:induction false} RunJoin(st: State, first: seq<Event>, rest: seq<Event>)
    ensures Run(st, first + rest) == Run(Run(st, first), rest)
    decreases |first|
  {
    hide Step;
    if first == [] {
      assert first + rest == rest;
    } else {
      assert (first + rest)[1..] == first[1..] + rest;
      RunJoin(Step(st, first[0]), first[1..], rest);
    }
  }

  /**
   * Between any two moments of any run the phase does not move back, a close reason is not replaced,
   * a verdict is not changed and no Request ID is taken back.
   */
  lemma NothingIsTakenBack(first: seq<Event>, rest: seq<Event>)
    ensures Later(Run(INITIAL, first), Run(INITIAL, first + rest))
  {
    hide Later, Step;
    RunKeeps(INITIAL, first);
    RunKeeps(Run(INITIAL, first), rest);
    RunJoin(INITIAL, first, rest);
  }

  /**
   * Every promise for readiness that was asked for is waiting or settled, and settled once: it is
   * fulfilled if and only if it was asked for before closing and Ready was reached. From Ready on
   * none is waiting.
   */
  lemma ReadyWaiters(events: seq<Event>, p: nat)
    ensures var st := Run(INITIAL, events);
            && !st.broken
            && (p < st.asked ==> (p in st.waiters <==> p !in st.settled))
            && (p in st.settled ==> (st.settled[p] <==> p in st.open && st.readied))
            && (p < st.asked && Rank(st.phase) >= Rank(Ready) ==> p in st.settled)
  {
    hide Step;
    RunKeeps(INITIAL, events);
  }

  /** Ready is not reached once the session closes. */
  lemma ClosedBeforeReady(first: seq<Event>, rest: seq<Event>)
    requires Rank(Run(INITIAL, first).phase) >= Rank(Closing)
    ensures Run(INITIAL, first + rest).readied == Run(INITIAL, first).readied
    ensures Run(INITIAL, first + rest).phase != Ready
  {
    hide Step;
    NothingIsTakenBack(first, rest);
  }

  /** The Request IDs handed out are the even numbers in order, so none is handed out twice. */
  lemma RequestIds(events: seq<Event>, i: nat, j: nat)
    requires i < j < |Run(INITIAL, events).ids|
    ensures var ids := Run(INITIAL, events).ids; ids[i] % 2 == 0 && ids[i] == 2 * i && ids[i] != ids[j]
  {
    hide Step;
    RunKeeps(INITIAL, events);
  }
}

/** The session in the form of the source. */
module SessionObject {
  import opened Basics
  import opened Sessions
  import opened SessionTheorems

  class Session {
    var phase: Phase
    var localSetup: bool
    var peerSetup: bool
    var reason: Option<Reason>
    var waiters: seq<nat>
    var nextId: u64
    var asked: nat
    ghost var open: set<nat>
    var settled: map<nat, bool>
    ghost var ids: seq<u64>
    ghost var readied: bool
    ghost var broken: bool

    ghost function View(): State
      reads this
    {
      State(phase, localSetup, peerSetup, reason, waiters, nextId, asked, open, settled, ids, readied, broken)
    }

    ghost predicate Valid()
      reads this
    {
      Good(View())
    }

    constructor ()
      ensures Valid() && View() == INITIAL
    {
      phase, localSetup, peerSetup, reason, waiters, nextId := Init, false, false, None, [], 0;
      asked, open, settled, ids, readied, broken := 0, {}, map[], [], false, false;
    }

    method SetValue(p: nat)
      modifies this`settled, this`broken
      ensures View() == Fulfil(old(View()), p)
    {
      if p in settled {
        broken := true;
      } else {
        settled := settled[p := true];
      }
    }

    method FailPromise(p: nat)
      modifies this`settled
      ensures View() == Fail(old(View()), p)
    {
      if p !in settled {
        settled := settled[p := false];
      }
    }

    /** fail_ready_waiters. */
    method FailReadyWaiters()
      modifies this`settled, this`waiters
      ensures View() == FailWaiters(old(View()))
    {
      var i := 0;
      assert waiters[0..] == waiters;
      while i < |waiters|
        invariant 0 <= i <= |waiters| && waiters == old(waiters)
        invariant FailAll(View(), waiters[i..]) == FailAll(old(View()), old(waiters))
      {
        assert waiters[i..][0] == waiters[i] && waiters[i..][1..] == waiters[i + 1..];
        FailPromise(waiters[i]);
        i := i + 1;
      }
      assert waiters[|waiters|..] == [];
      waiters := [];
    }

    /** maybe_ready; the announcements of on_ready take Request IDs. */
    method BecomeReady(announcements: nat)
      modifies this
      ensures View() == MaybeReady(old(View()), announcements)
    {
      if !localSetup || !peerSetup || Rank(phase) >= Rank(Ready) {
        return;
      }
      phase, readied := Ready, true;
      ghost var start := View();
      var i := 0;
      assert waiters[0..] == waiters;
      while i < |waiters|
        invariant 0 <= i <= |waiters| && waiters == old(waiters)
        invariant FulfilAll(View(), waiters[i..]) == FulfilAll(start, old(waiters))
      {
        assert waiters[i..][0] == waiters[i] && waiters[i..][1..] == waiters[i + 1..];
        SetValue(waiters[i]);
        i := i + 1;
      }
      assert waiters[|waiters|..] == [];
      waiters := [];
      Announce(announcements);
    }

    /** on_ready: each announcement takes a Request ID. */
    method Announce(announcements: nat)
      modifies this`nextId, this`ids
      ensures View() == AllocateMany(old(View()), announcements)
    {
      hide Allocate;
      var i := 0;
      while i < announcements
        invariant 0 <= i <= announcements
        invariant AllocateMany(View(), announcements - i) == AllocateMany(old(View()), announcements)
      {
        var _ := AllocateRequestId();
        i := i + 1;
      }
    }

    /** allocate_request_id. */
    method AllocateRequestId() returns (id: Option<u64>)
      modifies this`nextId, this`ids
      ensures View() == Allocate(old(View()))
      ensures id == if old(nextId) > MAX64 - 2 then None else Some(old(nextId))
    {
      if nextId > MAX64 - 2 {
        return None;
      }
      id := Some(nextId);
      ids := ids + [nextId];
      nextId := nextId + 2;
    }

    /** begin_close. */
    method Close(why: Reason)
      modifies this
      ensures View() == BeginClose(old(View()), why)
    {
      if Rank(phase) >= Rank(Closing) {
        return;
      }
      phase, reason := Closing, Some(why);
      FailReadyWaiters();
    }

    /** The connected callback; `sent` says whether SETUP could be sent. */
    method OnConnected(sent: bool, announcements: nat, failure: Reason)
      requires Valid()
      modifies this
      ensures Valid() && View() == Step(old(View()), Connected(sent, announcements, failure))
    {
      hide Good, MaybeReady, BeginClose;
      StepKeeps(View(), Connected(sent, announcements, failure));
      if phase != Init {
        return;
      }
      phase := SetupInProgress;
      if sent {
        localSetup := true;
        BecomeReady(announcements);
      } else {
        Close(failure);
      }
    }

    /** handle_peer_setup. */
    method OnPeerSetup(announcements: nat)
      requires Valid()
      modifies this
      ensures Valid() && View() == Step(old(View()), PeerSetup(announcements))
    {
      hide Good, MaybeReady;
      StepKeeps(View(), PeerSetup(announcements));
      peerSetup := true;
      BecomeReady(announcements);
    }

    /** The shutdown_complete callback. */
    method OnShutdownComplete(handshake: bool, failure: Reason)
      requires Valid()
      modifies this
      ensures Valid() && View() == Step(old(View()), ShutdownComplete(handshake, failure))
    {
      hide Good, FailWaiters;
      StepKeeps(View(), ShutdownComplete(handshake, failure));
      if !handshake && reason.None? {
        reason := Some(failure);
      }
      phase := Closed;
      FailReadyWaiters();
    }

    /** ready: the number of the promise. */
    method WaitReady() returns (p: nat)
      requires Valid()
      modifies this
      ensures Valid() && View() == Step(old(View()), Wait) && p == old(View()).asked
    {
      hide Good, Later;
      StepKeeps(View(), Wait);
      p := asked;
      asked := asked + 1;
      open := if Rank(phase) < Rank(Closing) then open + {p} else open;
      if phase == Ready {
        SetValue(p);
      } else if Rank(phase) >= Rank(Closing) {
        FailPromise(p);
      } else {
        waiters := waiters + [p];
      }
    }
  }
}

/** The state of a session said by the events that have happened to it, and not by its own fields. */
module SessionHistory {
  import opened Basics
  import opened Sessions
  import opened SessionTheorems

  // ----- the events -----

  /** The application, a violation or the transport ends the session. */
  predicate Ends(e: Event) {
    e.CloseNow? || e.ShutdownComplete?
  }

  /** The one connected callback that counts: the first, if the session has not ended before it. */
  predicate Connects(es: seq<Event>, i: int) {
    0 <= i < |es| && es[i].Connected? && forall j :: 0 <= j < i ==> !es[j].Connected? && !Ends(es[j])
  }

  /** It does, and its own SETUP could be sent, or could not. */
  predicate ConnectsAs(es: seq<Event>, i: int, sent: bool) {
    Connects(es, i) && es[i].sent == sent
  }

  /** Closing has begun: the session was ended, or its own SETUP could not be sent. */
  predicate ClosingBegun(es: seq<Event>) {
    || (exists i :: 0 <= i < |es| && Ends(es[i]))
    || (exists i :: 0 <= i < |es| && ConnectsAs(es, i, false))
  }

  /** The own SETUP has been sent. */
  predicate SetupSent(es: seq<Event>) {
    exists i :: 0 <= i < |es| && ConnectsAs(es, i, true)
  }

  /** The peer's SETUP has arrived. */
  predicate PeerHeard(es: seq<Event>) {
    exists i :: 0 <= i < |es| && es[i].PeerSetup?
  }

  /** There was a moment before closing at which both SETUPs had been exchanged. */
  predicate BothInTime(es: seq<Event>) {
    exists n :: 0 <= n <= |es| && InTime(es[..n])
  }

  predicate InTime(es: seq<Event>) {
    SetupSent(es) && PeerHeard(es) && !ClosingBegun(es)
  }

  /** The reason of the first event that gives one: closing before the end, or an end that nothing announced. */
  function GivenReason(es: seq<Event>): Option<Reason> {
    if es == [] then None else
    var n := |es| - 1;
    var before, e := GivenReason(es[..n]), es[n];
    if before.Some? then before
    else match e
      case CloseNow(why) => if ClosingBegun(es[..n]) then None else Some(why)
      case Connected(sent, _, failure) => if Connects(es, n) && !sent then Some(failure) else None
      case ShutdownComplete(handshake, failure) => if handshake then None else Some(failure)
      case _ => None
  }

  /** How many ready futures have been asked for, and which of them before closing began. */
  function Waits(es: seq<Event>): nat {
    if es == [] then 0 else Waits(es[..|es| - 1]) + if es[|es| - 1].Wait? then 1 else 0
  }

  function EarlyWaits(es: seq<Event>): set<nat> {
    if es == [] then {} else
    var before := es[..|es| - 1];
    if es[|es| - 1].Wait? && !ClosingBegun(before) then EarlyWaits(before) + {Waits(before)} else EarlyWaits(before)
  }

  /** How many Request IDs have been wanted: by calls, and by the announcements of becoming ready. */
  function WantedIds(es: seq<Event>): nat {
    if es == [] then 0 else
    var before, e := es[..|es| - 1], es[|es| - 1];
    WantedIds(before)
    + if e.TakeId? then 1
      else if (e.Connected? || e.PeerSetup?) && InTime(es) && !BothInTime(before) then e.announcements
      else 0
  }

  // ----- one more event -----

  lemma ConnectsMore(es: seq<Event>, e: Event, sent: bool)
    ensures forall i :: i != |es| ==> (ConnectsAs(es + [e], i, sent) <==> ConnectsAs(es, i, sent))
    ensures ConnectsAs(es + [e], |es|, sent) <==> e.Connected? && e.sent == sent && Untouched(es)
  {
    var more := es + [e];
    assert forall j :: 0 <= j < |es| ==> more[j] == es[j];
  }

  /** Nothing has happened yet that would keep a connected callback from counting. */
  predicate Untouched(es: seq<Event>) {
    forall j :: 0 <= j < |es| ==> !es[j].Connected? && !Ends(es[j])
  }

  lemma ClosingMore(es: seq<Event>, e: Event)
    ensures ClosingBegun(es + [e]) <==>
              ClosingBegun(es) || Ends(e) || (e.Connected? && !e.sent && Untouched(es))
  {
    hide ConnectsAs, Untouched;
    var more, n := es + [e], |es|;
    ConnectsMore(es, e, false);
    assert more[n] == e && forall j :: 0 <= j < n ==> more[j] == es[j];
    if ClosingBegun(es) {
      if i :| 0 <= i < |es| && Ends(es[i]) {
        assert Ends(more[i]);
      } else {
        var i :| 0 <= i < |es| && ConnectsAs(es, i, false);
        assert ConnectsAs(more, i, false);
      }
    }
    if Ends(e) {
      assert Ends(more[n]);
    }
    if e.Connected? && !e.sent && Untouched(es) {
      assert ConnectsAs(more, n, false);
    }
    if ClosingBegun(more) {
      if i :| 0 <= i < |more| && Ends(more[i]) {
        assert i < n ==> Ends(es[i]);
      } else {
        var i :| 0 <= i < |more| && ConnectsAs(more, i, false);
        assert i < n ==> ConnectsAs(es, i, false);
      }
    }
  }

  lemma SentMore(es: seq<Event>, e: Event)
    ensures SetupSent(es + [e]) <==> SetupSent(es) || (e.Connected? && e.sent && Untouched(es))
  {
    hide ConnectsAs, Untouched;
    var more, n := es + [e], |es|;
    ConnectsMore(es, e, true);
    assert more[n] == e && forall j :: 0 <= j < n ==> more[j] == es[j];
    if i :| 0 <= i < |es| && ConnectsAs(es, i, true) {
      assert ConnectsAs(more, i, true);
    }
    if e.Connected? && e.sent && Untouched(es) {
      assert ConnectsAs(more, n, true);
    }
    if i :| 0 <= i < |more| && ConnectsAs(more, i, true) {
      assert i < n ==> ConnectsAs(es, i, true);
    }
  }

  lemma HeardMore(es: seq<Event>, e: Event)
    ensures PeerHeard(es + [e]) <==> PeerHeard(es) || e.PeerSetup?
  {
    var more := es + [e];
    assert more[|es|] == e && forall j :: 0 <= j < |es| ==> more[j] == es[j];
  }

  lemma BothMore(es: seq<Event>, e: Event)
    ensures BothInTime(es + [e]) <==> BothInTime(es) || InTime(es + [e])
  {
    hide InTime;
    var more := es + [e];
    assert more[..|more|] == more;
    forall n | 0 <= n <= |es|
      ensures more[..n] == es[..n]
    {
    }
    if n :| 0 <= n <= |es| && InTime(es[..n]) {
      assert InTime(more[..n]);
    }
    if n :| 0 <= n <= |more| && InTime(more[..n]) {
      assert n <= |es| ==> InTime(es[..n]);
    }
    assert InTime(more) ==> InTime(more[..|more|]);
  }

  lemma UntouchedMore(es: seq<Event>, e: Event)
    ensures Untouched(es + [e]) <==> Untouched(es) && !e.Connected? && !Ends(e)
  {
    var more := es + [e];
    assert more[|es|] == e && forall j :: 0 <= j < |es| ==> more[j] == es[j];
  }

  /** A setup that was sent, or a closing that has begun, is not untouched. */
  lemma TouchedOnce(es: seq<Event>)
    ensures Untouched(es) ==> !SetupSent(es) && !ClosingBegun(es)
  {
  }

  // ----- the session -----

  /** One more Request ID than this cannot be had. */
  const ID_LIMIT: nat := 0x7FFF_FFFF_FFFF_FFFF

  function Capped(n: nat): nat {
    if n <= ID_LIMIT then n else ID_LIMIT
  }

  /** The session is where its events have brought it. */
  predicate Tells(es: seq<Event>, st: State) {
    && (st.phase == Init <==> Untouched(es))
    && (st.localSetup <==> SetupSent(es)) && (st.peerSetup <==> PeerHeard(es))
    && (st.phase in {Closing, Closed} <==> ClosingBegun(es))
    && (st.phase == Closed <==> exists i :: 0 <= i < |es| && es[i].ShutdownComplete?)
    && (st.readied <==> BothInTime(es)) && (InTime(es) ==> st.readied)
    && (st.phase == Ready ==> InTime(es))
  }

  lemma DoneMore(es: seq<Event>, e: Event)
    ensures (exists i :: 0 <= i < |es + [e]| && (es + [e])[i].ShutdownComplete?) <==>
            (exists i :: 0 <= i < |es| && es[i].ShutdownComplete?) || e.ShutdownComplete?
  {
    var more := es + [e];
    assert more[|es|] == e && forall j :: 0 <= j < |es| ==> more[j] == es[j];
  }

  /** The fields that matter here, after a step. */
  lemma StepFields(st: State, e: Event)
    requires Good(st)
    ensures var r := Step(st, e);
            var local := st.localSetup || (e.Connected? && e.sent && st.phase == Init);
            var peer := st.peerSetup || e.PeerSetup?;
            var begun := if e.Connected? && st.phase == Init then SetupInProgress else st.phase;
            var closes := e.CloseNow? || (e.Connected? && !e.sent && st.phase == Init);
            && r.localSetup == local && r.peerSetup == peer
            && r.phase == (if e.ShutdownComplete? then Closed
                           else if closes && st.phase !in {Closing, Closed} then Closing
                           else if ((e.Connected? && st.phase == Init) || e.PeerSetup?) && local && peer
                                   && begun !in {Ready, Closing, Closed} then Ready
                           else begun)
            && r.readied == (st.readied || (st.phase != Ready && r.phase == Ready))
  {
    hide FulfilAll, FailAll, AllocateMany;
    AllFields();
  }

  lemma AllFields()
    ensures forall s: State, ps: seq<nat> :: SameFields(s, FulfilAll(s, ps)) && SameFields(s, FailAll(s, ps))
    ensures forall s: State, n: nat :: SameFields(s, AllocateMany(s, n))
  {
    forall s: State, ps: seq<nat>
      ensures SameFields(s, FulfilAll(s, ps)) && SameFields(s, FailAll(s, ps))
    {
      SettlingFields(s, ps);
    }
    forall s: State, n: nat
      ensures SameFields(s, AllocateMany(s, n))
    {
      AllocatingFields(s, n);
    }
  }

  predicate SameFields(s: State, r: State) {
    && r.phase == s.phase && r.localSetup == s.localSetup && r.peerSetup == s.peerSetup && r.readied == s.readied
    && r.reason == s.reason && r.asked == s.asked && r.open == s.open
  }

  lemma {:induction false} SettlingFields(s: State, ps: seq<nat>)
    ensures SameFields(s, FulfilAll(s, ps)) && SameFields(s, FailAll(s, ps))
    ensures FulfilAll(s, ps).ids == s.ids && FailAll(s, ps).ids == s.ids
    ensures FulfilAll(s, ps).nextId == s.nextId && FailAll(s, ps).nextId == s.nextId
    decreases |ps|
  {
    if ps != [] {
      SettlingFields(Fulfil(s, ps[0]), ps[1..]);
      SettlingFields(Fail(s, ps[0]), ps[1..]);
    }
  }

  lemma {:induction false} AllocatingFields(s: State, n: nat)
    ensures SameFields(s, AllocateMany(s, n))
    decreases n
  {
    if n > 0 {
      AllocatingFields(Allocate(s), n - 1);
    }
  }

  lemma TellsMore(es: seq<Event>, st: State, e: Event)
    requires Good(st) && Tells(es, st)
    ensures Tells(es + [e], Step(st, e))
  {
    hide Good, Step, ClosingBegun, SetupSent, PeerHeard, BothInTime, Untouched;
    StepFields(st, e);
    ClosingMore(es, e);
    SentMore(es, e);
    HeardMore(es, e);
    BothMore(es, e);
    UntouchedMore(es, e);
    TouchedOnce(es);
    DoneMore(es, e);
    assert InTime(es) ==> BothInTime(es) by { NowInTime(es); }
  }

  lemma NowInTime(es: seq<Event>)
    ensures InTime(es) ==> BothInTime(es)
  {
    hide InTime;
    assert es[..|es|] == es;
  }

  lemma {:induction false} RunTells(es: seq<Event>)
    ensures Good(Run(INITIAL, es)) && Tells(es, Run(INITIAL, es))
    decreases |es|
  {
    hide Good, Step, Tells;
    if es == [] {
      NothingTold();
    } else {
      var n := |es| - 1;
      assert es == es[..n] + [es[n]];
      RunTells(es[..n]);
      RunLast(es);
      StepKeeps(Run(INITIAL, es[..n]), es[n]);
      TellsMore(es[..n], Run(INITIAL, es[..n]), es[n]);
    }
  }

  lemma NothingTold()
    ensures Good(INITIAL) && Tells([], INITIAL) && Run(INITIAL, []) == INITIAL
  {
    assert !BothInTime([]);
  }

  lemma RunLast(es: seq<Event>)
    requires es != []
    ensures Run(INITIAL, es) == Step(Run(INITIAL, es[..|es| - 1]), es[|es| - 1])
  {
    hide Step;
    var n := |es| - 1;
    assert es == es[..n] + [es[n]];
    RunJoin(INITIAL, es[..n], [es[n]]);
    var st := Run(INITIAL, es[..n]);
    assert [es[n]][1..] == [] && Run(Step(st, es[n]), []) == Step(st, es[n]);
  }

  /**
   * Readiness: over every run the session has been ready if and only if at some moment before closing
   * began its own SETUP had been sent and the peer's had arrived; it is ready now if and only if that
   * moment is now. It is closing or closed if and only if it was ended, or its SETUP could not be sent,
   * and closed if and only if the transport has reported the end.
   */
  lemma ReadyExactly(es: seq<Event>)
    ensures var st := Run(INITIAL, es);
            && (st.readied <==> BothInTime(es)) && (st.phase == Ready <==> InTime(es))
            && (st.phase in {Closing, Closed} <==> ClosingBegun(es))
            && (st.phase == Closed <==> exists i :: 0 <= i < |es| && es[i].ShutdownComplete?)
            && (st.phase == Init <==> Untouched(es))
            && (st.readied ==> st.localSetup && st.peerSetup)
  {
    hide Step, ClosingBegun, SetupSent, PeerHeard, BothInTime, Untouched;
    RunTells(es);
    TouchedOnce(es);
    BothSet(es);
  }

  lemma {:induction false} BothSet(es: seq<Event>)
    ensures BothInTime(es) ==> SetupSent(es) && PeerHeard(es)
    decreases |es|
  {
    hide SetupSent, PeerHeard, ClosingBegun, BothInTime;
    if es == [] {
      NothingTold();
      assert !BothInTime([]) by { NoneInTime(); }
    } else {
      var n := |es| - 1;
      assert es == es[..n] + [es[n]];
      BothSet(es[..n]);
      BothMore(es[..n], es[n]);
      SentMore(es[..n], es[n]);
      HeardMore(es[..n], es[n]);
    }
  }

  lemma NoneInTime()
    ensures !BothInTime([])
  {
  }

  // ----- reasons, futures and Request IDs -----

  lemma StepReason(st: State, e: Event)
    requires Good(st)
    ensures Step(st, e).reason ==
            match e
            case CloseNow(why) => if st.phase in {Closing, Closed} then st.reason else Some(why)
            case Connected(sent, _, failure) => if st.phase == Init && !sent then Some(failure) else st.reason
            case ShutdownComplete(handshake, failure) =>
              if !handshake && st.reason.None? then Some(failure) else st.reason
            case _ => st.reason
  {
    hide FulfilAll, FailAll, AllocateMany;
    AllFields();
  }

  lemma StepAsked(st: State, e: Event)
    ensures var r := Step(st, e);
            && r.asked == st.asked + (if e.Wait? then 1 else 0)
            && r.open == (if e.Wait? && st.phase !in {Closing, Closed} then st.open + {st.asked} else st.open)
  {
    hide MaybeReady, FailWaiters, BeginClose;
    match e
    case Connected(sent, announcements, failure) =>
      ReadyAsks(st.(phase := SetupInProgress, localSetup := true), announcements);
      CloseAsks(st.(phase := SetupInProgress), failure);
    case PeerSetup(announcements) => ReadyAsks(st.(peerSetup := true), announcements);
    case CloseNow(why) => CloseAsks(st, why);
    case ShutdownComplete(handshake, failure) =>
      FailAsks(st.(phase := Closed, reason := if !handshake && st.reason.None? then Some(failure) else st.reason));
    case Wait =>
    case TakeId =>
  }

  lemma ReadyAsks(st: State, announcements: nat)
    ensures var r := MaybeReady(st, announcements); r.asked == st.asked && r.open == st.open
  {
    hide FulfilAll, AllocateMany;
    var st1 := st.(phase := Ready, readied := true);
    SettlingFields(st1, st.waiters);
    AllocatingFields(FulfilAll(st1, st.waiters).(waiters := []), announcements);
  }

  lemma FailAsks(st: State)
    ensures var r := FailWaiters(st); r.asked == st.asked && r.open == st.open
  {
    hide FailAll;
    SettlingFields(st, st.waiters);
  }

  lemma CloseAsks(st: State, why: Reason)
    ensures var r := BeginClose(st, why); r.asked == st.asked && r.open == st.open
  {
    hide FailWaiters;
    FailAsks(st.(phase := Closing, reason := Some(why)));
  }

  lemma OpenHasNone(st: State)
    requires Good(st)
    ensures st.phase !in {Closing, Closed} ==> st.reason.None?
  {
  }

  /** The reason is that of the first event that gives one, and futures are numbered as they were asked for. */
  lemma {:induction false} ReasonExactly(es: seq<Event>)
    ensures var st := Run(INITIAL, es);
            st.reason == GivenReason(es) && st.asked == Waits(es) && st.open == EarlyWaits(es)
    decreases |es|
  {
    hide Good, Step, ClosingBegun, Untouched, Connects;
    if es == [] {
      NothingTold();
    } else {
      var n := |es| - 1;
      var before, e := es[..n], es[n];
      assert es == before + [e];
      ReasonExactly(before);
      RunLast(es);
      var st := Run(INITIAL, before);
      RunTells(before);
      StepReason(st, e);
      StepAsked(st, e);
      OpenHasNone(st);
      assert Connects(es, n) <==> e.Connected? && Untouched(before) by { ConnectsLast(before, e); }
      TouchedOnce(before);
    }
  }

  lemma ConnectsLast(es: seq<Event>, e: Event)
    ensures Connects(es + [e], |es|) <==> e.Connected? && Untouched(es)
  {
    assert forall j :: 0 <= j < |es| ==> (es + [e])[j] == es[j];
  }

  /**
   * Ready futures: over every run the p-th is settled if and only if the session is ready or has begun to
   * close, and it has succeeded if and only if it was asked for before closing and both SETUPs had been
   * exchanged before closing.
   */
  lemma FuturesExactly(es: seq<Event>, p: nat)
    requires p < Waits(es)
    ensures var st := Run(INITIAL, es);
            && (p in st.settled <==> InTime(es) || ClosingBegun(es))
            && (p in st.settled ==> (st.settled[p] <==> p in EarlyWaits(es) && BothInTime(es)))
  {
    hide Step, ClosingBegun, SetupSent, PeerHeard, BothInTime, Untouched, Distinct, IdsGood;
    ReadyExactly(es);
    ReasonExactly(es);
    RunTells(es);
    ReadyWaiters(es, p);
  }

  lemma {:induction false} AllocatedMany(st: State, n: nat)
    requires IdsGood(st)
    ensures IdsGood(AllocateMany(st, n)) && |AllocateMany(st, n).ids| == Capped(|st.ids| + n)
    decreases n
  {
    hide IdsGood;
    if n > 0 {
      AllocatedOne(st);
      AllocatedMany(Allocate(st), n - 1);
    } else {
      IdsWithin(st);
    }
  }

  lemma IdsWithin(st: State)
    requires IdsGood(st)
    ensures |st.ids| <= ID_LIMIT
  {
  }

  lemma AllocatedOne(st: State)
    requires IdsGood(st)
    ensures IdsGood(Allocate(st)) && |Allocate(st).ids| == Capped(|st.ids| + 1) && |st.ids| <= ID_LIMIT
  {
  }

  lemma StepIds(st: State, e: Event)
    requires Good(st)
    ensures var r := Step(st, e);
            var wanted := if e.TakeId? then 1
                          else if (e.Connected? || e.PeerSetup?) && st.phase != Ready && r.phase == Ready
                            then e.announcements
                          else 0;
            |r.ids| == Capped(|st.ids| + wanted)
  {
    hide FulfilAll, FailAll, AllocateMany, IdsGood, Allocate, WaitersGood, VerdictsGood;
    IdsWithin(st);
    forall s: State, ps: seq<nat>
      ensures FulfilAll(s, ps).ids == s.ids && FailAll(s, ps).ids == s.ids
      ensures FulfilAll(s, ps).nextId == s.nextId && FulfilAll(s, ps).phase == s.phase
    {
      SettlingFields(s, ps);
    }
    AllFields();
    AllocatedOne(st);
    if e.Connected? || e.PeerSetup? {
      var st1 := if e.PeerSetup? then st.(peerSetup := true)
                 else st.(phase := SetupInProgress, localSetup := true);
      var st2 := FulfilAll(st1.(phase := Ready, readied := true), st1.waiters).(waiters := []);
      assert IdsGood(st2) by { SameIds(st, st2); }
      AllocatedMany(st2, e.announcements);
    }
  }

  /** Every Request ID that is wanted is had, as long as there are any. */
  lemma {:induction false} IdsExactly(es: seq<Event>)
    ensures |Run(INITIAL, es).ids| == Capped(WantedIds(es))
    decreases |es|
  {
    hide Good, Step, ClosingBegun, Untouched, Connects, InTime, BothInTime;
    if es == [] {
      NothingTold();
    } else {
      var n := |es| - 1;
      var before, e := es[..n], es[n];
      assert es == before + [e];
      IdsExactly(before);
      RunLast(es);
      RunTells(before);
      ReadyExactly(before);
      ReadyExactly(es);
      var st := Run(INITIAL, before);
      StepIds(st, e);
      if e.Connected? || e.PeerSetup? {
        ReadyOnce(before, e);
      }
    }
  }

  /** A session that is ready now and was not before has not been ready before. */
  lemma ReadyOnce(before: seq<Event>, e: Event)
    requires e.Connected? || e.PeerSetup?
    ensures var st, r := Run(INITIAL, before), Run(INITIAL, before + [e]);
            st.phase != Ready && r.phase == Ready <==> InTime(before + [e]) && !BothInTime(before)
  {
    hide Good, Step, ClosingBegun, Untouched, Connects, SetupSent, PeerHeard, BothInTime;
    ReadyExactly(before);
    ReadyExactly(before + [e]);
    BothSet(before);
    ClosingMore(before, e);
    NowInTime(before);
  }
}

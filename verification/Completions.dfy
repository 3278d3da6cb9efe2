/**
 * When completing a subscription goes wrong. `end_track` takes its reason from the application; if
 * PUBLISH_DONE does not fit its frame, the encoder throws after the send plane has let go of the
 * subscription and before the session has. The session's and the send plane's tables name the same
 * requests, and PUBLISH_DONE reports the right number of streams, exactly as long as that does not
 * happen.
 */
module Completions {
  import opened Basics
  import opened SubgroupSend
  import opened SendStreams
  import opened Publishing
  import opened PublishingInvariants
  import ControlFrames
  import Parameters
  import Varint

  /** PUBLISH_DONE fits if and only if its three numbers and the reason take at most 65535 bytes. */
  lemma PublishDoneFits(end: Ending, count: nat)
    ensures Sendable(PublishDone(end, count)) <==>
            |Varint.Encode(CodeNumber(end.code))| + |Varint.Encode(Wrap(count))| + |Varint.Encode(|end.reason|)| +
                |end.reason|
            <= ControlFrames.MAX_PAYLOAD
  {
    hide Varint.Encode, CodeNumber, Wrap;
  }

  /** The event completes no request with a PUBLISH_DONE that does not fit. */
  predicate EventFits(st: State, e: Event) {
    e.EndTrackCall? && e.key in st.tracks ==> AllFit(st, e.order, e.end)
  }

  predicate AllFit(st: State, order: seq<u64>, end: Ending) {
    forall id :: id in order ==> Fits(st, id, end)
  }

  predicate RunFits(st: State, events: seq<Event>)
    decreases |events|
  {
    events == [] || (EventFits(st, events[0]) && RunFits(Step(st, events[0]), events[1..]))
  }

  /** What a flow's PUBLISH_DONE says is the number of streams that were opened. */
  predicate Told(f: Flow) {
    forall r :: r in f.replies && r.PublishDone? ==> r.count == |f.streams.wire|
  }

  predicate AllTold(flows: map<u64, Flow>) {
    forall id :: id in flows ==> Told(flows[id])
  }

  predicate Exact(st: State) {
    Aligned(st) && AllTold(st.flows)
  }

  // ----- what a completion does -----

  lemma LiveIsTold(f: Flow)
    requires LiveReplies(f.replies)
    ensures Told(f)
  {
  }

  lemma FinishedIsTold(f: Flow, end: Ending)
    requires Sound(f.streams) && forall r :: r in f.replies ==> !r.PublishDone?
    ensures Told(AddReply(f.(streams := CloseAll(f.streams, false)), PublishDone(end, f.streams.count)))
  {
    SoundCount(f.streams);
  }

  /** The flow of a request that may be finished has not been finished before. */
  lemma NotYetDone(f: Flow)
    requires Finishable(f)
    ensures Sound(f.streams) && forall r :: r in f.replies ==> !r.PublishDone?
  {
    hide Sound;
    var n := |f.replies| - 1;
    assert LiveReplies(f.replies[..n]) && n > 0 ==> forall i :: 0 <= i < n ==> f.replies[i] == f.replies[..n][i];
  }

  lemma FinishExact(st: State, id: u64, end: Ending)
    requires Agreement(st) && Exact(st) && Fits(st, id, end)
    requires id in st.requests ==> id in st.flows && Finishable(st.flows[id])
    ensures Exact(FinishRequest(st, id, end))
  {
    hide FinishRequest, Fits, Agreement, Finishable, Told, CloseAll;
    var r := FinishRequest(st, id, end);
    FinishEffect(st, id, end);
    if id in st.requests {
      NotYetDone(st.flows[id]);
      FinishedIsTold(st.flows[id], end);
    }
  }

  /** After the exception the request is in the session's table and not in the send plane's. */
  lemma ThrowBreaks(st: State, id: u64, end: Ending)
    requires Agreement(st) && !Fits(st, id, end)
    ensures var r := FinishRequest(st, id, end); id in r.requests && id !in r.subs && !Aligned(r)
  {
    hide FinishRequest, Agreement, CloseAll;
    ThrowEffect(st, id, end);
  }

  lemma GoodFinishable(st: State, id: u64)
    requires Agreement(st) && Accounted(st) && FlowsSound(st) && id in st.requests
    ensures id in st.flows && Finishable(st.flows[id])
  {
    hide Agreement, FlowSound, Finishable;
    AgreedKeys(st);
    LiveFlowFinishable(st.flows[id], StageOf(st, id));
  }

  // ----- ending a track -----

  /** Finishing one request changes nothing about whether another fits. */
  lemma FitsElsewhere(st: State, id: u64, end: Ending, other: u64)
    requires Agreement(st) && Fits(st, id, end) && other != id
    ensures Fits(FinishRequest(st, id, end), other, end) == Fits(st, other, end)
  {
    hide FinishRequest, Agreement, Sendable, CloseAll;
    FinishEffect(st, id, end);
  }

  lemma {:induction false} EndAllExact(st: State, order: seq<u64>, end: Ending)
    requires Good(st) && Exact(st) && forall i, j :: 0 <= i < j < |order| ==> order[i] != order[j]
    ensures var r := EndAll(st, order, end); Aligned(r) <==> AllFit(st, order, end)
    ensures AllFit(st, order, end) ==> Exact(EndAll(st, order, end))
    ensures Completes(st, order, end) <==> AllFit(st, order, end)
    decreases |order|
  {
    hide Good, FinishRequest, Fits, Told;
    if order != [] {
      var id, rest := order[0], order[1..];
      var st1 := FinishRequest(st, id, end);
      assert order == [id] + rest && id !in rest;
      assert Agreement(st) by { Parts(st); }
      if Fits(st, id, end) {
        FinishGood(st, id, end);
        assert id in st.requests ==> id in st.flows && Finishable(st.flows[id]) by {
          Parts(st);
          if id in st.requests {
            GoodFinishable(st, id);
          }
        }
        FinishExact(st, id, end);
        assert forall i, j :: 0 <= i < j < |rest| ==> rest[i] == order[i + 1] && rest[j] == order[j + 1];
        EndAllExact(st1, rest, end);
        forall other | other in rest ensures Fits(st1, other, end) == Fits(st, other, end) {
          FitsElsewhere(st, id, end, other);
        }
      } else {
        ThrowBreaks(st, id, end);
        assert id in order;
      }
    }
  }

  lemma Parts(st: State)
    requires Good(st)
    ensures Agreement(st) && Accounted(st) && FlowsSound(st)
  {
  }

  // ----- the other steps -----

  lemma {:induction false} PublishAllExact(st: State, order: seq<u64>, o: Published)
    requires MidPublish(st, o) && Publishable(o) && Exact(st)
    ensures Exact(PublishAll(st, order, o))
    decreases |order|
  {
    hide MidPublish, PublishTo, Publishable, Exact;
    if order != [] {
      VisitExact(st, order[0], o);
      PublishToKeeps(st, order[0], o);
      PublishAllExact(PublishTo(st, order[0], o), order[1..], o);
    }
  }

  lemma VisitExact(st: State, id: u64, o: Published)
    requires MidPublish(st, o) && Publishable(o) && Exact(st)
    ensures Exact(PublishTo(st, id, o))
  {
    hide MidPublish, Publishable, Beyond, Admits, EndsTrack, EndsRange, FinishRequest, Send, Told, Without;
    if id in st.subs {
      var st1 := if Admits(st.subs[id], o) then Send(st, id, o) else st;
      SendMid(st, id, o);
      SendExact(st, id, o);
      EndExact(st, id, o);
      EndExact(st1, id, o);
    }
  }

  lemma EndExact(st: State, id: u64, o: Published)
    requires MidPublish(st, o) && Exact(st) && id in st.subs
    ensures Exact(FinishRequest(st, id, RANGE_END)) && Exact(FinishRequest(st, id, TRACK_END))
  {
    hide Agreement, FinishRequest, Fits, FlowSound, Finishable, OnlyBeyond, AllTold;
    AgreedKeys(st);
    GoodFinishable(st, id);
    OwnEndsFit(st, id);
    FinishExact(st, id, RANGE_END);
    FinishExact(st, id, TRACK_END);
  }

  lemma SendExact(st: State, id: u64, o: Published)
    requires MidPublish(st, o) && Exact(st) && id in st.subs && Publishable(o)
    ensures Exact(Send(st, id, o))
  {
    hide Agreement, OnlyBeyond, Publishable, SendOn, Told, FlowSound;
    if id in st.flows {
      assert FlowSound(st.flows[id], Attached);
      SentFlow(st.flows[id], o);
      AttachedIsTold(SendOn(st.flows[id], o));
    }
  }

  lemma AttachedIsTold(f: Flow)
    requires FlowSound(f, Attached)
    ensures Told(f)
  {
    hide Sound, Carried;
    LiveIsTold(f);
  }

  lemma ShutdownExact(st: State)
    requires Agreement(st) && Exact(st)
    ensures Exact(Shutdown(st))
  {
    var r := Shutdown(st);
    assert r.requests == r.subs.Keys;
  }

  lemma CancelExact(st: State, id: u64)
    requires Agreement(st) && Exact(st)
    ensures Exact(CancelRequest(st, id))
  {
    hide Agreement;
    if id in st.requests {
      CancelEffect(st, id);
    }
  }

  lemma SubscribeExact(st: State, id: u64, key: TrackKey, options: Option<Options>, sendOk: bool)
    requires Good(st) && Exact(st)
    ensures Exact(Subscribe(st, id, key, options, sendOk))
  {
    hide Good, Exact, Shutdown, Requested, Reserved, Wrap, Sendable, Accept, Reject, Say;
    assert Agreement(st) by { Parts(st); }
    ShutdownExact(st);
    if FreshPeerId(st, id) {
      NotYetSeen(st, id);
      var st1 := st.(consumed := st.consumed + {id});
      var st2 := st1.(nextAlias := Wrap(st1.nextAlias + 1));
      assert Agreement(st1) && Exact(st1) && Agreement(st2) && Exact(st2) by {
        ConsumedExact(st, st1);
        ConsumedExact(st, st2);
      }
      ShutdownExact(st1);
      forall reason ensures Exact(Reject(st1, id, reason)) && Exact(Reject(st2, id, reason)) {
        RejectExact(st1, id, reason);
        RejectExact(st2, id, reason);
      }
      if options.Some? && Requested(st2, key, options.value).Granted? {
        GrantedSub(st2, key, options.value);
        AcceptExact(st2, id, Requested(st2, key, options.value).value, st1.nextAlias, OkFor(st2, key, st1.nextAlias));
      }
    }
  }

  lemma ConsumedExact(st: State, r: State)
    requires Agreement(st) && Exact(st) && r == st.(consumed := r.consumed, nextAlias := r.nextAlias)
    ensures Agreement(r) && Exact(r)
  {
    hide Told;
    SameAgreement(st, r);
  }

  lemma RejectExact(st: State, id: u64, reason: Reason)
    requires Exact(st)
    ensures Exact(Reject(st, id, reason))
  {
    hide Told;
    NewIsTold(0);
  }

  lemma AcceptExact(st: State, id: u64, sub: Sub, alias: u64, ok: Reply)
    requires Agreement(st) && Exact(st) && sub.track in st.tracks && id !in st.subs && ok.Accepted?
    ensures Exact(Say(Accept(st, id, sub, alias), id, ok)) && Exact(Shutdown(Accept(st, id, sub, alias)))
  {
    hide Told, Agreement, Shutdown, NoStreams;
    NewIsTold(alias);
    AttachAgrees(st, id, sub);
    var st3 := Accept(st, id, sub, alias);
    SameAgreement(Attach(st, id, sub).(requests := st.requests + {id}), st3);
    ShutdownExact(st3);
  }

  lemma NewIsTold(alias: u64)
    ensures forall reason :: Told(Flow(NoStreams(0), [], [], [Rejected(reason)]))
    ensures Told(Flow(NoStreams(alias), [], [], []))
    ensures forall ok: Reply :: ok.Accepted? ==> Told(AddReply(Flow(NoStreams(alias), [], [], []), ok))
  {
  }

  lemma UpdateExact(st: State, id: u64, updateId: u64, options: Option<Options>)
    requires Good(st) && Exact(st)
    ensures Exact(Update(st, id, updateId, options))
  {
    hide Good, Shutdown, UpdatedSub, FinishRequest, Told, Fits, Finishable;
    assert Agreement(st) by { Parts(st); }
    ShutdownExact(st);
    if id in st.requests && FreshPeerId(st, updateId) {
      var st1 := st.(consumed := st.consumed + {updateId});
      SameAgreement(st, st1);
      ShutdownExact(st1);
      ConsumeKeeps(st, updateId, st.nextAlias);
      if options.Some? {
        match UpdatedSub(st1, id, options.value)
        case Refused(reason) => RefusedExact(st1, id, reason);
        case Granted(sub) => SaidIsTold(st1.(subs := st1.subs[id := sub]), id, Updated(LargestOf(st1, sub.track)));
      }
    }
  }

  lemma SaidIsTold(st: State, id: u64, r: Reply)
    requires AllTold(st.flows) && !r.PublishDone?
    ensures AllTold(Say(st, id, r).flows)
  {
  }

  lemma RefusedExact(st: State, id: u64, reason: Reason)
    requires Good(st) && Exact(st) && id in st.requests
    ensures Exact(FinishRequest(Say(st, id, Rejected(reason)), id, RefusedEnd(reason)))
  {
    hide Agreement, FinishRequest, Told, Fits, FlowSound, Finishable, LiveRanges;
    var st1 := Say(st, id, Rejected(reason));
    SaidIsTold(st, id, Rejected(reason));
    AgreedKeys(st);
    RefusedFlow(st.flows[id], StageOf(st, id), reason);
    SameAgreement(st, st1);
    OwnEndsFit(st1, id);
    FinishExact(st1, id, RefusedEnd(reason));
  }

  lemma UnregisterExact(st: State, key: TrackKey, order: seq<u64>)
    requires Good(st) && Exact(st) && Enumerates(st, key, order)
    ensures Exact(Step(st, UnregisterTrack(key, order)))
  {
    hide Good, EndAll, Fits, AllTold;
    if key in st.tracks {
      forall id | id in order ensures Fits(st, id, UNREGISTERED) {
        OwnEndsFit(st, id);
      }
      EndAllExact(st, order, UNREGISTERED);
    }
  }

  /**
   * One step: starting from tables in step, they stay in step if and only if no completion in it
   * fails to fit; and then what has been reported stays right.
   */
  lemma StepExact(st: State, e: Event)
    requires Good(st) && Exact(st) && Allowed(st, e)
    ensures Aligned(Step(st, e)) <==> EventFits(st, e)
    ensures EventFits(st, e) ==> Exact(Step(st, e))
  {
    hide Good, Publish, Subscribe, Update, CancelRequest, Shutdown, EndAll, AllTold, AllFit;
    assert Agreement(st) by { Parts(st); }
    match e
    case RegisterTrack(_, _) =>
    case UnregisterTrack(key, order) => UnregisterExact(st, key, order);
    case EndTrackCall(key, end, order) =>
      if key in st.tracks {
        EndAllExact(st, order, end);
      }
    case PublishCall(o, order) => PublishExact(st, o, order);
    case PeerSubscribe(id, key, options, sendOk) => SubscribeExact(st, id, key, options, sendOk);
    case PeerUpdate(id, updateId, options) => UpdateExact(st, id, updateId, options);
    case PeerCancel(id) => CancelExact(st, id);
    case Violation => ShutdownExact(st);
  }

  lemma PublishExact(st: State, o: Published, order: seq<u64>)
    requires Good(st) && Exact(st)
    ensures Exact(Publish(st, o, order))
  {
    hide FlowSound, Agreement, LiveRanges, OnlyBeyond, PublishAll, Publishable, AllTold;
    if o.track in st.tracks && Publishable(o) {
      AdvanceKeeps(st, o);
      PublishAllExact(Advance(st, o), order, o);
    }
  }

  // ----- whole runs -----

  /** The tables are in step after each of the events, in turn. */
  predicate AlwaysAligned(st: State, events: seq<Event>)
    decreases |events|
  {
    Aligned(st) && (events == [] || AlwaysAligned(Step(st, events[0]), events[1..]))
  }

  /**
   * Over whole runs: the session's keys equal the send plane's keys at every quiescent point if and
   * only if every PUBLISH_DONE of the run fits its frame. In such runs every number of streams that
   * was reported is right.
   */
  lemma {:induction false} TablesAgreeExactly(st: State, events: seq<Event>)
    requires Good(st) && Exact(st) && AllowedRun(st, events)
    ensures AlwaysAligned(st, events) <==> RunFits(st, events)
    ensures RunFits(st, events) ==> Exact(Run(st, events))
    decreases |events|
  {
    hide Good, Exact, Step, Allowed, EventFits;
    assert Aligned(st) by { ExactIsAligned(st); }
    if events != [] {
      StepKeeps(st, events[0]);
      StepExact(st, events[0]);
      var st1 := Step(st, events[0]);
      if EventFits(st, events[0]) {
        TablesAgreeExactly(st1, events[1..]);
      } else {
        assert !AlwaysAligned(st1, events[1..]) by { NotAligned(st1, events[1..]); }
      }
    }
  }

  lemma ExactIsAligned(st: State)
    requires Exact(st)
    ensures Aligned(st)
  {
  }

  lemma NotAligned(st: State, events: seq<Event>)
    requires !Aligned(st)
    ensures !AlwaysAligned(st, events)
  {
  }

  /**
   * The number that answers a refused update is the number of streams ever opened if and only if the
   * request was still attached, or never had a stream. A request that a throwing completion left
   * behind is refused every update, and told 0.
   */
  lemma ReportedCountExact(st: State, id: u64, reason: Reason)
    requires Good(st) && id in st.requests
    ensures var r := FinishRequest(Say(st, id, Rejected(reason)), id, RefusedEnd(reason));
            && id in st.flows && id in r.flows && r.flows[id].replies != []
            && var last := r.flows[id].replies[|r.flows[id].replies| - 1];
               && last.PublishDone? && |r.flows[id].streams.wire| == |st.flows[id].streams.wire|
               && (last.count == |st.flows[id].streams.wire| <==> id in st.subs || st.flows[id].streams.wire == [])
  {
    hide Agreement, FinishRequest, Fits, FlowSound, LiveRanges;
    LiveHaveFlows(st);
    var st1 := Say(st, id, Rejected(reason));
    SameAgreement(st, st1);
    OwnEndsFit(st1, id);
    FinishEffect(st1, id, RefusedEnd(reason));
    assert st.flows[id].streams.count == |st.flows[id].streams.wire| by { CountOf(st.flows[id], StageOf(st, id)); }
  }

  lemma CountOf(f: Flow, stage: Stage)
    requires FlowSound(f, stage)
    ensures f.streams.count == |f.streams.wire|
  {
    hide Carried;
    SoundCount(f.streams);
  }

  lemma UpdateOfAdrift(st: State, id: u64, updateId: u64, o: Options)
    requires id in st.requests && id !in st.subs && FreshPeerId(st, updateId)
    ensures Update(st, id, updateId, Some(o)) ==
            FinishRequest(Say(st.(consumed := st.consumed + {updateId}), id, Rejected(NotEstablished)), id,
                          RefusedEnd(NotEstablished))
  {
    hide FinishRequest;
  }

  /**
   * Every reason over 65535 bytes does it, for every publisher and every subscription: end_track leaves
   * the request behind, and the next update on it is told that there were no streams.
   */
  lemma LongReasonBreaks(st: State, key: TrackKey, end: Ending, order: seq<u64>, updateId: u64, o: Options)
    requires Good(st) && key in st.tracks && Enumerates(st, key, order) && order != [] && |end.reason| > 65535
    requires FreshPeerId(st, updateId) && order[0] in st.flows && st.flows[order[0]].streams.wire != []
    ensures var id := order[0]; var st1 := Step(st, EndTrackCall(key, end, order));
            && id in st1.requests && id !in st1.subs && !Aligned(st1)
            && var st2 := Step(st1, PeerUpdate(id, updateId, Some(o)));
               && id in st2.flows && st2.flows[id].replies != []
               && var last := st2.flows[id].replies[|st2.flows[id].replies| - 1];
                  last.PublishDone? && last.count != |st2.flows[id].streams.wire|
  {
    hide FlowSound, FinishRequest, LiveRanges, Sendable, Agreement;
    var id := order[0];
    var st1 := Step(st, EndTrackCall(key, end, order));
    assert id in order;
    AgreedSets(st, key);
    AgreedKeys(st);
    assert !Sendable(PublishDone(end, StreamCount(st, id))) by { PublishDoneFits(end, StreamCount(st, id)); }
    assert st1 == FinishRequest(st, id, end);
    ThrowBreaks(st, id, end);
    ThrowEffect(st, id, end);
    ThrowGood(st, id, end);
    ConsumeKeeps(st1, updateId, st1.nextAlias);
    UpdateOfAdrift(st1, id, updateId, o);
    ReportedCountExact(st1.(consumed := st1.consumed + {updateId}), id, NotEstablished);
  }

  // ----- a run in which it happens -----

  const SAMPLE_TRACK := TrackKey([], [116])

  const SAMPLE_OBJECT := Published(SAMPLE_TRACK, 0, 0, 0, 128, [], [7], None, SubgroupStream, false, false)

  const NOTHING_ASKED := Options(None, None, None, None)

  /** A track is registered, request 1 subscribes to it and is sent an object. */
  const OPENING_RUN: seq<Event> :=
    [RegisterTrack(SAMPLE_TRACK, []), PeerSubscribe(1, SAMPLE_TRACK, Some(NOTHING_ASKED), true),
     PublishCall(SAMPLE_OBJECT, [1])]

  /** 65536 bytes. */
  function LongReason(): (r: buffer)
    ensures |r| == 65536
  {
    seq(65536, i => 0)
  }

  lemma SampleOkIsSendable()
    ensures Sendable(Accepted(0, None, []))
  {
    hide Varint.Encode;
    assert Parameters.Sort([]) == [];
  }

  lemma OpeningRun()
    ensures var st := Run(Initial(1), OPENING_RUN);
            && AllowedRun(Initial(1), OPENING_RUN)
            && st.subs.Keys == {1} && st.requests == {1} && st.consumed == {1}
            && SAMPLE_TRACK in st.tracks && st.tracks[SAMPLE_TRACK].subs == {1}
            && 1 in st.flows && st.flows[1].streams.wire != []
  {
    hide Step, Run, AllowedRun;
    var st0 := Initial(1);
    OneRegistered();
    OneSubscribed();
    var st2 := Step(Step(st0, OPENING_RUN[0]), OPENING_RUN[1]);
    assert Enumerates(st2, SAMPLE_TRACK, [1]);
    OnePublished(st2);
    RunOfThree(st0, OPENING_RUN[0], OPENING_RUN[1], OPENING_RUN[2]);
  }

  lemma RunOfThree(st: State, a: Event, b: Event, c: Event)
    ensures Run(st, [a, b, c]) == Step(Step(Step(st, a), b), c)
    ensures AllowedRun(st, [a, b, c]) <==>
            Allowed(st, a) && Allowed(Step(st, a), b) && Allowed(Step(Step(st, a), b), c)
  {
    hide Step, Allowed;
    assert [a, b, c][1..] == [b, c] && [b, c][1..] == [c] && [c][1..] == [];
    var st3 := Step(Step(Step(st, a), b), c);
    assert Run(st3, []) == st3 && AllowedRun(st3, []);
    assert Run(Step(Step(st, a), b), [c]) == st3;
    assert AllowedRun(Step(Step(st, a), b), [c]) <==> Allowed(Step(Step(st, a), b), c);
    assert Run(Step(st, a), [b, c]) == st3;
  }

  lemma OneRegistered()
    ensures Step(Initial(1), OPENING_RUN[0]) == Initial(1).(tracks := map[SAMPLE_TRACK := Track(None, {}, [])])
  {
  }

  lemma OneSubscribed()
    ensures var st := Step(Initial(1).(tracks := map[SAMPLE_TRACK := Track(None, {}, [])]), OPENING_RUN[1]);
            && st.ready && st.subs == map[1 := Sub(SAMPLE_TRACK, true, ALL)] && st.requests == {1} && st.consumed == {1}
            && st.tracks == map[SAMPLE_TRACK := Track(None, {1}, [])]
            && st.flows == map[1 := Flow(NoStreams(0), [], [], [Accepted(0, None, [])])]
  {
    hide Sendable;
    SampleOkIsSendable();
    assert [] + [Accepted(0, None, [])] == [Accepted(0, None, [])];
  }

  lemma OnePublished(st: State)
    requires st.ready && st.subs == map[1 := Sub(SAMPLE_TRACK, true, ALL)] && st.requests == {1}
    requires st.tracks == map[SAMPLE_TRACK := Track(None, {1}, [])]
    requires st.flows == map[1 := Flow(NoStreams(0), [], [], [Accepted(0, None, [])])]
    ensures var r := Step(st, PublishCall(SAMPLE_OBJECT, [1]));
            && r.subs == st.subs && r.requests == st.requests && r.consumed == st.consumed
            && r.tracks.Keys == {SAMPLE_TRACK} && r.tracks[SAMPLE_TRACK].subs == {1}
            && 1 in r.flows && r.flows[1].streams.wire != []
  {
    hide EncodeHeader, ObjectBytes, FinishRequest;
    var a := Advance(st, SAMPLE_OBJECT);
    var b := PublishTo(a, 1, SAMPLE_OBJECT);
    assert b == Send(a, 1, SAMPLE_OBJECT);
    assert [1][1..] == [] && PublishAll(b, [], SAMPLE_OBJECT) == b;
    assert PublishAll(a, [1], SAMPLE_OBJECT) == b;
  }

  /** The input: end_track with a reason of 65536 bytes, then a REQUEST_UPDATE on the request it left behind. */
  lemma OversizedReasonRun()
    ensures var st := Run(Initial(1), OPENING_RUN);
            var st1 := Step(st, EndTrackCall(SAMPLE_TRACK, Ending(TrackEnded, LongReason()), [1]));
            && AllowedRun(Initial(1), OPENING_RUN) && 1 in st1.requests && 1 !in st1.subs
            && var st2 := Step(st1, PeerUpdate(1, 3, Some(NOTHING_ASKED)));
               && 1 in st2.flows && st2.flows[1].replies != []
               && var last := st2.flows[1].replies[|st2.flows[1].replies| - 1];
                  last.PublishDone? && last.count != |st2.flows[1].streams.wire|
  {
    hide Run, Step, Good, AllowedRun;
    OpeningRun();
    Reachable(1, OPENING_RUN);
    var st := Run(Initial(1), OPENING_RUN);
    assert Enumerates(st, SAMPLE_TRACK, [1]);
    LongReasonBreaks(st, SAMPLE_TRACK, Ending(TrackEnded, LongReason()), [1], 3, NOTHING_ASKED);
  }
}

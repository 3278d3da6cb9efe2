/** What every step of the publisher keeps, in every run. */
module PublishingInvariants {
  import opened Basics
  import opened SubgroupWire
  import opened SubgroupSend
  import opened SendStreams
  import opened Publishing
  import Varint

  /**
   * The send plane's subscriptions are requests of the session, and each sits in its own track's set
   * and nowhere else.
   */
  predicate Agreement(st: State) {
    && st.subs.Keys <= st.requests
    && (forall id :: id in st.subs ==> st.subs[id].track in st.tracks && id in st.tracks[st.subs[id].track].subs)
    && (forall key, id :: key in st.tracks && id in st.tracks[key].subs ==> id in st.subs && st.subs[id].track == key)
  }

  /** Every request is a subscription too: no completion has been cut short by an exception. */
  predicate Aligned(st: State) {
    st.requests == st.subs.Keys
  }

  /** Every live request has an odd, consumed id and a flow; the number of requests is bounded. */
  predicate Accounted(st: State) {
    && (forall id :: id in st.requests ==> id % 2 == 1 && id in st.flows)
    && (forall id :: id in st.flows ==> id in st.consumed)
    && |st.requests| <= st.limit
    && (!st.ready ==> st.requests == {})
  }

  /** No live subscription has been overtaken by its track. */
  predicate LiveRanges(st: State) {
    forall id :: id in st.subs ==> !Past(st.subs[id].range, LargestOf(st, st.subs[id].track))
  }

  /** While an object is being published, only subscriptions it overtakes may be behind their track. */
  predicate OnlyBeyond(st: State, o: Published) {
    forall id :: id in st.subs && Past(st.subs[id].range, LargestOf(st, st.subs[id].track)) ==>
                   st.subs[id].track == o.track && Beyond(st.subs[id], o)
  }

  /** SUBSCRIBE_OK, then one REQUEST_OK per update. */
  predicate LiveReplies(rs: seq<Reply>) {
    rs != [] && rs[0].Accepted? && forall i :: 1 <= i < |rs| ==> rs[i].Updated?
  }

  /** PUBLISH_DONE closes a request stream; a refused update says so just before. */
  predicate DoneReplies(rs: seq<Reply>, count: nat) {
    var n := |rs| - 1;
    && n > 0 && rs[n].PublishDone? && rs[n].count == count
    && (LiveReplies(rs[..n]) || (n > 1 && rs[n - 1].Rejected? && LiveReplies(rs[..n - 1])))
  }

  predicate ValidDatagrams(ds: seq<Published>) {
    forall i :: 0 <= i < |ds| ==> ValidPublish(ds[i])
  }

  /** Attached to the send plane; only in the session's table, after a completion that threw; or gone. */
  datatype Stage = Attached | Adrift | Gone

  function StageOf(st: State, id: u64): Stage {
    if id in st.subs then Attached else if id in st.requests then Adrift else Gone
  }

  /**
   * A request's flow. While it is listed its replies have the live form. When it is not attached no
   * stream is left open. When it is gone it was never answered, rejected, cancelled, or done with the
   * number of streams it ever opened, or with 0 if it had been adrift.
   */
  predicate FlowSound(f: Flow, stage: Stage) {
    && Sound(f.streams)
    && multiset(f.sent) == Carried(f.streams.wire) + multiset(f.datagrams)
    && ValidDatagrams(f.datagrams)
    && (!stage.Gone? ==> LiveReplies(f.replies))
    && (!stage.Attached? ==> NoneLive(f.streams.wire))
    && (stage.Gone? ==> LiveReplies(f.replies) || DoneReplies(f.replies, |f.streams.wire|) || DoneReplies(f.replies, 0)
                        || (Unanswered(f.replies) && f.streams.wire == []))
  }

  predicate Unanswered(rs: seq<Reply>) {
    rs == [] || (|rs| == 1 && rs[0].Rejected?)
  }

  predicate FlowsSound(st: State) {
    forall id :: id in st.flows ==> FlowSound(st.flows[id], StageOf(st, id))
  }

  predicate Good(st: State) {
    Agreement(st) && Accounted(st) && LiveRanges(st) && FlowsSound(st)
  }

  // ----- removing requests -----

  lemma SameAgreement(st: State, r: State)
    requires Agreement(st) && r.tracks == st.tracks && r.subs == st.subs && r.requests == st.requests
    ensures Agreement(r)
  {
  }

  /** The tables without the given requests. */
  function Removed(st: State, ids: set<u64>): State {
    st.(tracks := map key | key in st.tracks :: Without(st.tracks[key], ids), subs := st.subs - ids,
        requests := st.requests - ids)
  }

  /** The flow of a request once its streams have been closed, if it was attached. */
  function ClosedFlow(st: State, id: u64): Flow
    requires id in st.flows
  {
    if id in st.subs then st.flows[id].(streams := CloseAll(st.flows[id].streams, false)) else st.flows[id]
  }

  lemma FinishEffect(st: State, id: u64, end: Ending)
    requires Agreement(st) && Fits(st, id, end)
    ensures var r := FinishRequest(st, id, end);
            r == Removed(st, {id}).(flows := r.flows) && r.flows.Keys == st.flows.Keys
    ensures forall other :: other in st.flows && other != id ==>
            FinishRequest(st, id, end).flows[other] == st.flows[other]
    ensures id in st.requests && id in st.flows ==>
              FinishRequest(st, id, end).flows[id] ==
                  AddReply(ClosedFlow(st, id), PublishDone(end, StreamCount(st, id)))
    ensures id !in st.requests ==> FinishRequest(st, id, end) == st
  {
    hide CloseAll, Sendable;
    if id in st.subs {
      DetachEffect(st, id, false);
    } else {
      WithoutAbsent(st, id);
    }
  }

  /** The completion that throws: the subscription is gone from the send plane, the request is not. */
  lemma ThrowEffect(st: State, id: u64, end: Ending)
    requires Agreement(st) && !Fits(st, id, end)
    ensures var r := FinishRequest(st, id, end);
            && r == Removed(st, {id}).(flows := r.flows, requests := st.requests) && r.flows.Keys == st.flows.Keys
            && (forall other :: other in st.flows && other != id ==> r.flows[other] == st.flows[other])
            && (id in st.flows ==> r.flows[id] == ClosedFlow(st, id))
  {
    hide CloseAll, Sendable;
    if id in st.subs {
      DetachEffect(st, id, false);
    } else {
      WithoutAbsent(st, id);
    }
  }

  /** What a completion does in either case. */
  lemma FinishAny(st: State, id: u64, end: Ending)
    requires Agreement(st)
    ensures var r := FinishRequest(st, id, end);
            && r.tracks == Removed(st, {id}).tracks && r.subs == st.subs - {id} && r.flows.Keys == st.flows.Keys
            && (forall other :: other in st.flows && other != id ==> r.flows[other] == st.flows[other])
            && (id !in st.requests ==> r == st) && r.requests <= st.requests
    ensures id in st.flows ==>
              var f := FinishRequest(st, id, end).flows[id];
              && f.sent == st.flows[id].sent
              && (f.replies == st.flows[id].replies ||
                  f.replies == st.flows[id].replies + [PublishDone(end, StreamCount(st, id))])
  {
    hide FinishRequest, Sendable, CloseAll;
    if Fits(st, id, end) {
      FinishEffect(st, id, end);
    } else {
      ThrowEffect(st, id, end);
    }
  }

  lemma DetachEffect(st: State, id: u64, reset: bool)
    requires Agreement(st) && id in st.subs
    ensures var r := Detach(st, id, reset);
            r.tracks == Removed(st, {id}).tracks && r.flows.Keys == st.flows.Keys
  {
    hide CloseAll;
    var r, want := Detach(st, id, reset).tracks, Removed(st, {id}).tracks;
    forall key | key in st.tracks
      ensures r[key] == want[key]
    {
      if key != st.subs[id].track {
        assert id !in st.tracks[key].subs;
        assert st.tracks[key].subs - {id} == st.tracks[key].subs;
      }
    }
  }

  lemma WithoutAbsent(st: State, id: u64)
    requires Agreement(st) && id !in st.subs
    ensures Removed(st, {id}) == st.(requests := st.requests - {id})
    ensures id !in st.requests ==> Removed(st, {id}) == st
  {
    forall key | key in st.tracks
      ensures Without(st.tracks[key], {id}) == st.tracks[key]
    {
      assert id !in st.tracks[key].subs;
      assert st.tracks[key].subs - {id} == st.tracks[key].subs;
    }
    assert st.subs - {id} == st.subs;
    assert id !in st.requests ==> st.requests - {id} == st.requests;
  }

  lemma RemovedAgrees(st: State, ids: set<u64>, flows: map<u64, Flow>)
    requires Agreement(st)
    ensures Agreement(Removed(st, ids).(flows := flows))
  {
  }

  lemma RemovedKeeps(st: State, ids: set<u64>, flows: map<u64, Flow>)
    requires Agreement(st) && Accounted(st) && flows.Keys == st.flows.Keys
    ensures var r := Removed(st, ids).(flows := flows);
            && Agreement(r) && Accounted(r) && (LiveRanges(st) ==> LiveRanges(r))
            && (forall o :: OnlyBeyond(st, o) ==> OnlyBeyond(r, o))
  {
    hide Agreement, Accounted, LiveRanges, OnlyBeyond;
    RemovedAgrees(st, ids, flows);
    RemovedAccounted(st, ids, flows);
    RemovedRanges(st, ids, flows);
    forall o | OnlyBeyond(st, o) ensures OnlyBeyond(Removed(st, ids).(flows := flows), o) {
      RemovedBeyond(st, ids, flows, o);
    }
  }

  lemma RemovedAccounted(st: State, ids: set<u64>, flows: map<u64, Flow>)
    requires Accounted(st) && flows.Keys == st.flows.Keys
    ensures Accounted(Removed(st, ids).(flows := flows))
  {
    Fewer(st.requests - ids, st.requests);
  }

  lemma RemovedRanges(st: State, ids: set<u64>, flows: map<u64, Flow>)
    ensures LiveRanges(st) ==> LiveRanges(Removed(st, ids).(flows := flows))
  {
    hide Past, LargestOf;
    SameLargest(st, ids, flows);
  }

  lemma RemovedBeyond(st: State, ids: set<u64>, flows: map<u64, Flow>, o: Published)
    requires OnlyBeyond(st, o)
    ensures OnlyBeyond(Removed(st, ids).(flows := flows), o)
  {
    hide Past, LargestOf, Beyond;
    SameLargest(st, ids, flows);
  }

  lemma SameLargest(st: State, ids: set<u64>, flows: map<u64, Flow>)
    ensures forall key :: LargestOf(Removed(st, ids).(flows := flows), key) == LargestOf(st, key)
  {
  }

  lemma Fewer(a: set<u64>, b: set<u64>)
    requires a <= b
    ensures |a| <= |b|
  {
    assert b == a + (b - a);
  }

  // ----- flows -----

  /** A flow that PUBLISH_DONE may close: live, or just told that an update was refused. */
  predicate Finishable(f: Flow) {
    && Sound(f.streams)
    && multiset(f.sent) == Carried(f.streams.wire) + multiset(f.datagrams)
    && ValidDatagrams(f.datagrams)
    && var n := |f.replies| - 1;
       LiveReplies(f.replies) || (n > 0 && f.replies[n].Rejected? && LiveReplies(f.replies[..n]))
  }

  lemma FinishedFlow(f: Flow, end: Ending)
    requires Finishable(f)
    ensures FlowSound(AddReply(f.(streams := CloseAll(f.streams, false)), PublishDone(end, f.streams.count)), Gone)
  {
    hide Sound, LiveReplies;
    EndedStreams(f.streams, false);
    DoneForm(f.replies, PublishDone(end, f.streams.count));
    assert f.streams.count == |f.streams.wire| by { SoundCount(f.streams); }
  }

  /** A request that was adrift is done with the number of streams its subscription has: none. */
  lemma AdriftFlow(f: Flow, end: Ending)
    requires Finishable(f) && NoneLive(f.streams.wire)
    ensures FlowSound(AddReply(f, PublishDone(end, 0)), Gone)
  {
    hide Sound, LiveReplies, NoneLive;
    DoneForm(f.replies, PublishDone(end, 0));
  }

  lemma DoneForm(replies: seq<Reply>, done: Reply)
    requires done.PublishDone?
    requires var n := |replies| - 1;
             LiveReplies(replies) || (n > 0 && replies[n].Rejected? && LiveReplies(replies[..n]))
    ensures DoneReplies(replies + [done], done.count)
  {
    hide LiveReplies;
    var rs, n := replies + [done], |replies|;
    assert rs[..n] == replies;
    assert n > 0 ==> rs[..n - 1] == replies[..n - 1];
    assert LiveReplies(replies) ==> n > 0 by { LiveNotEmpty(replies); }
  }

  lemma LiveNotEmpty(rs: seq<Reply>)
    ensures LiveReplies(rs) ==> rs != []
  {
  }

  lemma SoundCount(s: Streams)
    requires Sound(s)
    ensures s.count == |s.wire|
  {
  }

  lemma EndedStreams(s: Streams, reset: bool)
    requires Sound(s)
    ensures var r := CloseAll(s, reset);
            Sound(r) && NoneLive(r.wire) && Carried(r.wire) == Carried(s.wire) && |r.wire| == |s.wire|
  {
    hide Sound, Carried;
    CloseAllSound(s, reset);
    CarriedSame(CloseAll(s, reset).wire, s.wire);
  }

  lemma CancelledFlow(f: Flow)
    requires FlowSound(f, Attached)
    ensures FlowSound(f.(streams := CloseAll(f.streams, true)), Gone)
  {
    hide Sound, LiveReplies, CloseAll, Carried;
    EndedStreams(f.streams, true);
  }

  /** Closing the streams without saying so sets the request adrift; an adrift one may just go. */
  lemma DriftingFlow(f: Flow)
    ensures FlowSound(f, Attached) ==> FlowSound(f.(streams := CloseAll(f.streams, false)), Adrift)
    ensures FlowSound(f, Adrift) ==> FlowSound(f, Gone)
  {
    hide Sound, LiveReplies, CloseAll, Carried, NoneLive;
    if FlowSound(f, Attached) {
      EndedStreams(f.streams, false);
    }
  }

  lemma SentFlow(f: Flow, o: Published)
    requires FlowSound(f, Attached) && Publishable(o)
    ensures FlowSound(SendOn(f, o), Attached)
  {
    hide Sound, LiveReplies, Carried, SendObject, ValidPublish;
    if !o.kind.Datagram? {
      SendObjectSound(f.streams, o);
      SendObjectCarries(f.streams, o);
    }
  }

  // ----- the operations -----

  /** The texts of the program itself are short. */
  predicate Brief(end: Ending) {
    |end.reason| <= 1024
  }

  lemma BriefIsSendable(end: Ending, count: nat)
    requires Brief(end)
    ensures Sendable(PublishDone(end, count))
  {
    hide Varint.Encode;
  }

  lemma OwnEndsFit(st: State, id: u64)
    ensures Fits(st, id, RANGE_END) && Fits(st, id, TRACK_END) && Fits(st, id, UNREGISTERED)
    ensures forall reason :: Fits(st, id, RefusedEnd(reason))
  {
    hide Sendable;
    var count := StreamCount(st, id);
    BriefIsSendable(RANGE_END, count);
    BriefIsSendable(TRACK_END, count);
    BriefIsSendable(UNREGISTERED, count);
    forall reason ensures Fits(st, id, RefusedEnd(reason)) {
      BriefIsSendable(RefusedEnd(reason), count);
    }
  }

  /** A flow that finish may find: attached or adrift, its replies those of a live or a refused request. */
  predicate MayFinish(st: State, id: u64) {
    id in st.flows && id in st.requests ==>
      Finishable(st.flows[id]) && (id !in st.subs ==> NoneLive(st.flows[id].streams.wire))
  }

  /** finish keeps the tables and ends the flow of the request, once that flow may be ended. */
  lemma FinishKeeps(st: State, id: u64, end: Ending)
    requires Agreement(st) && Accounted(st) && Fits(st, id, end) && MayFinish(st, id)
    requires forall other :: other in st.flows && other != id ==> FlowSound(st.flows[other], StageOf(st, other))
    requires id in st.flows && id !in st.requests ==> FlowSound(st.flows[id], Gone)
    ensures var r := FinishRequest(st, id, end);
            && Agreement(r) && Accounted(r) && FlowsSound(r) && id !in r.requests
            && (LiveRanges(st) ==> LiveRanges(r)) && (forall o :: OnlyBeyond(st, o) ==> OnlyBeyond(r, o))
  {
    hide FinishRequest, FlowSound, Finishable, Agreement, Accounted, LiveRanges, OnlyBeyond, CloseAll, Fits, NoneLive;
    FinishEffect(st, id, end);
    RemovedKeeps(st, {id}, FinishRequest(st, id, end).flows);
    LiveHaveFlows(st);
    AgreedKeys(st);
    if id in st.requests {
      if id in st.subs {
        FinishedFlow(st.flows[id], end);
      } else {
        AdriftFlow(st.flows[id], end);
      }
    }
  }

  lemma LiveHaveFlows(st: State)
    requires Accounted(st)
    ensures forall id :: id in st.requests ==> id in st.flows
  {
  }

  lemma CancelKeeps(st: State, id: u64)
    requires Good(st)
    ensures Good(CancelRequest(st, id))
  {
    hide FlowSound, Agreement, Accounted, LiveRanges, CloseAll, Detach;
    if id in st.requests {
      var r := CancelRequest(st, id);
      CancelEffect(st, id);
      RemovedKeeps(st, {id}, r.flows);
      LiveHaveFlows(st);
      AgreedKeys(st);
      if id in st.subs {
        CancelledFlow(st.flows[id]);
      } else {
        DriftingFlow(st.flows[id]);
      }
    }
  }

  lemma CancelEffect(st: State, id: u64)
    requires Agreement(st) && id in st.requests
    ensures var r := CancelRequest(st, id);
            && r == Removed(st, {id}).(flows := r.flows) && r.flows.Keys == st.flows.Keys
            && (forall other :: other in st.flows && other != id ==> r.flows[other] == st.flows[other])
            && (id in st.flows && id in st.subs ==>
                  r.flows[id] == st.flows[id].(streams := CloseAll(st.flows[id].streams, true)))
            && (id in st.flows && id !in st.subs ==> r.flows[id] == st.flows[id])
  {
    hide CloseAll;
    if id in st.subs {
      DetachEffect(st, id, true);
    } else {
      WithoutAbsent(st, id);
    }
  }

  lemma ShutdownKeeps(st: State)
    requires Good(st)
    ensures Good(Shutdown(st))
  {
    hide FlowSound, Agreement, Accounted, LiveRanges, CloseAll;
    if st.ready {
      var r := CancelAll(st);
      assert r == Removed(st, st.requests).(flows := r.flows) by {
        assert st.requests - st.requests == {};
      }
      RemovedKeeps(st, st.requests, r.flows);
      AgreedKeys(st);
      forall id | id in r.flows
        ensures FlowSound(r.flows[id], StageOf(r, id))
      {
        if id in st.subs {
          CancelledFlow(st.flows[id]);
        } else {
          DriftingFlow(st.flows[id]);
        }
      }
      NotReady(r);
    }
  }

  lemma AgreedKeys(st: State)
    requires Agreement(st)
    ensures st.subs.Keys <= st.requests
  {
  }

  /** With no request left, closing the session takes nothing away. */
  lemma NotReady(st: State)
    requires Agreement(st) && Accounted(st) && LiveRanges(st) && st.requests == {}
    ensures var r := st.(ready := false); Agreement(r) && Accounted(r) && LiveRanges(r)
  {
  }

  // ----- subscribing and updating -----

  /** Consuming a Request ID and drawing an alias touch none of the tables. */
  lemma ConsumeKeeps(st: State, id: u64, alias: u64)
    requires Good(st)
    ensures Good(st.(consumed := st.consumed + {id}, nextAlias := alias))
  {
    hide FlowSound;
  }

  lemma SubscribeKeeps(st: State, id: u64, key: TrackKey, options: Option<Options>, sendOk: bool)
    requires Good(st) && st.ready
    ensures Good(Subscribe(st, id, key, options, sendOk))
  {
    hide Good, Shutdown, Requested, Reject, Accept, Reserved, Wrap;
    if FreshPeerId(st, id) {
      var st1 := st.(consumed := st.consumed + {id});
      var st2 := st1.(nextAlias := Wrap(st1.nextAlias + 1));
      ConsumeKeeps(st, id, st.nextAlias);
      ConsumeKeeps(st, id, st2.nextAlias);
      ShutdownKeeps(st1);
      NotYetSeen(st, id);
      forall reason
        ensures Good(Reject(st1, id, reason)) && Good(Reject(st2, id, reason))
      {
        RejectKeeps(st1, id, reason);
        RejectKeeps(st2, id, reason);
      }
      if options.Some? && |st.requests| < st.limit && Requested(st2, key, options.value).Granted? {
        var sub := Requested(st2, key, options.value).value;
        AttachKeeps(st2, id, key, options.value, st1.nextAlias);
        SilentKeeps(st2, id, key, options.value, st1.nextAlias);
      }
    } else {
      ShutdownKeeps(st);
    }
  }

  lemma NotYetSeen(st: State, id: u64)
    requires Good(st) && id !in st.consumed
    ensures id !in st.flows && id !in st.requests && id !in st.subs
  {
    hide FlowSound;
  }

  lemma RejectKeeps(st: State, id: u64, reason: Reason)
    requires Good(st) && id in st.consumed && id !in st.requests
    ensures Good(Reject(st, id, reason))
  {
    hide FlowSound, Agreement, LiveRanges;
    AgreedKeys(st);
    NewFlows(reason, 0);
    FlowsOnly(st, Reject(st, id, reason).flows);
  }

  /** The agreement and the ranges do not look at the flows. */
  lemma FlowsOnly(st: State, flows: map<u64, Flow>)
    ensures Agreement(st.(flows := flows)) == Agreement(st)
    ensures LiveRanges(st.(flows := flows)) == LiveRanges(st)
    ensures forall o :: OnlyBeyond(st.(flows := flows), o) == OnlyBeyond(st, o)
  {
  }

  /** SUBSCRIBE_OK for a request that asked for the track. */
  function OkFor(st: State, key: TrackKey, alias: u64): Reply
    requires key in st.tracks
  {
    Accepted(alias, st.tracks[key].largest, st.tracks[key].properties)
  }

  lemma NewFlows(reason: Reason, alias: u64)
    ensures FlowSound(Flow(NoStreams(0), [], [], [Rejected(reason)]), Gone)
    ensures forall ok: Reply :: ok.Accepted? ==> FlowSound(AddReply(Flow(NoStreams(alias), [], [], []), ok), Attached)
    ensures FlowSound(Flow(CloseAll(NoStreams(alias), true), [], [], []), Gone)
  {
  }

  lemma AttachKeeps(st: State, id: u64, key: TrackKey, o: Options, alias: u64)
    requires Good(st) && st.ready && id % 2 == 1 && id in st.consumed && id !in st.flows && id !in st.requests
    requires |st.requests| < st.limit && Requested(st, key, o).Granted?
    ensures key in st.tracks
    ensures Good(Say(Accept(st, id, Requested(st, key, o).value, alias), id, OkFor(st, key, alias)))
  {
    hide FlowSound, Agreement, LiveRanges, Requested, Attach;
    var sub := Requested(st, key, o).value;
    GrantedSub(st, key, o);
    AgreedKeys(st);
    var st3 := Attach(st, id, sub);
    var st4 := st3.(requests := st3.requests + {id});
    AttachAgrees(st, id, sub);
    AttachRanges(st, id, sub);
    FlowsOnly(st4, Say(Accept(st, id, sub, alias), id, OkFor(st, key, alias)).flows);
    AttachAccounted(st, id, sub, alias, OkFor(st, key, alias));
  }

  /** A request whose SUBSCRIBE_OK cannot be said goes down with the session, without an answer. */
  lemma SilentKeeps(st: State, id: u64, key: TrackKey, o: Options, alias: u64)
    requires Good(st) && st.ready && id % 2 == 1 && id in st.consumed && id !in st.flows && id !in st.requests
    requires |st.requests| < st.limit && Requested(st, key, o).Granted?
    ensures Good(Shutdown(Accept(st, id, Requested(st, key, o).value, alias)))
  {
    hide Good, Requested, Attach, CloseAll;
    var sub := Requested(st, key, o).value;
    AttachKeeps(st, id, key, o, alias);
    var said := Say(Accept(st, id, sub, alias), id, OkFor(st, key, alias));
    ShutdownKeeps(said);
    var r := Shutdown(Accept(st, id, sub, alias));
    GrantedSub(st, key, o);
    assert r == Shutdown(said).(flows := r.flows) by { SilentTables(st, id, sub, alias, OkFor(st, key, alias)); }
    SilentFlows(st, id, sub, alias, OkFor(st, key, alias));
  }

  lemma SilentTables(st: State, id: u64, sub: Sub, alias: u64, ok: Reply)
    requires st.ready && sub.track in st.tracks
    ensures var a, b := Shutdown(Accept(st, id, sub, alias)), Shutdown(Say(Accept(st, id, sub, alias), id, ok));
            && a == b.(flows := a.flows) && a.flows.Keys == b.flows.Keys && id in a.flows
            && (forall other :: other in a.flows && other != id ==> a.flows[other] == b.flows[other])
            && a.flows[id] == Flow(CloseAll(NoStreams(alias), true), [], [], [])
            && id !in a.requests && id !in a.subs
  {
    hide CloseAll;
  }

  lemma SilentFlows(st: State, id: u64, sub: Sub, alias: u64, ok: Reply)
    requires st.ready && sub.track in st.tracks && Good(Shutdown(Say(Accept(st, id, sub, alias), id, ok)))
    ensures Good(Shutdown(Accept(st, id, sub, alias)))
  {
    hide FlowSound, Agreement, LiveRanges, Shutdown, Accept, Say, CloseAll;
    var a, b := Shutdown(Accept(st, id, sub, alias)), Shutdown(Say(Accept(st, id, sub, alias), id, ok));
    SilentTables(st, id, sub, alias, ok);
    FlowsOnly(b, a.flows);
    AccountedFlows(b, a.flows);
    NewFlows(NotSupported, alias);
  }

  lemma AttachAccounted(st: State, id: u64, sub: Sub, alias: u64, ok: Reply)
    requires Accounted(st) && FlowsSound(st) && st.ready && sub.track in st.tracks && ok.Accepted?
    requires id % 2 == 1 && id in st.consumed && id !in st.flows && id !in st.requests && |st.requests| < st.limit
    ensures var r := Say(Accept(st, id, sub, alias), id, ok); Accounted(r) && FlowsSound(r)
  {
    hide FlowSound;
    NewFlows(NotSupported, alias);
    assert |st.requests + {id}| == |st.requests| + 1;
  }

  lemma GrantedSub(st: State, key: TrackKey, o: Options)
    requires Requested(st, key, o).Granted?
    ensures var sub := Requested(st, key, o).value;
            sub.track == key && key in st.tracks && !Past(sub.range, st.tracks[key].largest)
  {
    hide Resolve;
  }

  lemma AttachAgrees(st: State, id: u64, sub: Sub)
    requires Agreement(st) && sub.track in st.tracks && id !in st.subs
    ensures var r := Attach(st, id, sub); Agreement(r.(requests := r.requests + {id}))
  {
  }

  lemma AttachRanges(st: State, id: u64, sub: Sub)
    requires LiveRanges(st) && sub.track in st.tracks && !Past(sub.range, st.tracks[sub.track].largest)
    ensures var r := Attach(st, id, sub); LiveRanges(r.(requests := r.requests + {id}))
  {
    hide Past;
    var r := Attach(st, id, sub);
    assert forall key :: LargestOf(r, key) == LargestOf(st, key);
  }

  lemma UpdateKeeps(st: State, id: u64, updateId: u64, options: Option<Options>)
    requires Good(st)
    ensures Good(Update(st, id, updateId, options))
  {
    hide Good, Shutdown, UpdatedSub, FinishRequest, Say;
    ShutdownKeeps(st);
    if id in st.requests && FreshPeerId(st, updateId) {
      var st1 := st.(consumed := st.consumed + {updateId});
      ConsumeKeeps(st, updateId, st.nextAlias);
      ShutdownKeeps(st1);
      if options.Some? {
        match UpdatedSub(st1, id, options.value)
        case Refused(reason) =>
          RefusedUpdate(st1, id, reason);
        case Granted(sub) =>
          GrantedUpdate(st1, id, options.value, sub, LargestOf(st1, sub.track));
      }
    }
  }

  lemma RefusedUpdate(st: State, id: u64, reason: Reason)
    requires Good(st) && id in st.requests
    ensures Good(FinishRequest(Say(st, id, Rejected(reason)), id, RefusedEnd(reason)))
  {
    hide FlowSound, Finishable, Agreement, LiveRanges, FinishRequest, Fits, NoneLive;
    var st1 := Say(st, id, Rejected(reason));
    FlowsOnly(st, st1.flows);
    RefusedFlow(st.flows[id], StageOf(st, id), reason);
    OwnEndsFit(st1, id);
    FinishKeeps(st1, id, RefusedEnd(reason));
  }

  lemma RefusedFlow(f: Flow, stage: Stage, reason: Reason)
    requires FlowSound(f, stage) && !stage.Gone?
    ensures Finishable(AddReply(f, Rejected(reason))) && (stage.Adrift? ==> NoneLive(f.streams.wire))
  {
    hide Sound, Carried;
    assert (f.replies + [Rejected(reason)])[..|f.replies|] == f.replies;
  }

  lemma UpdatedFlow(f: Flow, largest: Option<Location>)
    requires FlowSound(f, Attached)
    ensures FlowSound(AddReply(f, Updated(largest)), Attached)
  {
    hide Sound, Carried;
  }

  lemma GrantedUpdate(st: State, id: u64, o: Options, sub: Sub, largest: Option<Location>)
    requires Good(st) && id in st.requests && UpdatedSub(st, id, o) == Granted(sub)
    ensures Good(Say(st.(subs := st.subs[id := sub]), id, Updated(largest)))
  {
    hide FlowSound, Agreement, LiveRanges, UpdatedSub;
    var st1 := st.(subs := st.subs[id := sub]);
    assert id in st.subs by { GrantedIsAttached(st, id, o); }
    UpdateAgrees(st, id, o, sub);
    UpdatedFlow(st.flows[id], largest);
    FlowsOnly(st1, Say(st1, id, Updated(largest)).flows);
  }

  lemma GrantedIsAttached(st: State, id: u64, o: Options)
    requires UpdatedSub(st, id, o).Granted?
    ensures id in st.subs
  {
  }

  lemma UpdateAgrees(st: State, id: u64, o: Options, sub: Sub)
    requires Agreement(st) && LiveRanges(st) && id in st.requests && UpdatedSub(st, id, o) == Granted(sub)
    ensures var r := st.(subs := st.subs[id := sub]); Agreement(r) && LiveRanges(r)
  {
    hide Resolve, Past, HasTimeout;
    assert forall key :: LargestOf(st.(subs := st.subs[id := sub]), key) == LargestOf(st, key);
  }

  // ----- publishing -----

  lemma PublishKeeps(st: State, o: Published, order: seq<u64>)
    requires Good(st) && Enumerates(st, o.track, order)
    ensures Good(Publish(st, o, order))
  {
    hide FlowSound, Agreement, LiveRanges, OnlyBeyond, PublishAll, Publishable, Beyond;
    if o.track in st.tracks && Publishable(o) {
      AdvanceKeeps(st, o);
      AgreedSets(st, o.track);
      PublishAllKeeps(Advance(st, o), order, o);
    }
  }

  lemma AgreedSets(st: State, key: TrackKey)
    requires Agreement(st) && key in st.tracks
    ensures forall id :: id in st.subs && st.subs[id].track == key <==> id in st.tracks[key].subs
  {
  }

  lemma AdvanceKeeps(st: State, o: Published)
    requires Good(st) && o.track in st.tracks
    ensures var r := Advance(st, o); Agreement(r) && Accounted(r) && FlowsSound(r) && OnlyBeyond(r, o)
  {
    hide FlowSound;
    var r := Advance(st, o);
    forall id | id in r.subs && Past(r.subs[id].range, LargestOf(r, r.subs[id].track))
      ensures r.subs[id].track == o.track && Beyond(r.subs[id], o)
    {
      assert !Past(st.subs[id].range, LargestOf(st, st.subs[id].track));
    }
  }

  /** Every subscription of the object's track is still to be visited, or not overtaken by it. */
  predicate Visited(st: State, order: seq<u64>, o: Published) {
    forall id :: id in st.subs && st.subs[id].track == o.track ==> id in order || !Beyond(st.subs[id], o)
  }

  lemma {:induction false} PublishAllKeeps(st: State, order: seq<u64>, o: Published)
    requires MidPublish(st, o) && Publishable(o) && Visited(st, order, o)
    ensures Good(PublishAll(st, order, o))
    decreases |order|
  {
    hide FlowSound, Agreement, Accounted, Publishable, Beyond, PublishTo, Past;
    if order == [] {
      assert LiveRanges(st);
    } else {
      var r := PublishTo(st, order[0], o);
      PublishToKeeps(st, order[0], o);
      forall id | id in r.subs && r.subs[id].track == o.track
        ensures id in order[1..] || !Beyond(r.subs[id], o)
      {
        assert id in order ==> id == order[0] || id in order[1..];
      }
      PublishAllKeeps(r, order[1..], o);
    }
  }

  /** What holds between the turns of publish's loop. */
  predicate MidPublish(st: State, o: Published) {
    Agreement(st) && Accounted(st) && FlowsSound(st) && OnlyBeyond(st, o)
  }

  lemma MidAgrees(st: State, o: Published)
    requires MidPublish(st, o)
    ensures Agreement(st)
  {
  }

  /** One turn of the loop: the visited subscription is gone, or it was not overtaken. */
  lemma PublishToKeeps(st: State, id: u64, o: Published)
    requires MidPublish(st, o) && Publishable(o)
    ensures var r := PublishTo(st, id, o);
            && MidPublish(r, o) && (r.subs == st.subs || r.subs == st.subs - {id})
            && (id in r.subs ==> !Beyond(r.subs[id], o))
  {
    hide MidPublish, Publishable, Beyond, FinishRequest, Admits, EndsTrack, EndsRange, Send, Without;
    if id !in st.subs {
      assert Agreement(st) by { MidAgrees(st, o); }
      AbsentEverywhere(st, id, o.track);
    } else {
      FinishMid(st, id, RANGE_END, o);
      SendMid(st, id, o);
      var st1 := if Admits(st.subs[id], o) then Send(st, id, o) else st;
      FinishMid(st1, id, RANGE_END, o);
      FinishMid(st1, id, TRACK_END, o);
    }
  }

  lemma FinishMid(st: State, id: u64, end: Ending, o: Published)
    requires MidPublish(st, o) && id in st.subs && (end == RANGE_END || end == TRACK_END)
    ensures var r := FinishRequest(st, id, end); MidPublish(r, o) && r.subs == st.subs - {id}
  {
    hide FlowSound, Agreement, Accounted, OnlyBeyond, FinishRequest, Finishable, Fits;
    AgreedKeys(st);
    LiveHaveFlows(st);
    LiveFlowFinishable(st.flows[id], Attached);
    OwnEndsFit(st, id);
    FinishEffect(st, id, end);
    FinishKeeps(st, id, end);
  }

  lemma SendMid(st: State, id: u64, o: Published)
    requires MidPublish(st, o) && id in st.subs && Publishable(o)
    ensures var r := Send(st, id, o); MidPublish(r, o) && r.subs == st.subs
  {
    hide FlowSound, Agreement, Accounted, OnlyBeyond, Publishable, SendOn;
    AgreedKeys(st);
    LiveHaveFlows(st);
    SentFlow(st.flows[id], o);
    FlowsOnly(st, Send(st, id, o).flows);
    AccountedFlows(st, Send(st, id, o).flows);
  }

  lemma AccountedFlows(st: State, flows: map<u64, Flow>)
    requires flows.Keys == st.flows.Keys
    ensures Accounted(st.(flows := flows)) == Accounted(st)
  {
  }

  lemma AbsentEverywhere(st: State, id: u64, key: TrackKey)
    requires Agreement(st) && id !in st.subs
    ensures key in st.tracks ==> st.tracks[key := Without(st.tracks[key], {id})] == st.tracks
  {
    if key in st.tracks {
      assert st.tracks[key].subs - {id} == st.tracks[key].subs;
    }
  }

  lemma LiveFlowFinishable(f: Flow, stage: Stage)
    requires FlowSound(f, stage) && !stage.Gone?
    ensures Finishable(f) && (stage.Adrift? ==> NoneLive(f.streams.wire))
  {
    hide Sound, Carried, LiveReplies;
  }

  // ----- ending tracks, and whole runs -----

  lemma FinishGood(st: State, id: u64, end: Ending)
    requires Good(st)
    ensures Good(FinishRequest(st, id, end)) && FinishRequest(st, id, end).subs == st.subs - {id}
    ensures FinishRequest(st, id, end).tracks.Keys == st.tracks.Keys
  {
    hide FlowSound, Agreement, Accounted, LiveRanges, FinishRequest, Finishable, Fits, NoneLive;
    AgreedKeys(st);
    LiveHaveFlows(st);
    if Fits(st, id, end) {
      if id in st.requests {
        LiveFlowFinishable(st.flows[id], StageOf(st, id));
      }
      FinishEffect(st, id, end);
      FinishKeeps(st, id, end);
    } else {
      ThrowGood(st, id, end);
      ThrowEffect(st, id, end);
    }
  }

  lemma ThrowGood(st: State, id: u64, end: Ending)
    requires Good(st) && !Fits(st, id, end)
    ensures Good(FinishRequest(st, id, end))
  {
    hide FlowSound, LiveRanges, FinishRequest, Fits, CloseAll;
    var r := FinishRequest(st, id, end);
    ThrowEffect(st, id, end);
    RemovedRanges(st, {id}, r.flows);
    assert LiveRanges(r) by { SameRanges(Removed(st, {id}).(flows := r.flows), r); }
    RemovedAgrees(st, {id}, r.flows);
    if id in st.flows {
      DriftingFlow(st.flows[id]);
    }
  }

  lemma SameRanges(a: State, b: State)
    requires LiveRanges(a) && b.subs == a.subs && b.tracks == a.tracks
    ensures LiveRanges(b)
  {
    hide Past;
    assert forall key :: LargestOf(b, key) == LargestOf(a, key);
  }

  lemma {:induction false} EndAllGood(st: State, order: seq<u64>, end: Ending)
    requires Good(st)
    ensures var r := EndAll(st, order, end);
            && Good(r) && r.tracks.Keys == st.tracks.Keys
            && (forall id :: id in r.subs ==> id in st.subs && r.subs[id] == st.subs[id])
    decreases |order|
  {
    hide Good, FinishRequest, Fits;
    if order != [] {
      FinishGood(st, order[0], end);
      EndAllGood(FinishRequest(st, order[0], end), order[1..], end);
    }
  }

  /** A track that ends for a reason of the program's own ends completely. */
  lemma {:induction false} EndAllEmpties(st: State, order: seq<u64>)
    requires Good(st)
    ensures forall id :: id in EndAll(st, order, UNREGISTERED).subs ==> id !in order
    decreases |order|
  {
    hide Good, FinishRequest, Fits;
    if order != [] {
      var st1 := FinishRequest(st, order[0], UNREGISTERED);
      OwnEndsFit(st, order[0]);
      FinishGood(st, order[0], UNREGISTERED);
      EndAllEmpties(st1, order[1..]);
      EndAllGood(st1, order[1..], UNREGISTERED);
    }
  }

  lemma UnregisterKeeps(st: State, key: TrackKey, order: seq<u64>)
    requires Good(st) && Enumerates(st, key, order)
    ensures Good(Step(st, UnregisterTrack(key, order)))
  {
    hide FlowSound, Accounted, EndAll;
    if key in st.tracks {
      AgreedSets(st, key);
      EndAllGood(st, order, UNREGISTERED);
      EndAllEmpties(st, order);
      ForgetTrack(EndAll(st, order, UNREGISTERED), key);
    } else {
      assert st.tracks - {key} == st.tracks;
    }
  }

  /** The bookkeeping of requests and flows does not look at the tracks. */
  lemma TracksOnly(st: State, tracks: map<TrackKey, Track>)
    ensures Accounted(st.(tracks := tracks)) == Accounted(st)
    ensures FlowsSound(st.(tracks := tracks)) == FlowsSound(st)
  {
    hide FlowSound;
  }

  /** A track without subscriptions can be taken out. */
  lemma ForgetTrack(st: State, key: TrackKey)
    requires Good(st) && forall id :: id in st.subs ==> st.subs[id].track != key
    ensures Good(st.(tracks := st.tracks - {key}))
  {
    hide FlowsSound, Accounted, Past;
    TracksOnly(st, st.tracks - {key});
    var r := st.(tracks := st.tracks - {key});
    assert Agreement(r);
    assert forall other :: other != key ==> LargestOf(r, other) == LargestOf(st, other);
  }

  lemma RegisterKeeps(st: State, key: TrackKey, properties: buffer)
    requires Good(st)
    ensures Good(Step(st, RegisterTrack(key, properties)))
  {
    hide FlowsSound, Accounted, Past, Reserved;
    var r := Step(st, RegisterTrack(key, properties));
    TracksOnly(st, r.tracks);
    assert forall other :: other in st.tracks ==> LargestOf(r, other) == LargestOf(st, other);
  }

  lemma StepKeeps(st: State, e: Event)
    requires Good(st) && Allowed(st, e)
    ensures Good(Step(st, e))
  {
    hide Good, Publish, Subscribe, Update, CancelRequest, Shutdown, EndAll;
    match e
    case RegisterTrack(key, properties) => RegisterKeeps(st, key, properties);
    case UnregisterTrack(key, order) => UnregisterKeeps(st, key, order);
    case EndTrackCall(key, end, order) => EndAllGood(st, order, end);
    case PublishCall(o, order) => PublishKeeps(st, o, order);
    case PeerSubscribe(id, key, options, sendOk) =>
      if st.ready {
        SubscribeKeeps(st, id, key, options, sendOk);
      }
    case PeerUpdate(id, updateId, options) => UpdateKeeps(st, id, updateId, options);
    case PeerCancel(id) => CancelKeeps(st, id);
    case Violation => ShutdownKeeps(st);
  }

  lemma {:induction false} RunKeeps(st: State, events: seq<Event>)
    requires Good(st) && AllowedRun(st, events)
    ensures Good(Run(st, events))
    decreases |events|
  {
    hide Good, Step;
    if events != [] {
      StepKeeps(st, events[0]);
      RunKeeps(Step(st, events[0]), events[1..]);
    }
  }

  /** Everything above holds in every state the publisher can reach. */
  lemma Reachable(limit: nat, events: seq<Event>)
    requires AllowedRun(Initial(limit), events)
    ensures Good(Run(Initial(limit), events))
  {
    RunKeeps(Initial(limit), events);
  }
}

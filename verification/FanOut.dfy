/** What subscribers get from a publisher, over whole runs. */
module FanOut {
  import opened Basics
  import opened SubgroupSend
  import opened SendStreams
  import opened Publishing
  import opened PublishingInvariants
  import opened Completions
  import opened RequestViews
  import opened RequestRuns
  import Reception

  // ----- the invariants, in the reader's words -----

  /**
   * In every reachable state each subscription of the send plane is a request of the session and sits
   * in exactly its own registered track's set; all requests are accounted for. The session's keys
   * equal the send plane's at every point of a run if and only if every PUBLISH_DONE of it fits its frame.
   */
  lemma IndicesAgree(limit: nat, events: seq<Event>)
    requires AllowedRun(Initial(limit), events)
    ensures var st := Run(Initial(limit), events);
            && st.subs.Keys <= st.requests && |st.requests| <= limit
            && (forall id :: id in st.requests ==> id % 2 == 1 && id in st.consumed)
            && (forall key, id :: key in st.tracks && id in st.tracks[key].subs <==>
                                  key in st.tracks && id in st.subs && st.subs[id].track == key)
            && (forall id :: id in st.subs ==> st.subs[id].track in st.tracks)
    ensures AlwaysAligned(Initial(limit), events) <==> RunFits(Initial(limit), events)
  {
    hide Run, FlowsSound, LiveRanges, RunFits, AlwaysAligned;
    Reachable(limit, events);
    LimitKept(Initial(limit), events);
    InitialExact(limit);
    TablesAgreeExactly(Initial(limit), events);
  }

  lemma InitialExact(limit: nat)
    ensures Good(Initial(limit)) && Exact(Initial(limit))
  {
  }

  /** In every reachable state a bounded subscription that is still live has not been overtaken. */
  lemma LiveRangeInvariant(limit: nat, events: seq<Event>, id: u64)
    requires AllowedRun(Initial(limit), events)
    requires var st := Run(Initial(limit), events);
             id in st.subs && st.subs[id].range.end.Some? && LargestOf(st, st.subs[id].track).Some?
    ensures var st := Run(Initial(limit), events);
            LargestOf(st, st.subs[id].track).value.group <= st.subs[id].range.end.value
  {
    hide Run, FlowSound;
    Reachable(limit, events);
  }

  /**
   * In every reachable state the stream counter of a request is the number of streams it opened, and
   * no stream is open once it is detached or PUBLISH_DONE has been said. In a run whose PUBLISH_DONEs
   * all fit, the number said is that number; in any run it is that number or 0.
   */
  lemma StreamConservation(limit: nat, events: seq<Event>, id: u64)
    requires AllowedRun(Initial(limit), events) && id in Run(Initial(limit), events).flows
    ensures var st := Run(Initial(limit), events); var f := st.flows[id];
            && f.streams.count == |f.streams.wire|
            && (forall r :: r in f.replies && r.PublishDone? ==>
                  NoneLive(f.streams.wire) && (r.count == |f.streams.wire| || r.count == 0))
            && (id !in st.subs ==> NoneLive(f.streams.wire))
            && multiset(f.sent) == Carried(f.streams.wire) + multiset(f.datagrams)
            && (RunFits(Initial(limit), events) ==>
                  forall r :: r in f.replies && r.PublishDone? ==> r.count == |f.streams.wire|)
  {
    hide Run, Carried, NoneLive, FlowSound, RunFits, AlwaysAligned;
    Reachable(limit, events);
    InitialExact(limit);
    TablesAgreeExactly(Initial(limit), events);
    var st := Run(Initial(limit), events);
    FlowFacts(st.flows[id], StageOf(st, id));
  }

  lemma FlowFacts(f: Flow, stage: Stage)
    requires FlowSound(f, stage)
    ensures f.streams.count == |f.streams.wire|
    ensures forall r :: r in f.replies && r.PublishDone? ==>
              NoneLive(f.streams.wire) && (r.count == |f.streams.wire| || r.count == 0)
    ensures !stage.Attached? ==> NoneLive(f.streams.wire)
    ensures multiset(f.sent) == Carried(f.streams.wire) + multiset(f.datagrams)
  {
    hide Carried, NoneLive, Sound;
    SoundCount(f.streams);
    forall count | DoneReplies(f.replies, count) ensures forall i :: 0 <= i < |f.replies| - 1 ==>
        !f.replies[i].PublishDone? {
      DoneOnlyLast(f.replies, count);
    }
  }

  lemma DoneOnlyLast(rs: seq<Reply>, count: nat)
    requires DoneReplies(rs, count)
    ensures forall i :: 0 <= i < |rs| - 1 ==> !rs[i].PublishDone?
  {
    var n := |rs| - 1;
    assert forall i :: 0 <= i < n ==> rs[..n][i] == rs[i];
    assert forall i :: 0 <= i < n - 1 ==> rs[..n - 1][i] == rs[i];
  }

  lemma {:induction false} LimitKept(st: State, events: seq<Event>)
    ensures Run(st, events).limit == st.limit
    decreases |events|
  {
    if events != [] {
      StepLimit(st, events[0]);
      LimitKept(Step(st, events[0]), events[1..]);
    }
  }

  lemma StepLimit(st: State, e: Event)
    ensures Step(st, e).limit == st.limit
  {
    hide CloseAll, Resolve, Sendable;
    match e
    case PublishCall(o, order) =>
      if o.track in st.tracks {
        PublishAllLimit(Advance(st, o), order, o);
      }
    case UnregisterTrack(key, order) => EndAllLimit(st, order, UNREGISTERED);
    case EndTrackCall(key, end, order) => EndAllLimit(st, order, end);
    case _ =>
  }

  lemma {:induction false} PublishAllLimit(st: State, order: seq<u64>, o: Published)
    ensures PublishAll(st, order, o).limit == st.limit
    decreases |order|
  {
    hide CloseAll;
    if order != [] {
      PublishAllLimit(PublishTo(st, order[0], o), order[1..], o);
    }
  }

  lemma {:induction false} EndAllLimit(st: State, order: seq<u64>, end: Ending)
    ensures EndAll(st, order, end).limit == st.limit
    decreases |order|
  {
    hide CloseAll;
    if order != [] {
      EndAllLimit(FinishRequest(st, order[0], end), order[1..], end);
    }
  }

  // ----- fan-out -----

  /** The object is for this subscription: its track, forwarded, at or behind the start, not past the end. */
  predicate Matches(sub: Sub, o: Published) {
    o.track == sub.track && Accepts(o) && Selects(sub, o)
  }

  lemma MatchesExact(sub: Sub, o: Published)
    ensures Matches(sub, o) <==> o.track == sub.track && Publishable(o) && Admits(sub, o)
    ensures Accepts(o) <==> Publishable(o)
  {
    hide Accepts, Publishable, Selects, Admits;
    SelectsExact(sub, o);
  }

  /** Of the objects published in a run, those that matched the subscription when they were published. */
  function Wanted(st: State, events: seq<Event>, id: u64): seq<Published>
    decreases |events|
  {
    if events == [] then [] else
    (if events[0].PublishCall? && id in st.subs && Matches(st.subs[id], events[0].obj) then [events[0].obj] else [])
    + Wanted(Step(st, events[0]), events[1..], id)
  }

  /** Neither the flow nor the subscription of `id` is touched. */
  predicate Untouched(st: State, r: State, id: u64) {
    && (id in st.flows ==> id in r.flows && r.flows[id] == st.flows[id])
    && (id in st.subs <==> id in r.subs) && (id in st.subs ==> r.subs[id] == st.subs[id])
  }

  lemma FinishOther(st: State, other: u64, end: Ending, id: u64)
    requires Agreement(st) && other != id
    ensures Untouched(st, FinishRequest(st, other, end), id)
  {
    hide Agreement, FinishRequest;
    FinishAny(st, other, end);
  }

  lemma SendOther(st: State, other: u64, o: Published, id: u64)
    requires other != id
    ensures Untouched(st, Send(st, other, o), id)
    ensures Agreement(Send(st, other, o)) == Agreement(st)
  {
    hide Agreement, SendOn;
    FlowsOnly(st, Send(st, other, o).flows);
  }

  lemma VisitOther(st: State, other: u64, o: Published, id: u64)
    requires MidPublish(st, o) && other != id
    ensures Untouched(st, PublishTo(st, other, o), id)
  {
    hide Agreement, Accounted, FlowsSound, OnlyBeyond, FinishRequest, Beyond, Admits, EndsTrack, EndsRange, Send;
    if other in st.subs {
      FinishOther(st, other, RANGE_END, id);
      SendOther(st, other, o, id);
      var st1 := if Admits(st.subs[other], o) then Send(st, other, o) else st;
      FinishOther(st1, other, RANGE_END, id);
      FinishOther(st1, other, TRACK_END, id);
    }
  }

  /** The turn that visits the subscription sends it the object exactly if it matches. */
  lemma VisitSelf(st: State, o: Published, id: u64)
    requires MidPublish(st, o) && id in st.subs
    ensures var r := PublishTo(st, id, o);
            && id in st.flows && id in r.flows
            && r.flows[id].sent == st.flows[id].sent + if Admits(st.subs[id], o) then [o] else []
  {
    hide Agreement, Accounted, FlowsSound, OnlyBeyond, FinishRequest, EndsTrack, EndsRange, CloseAll, SendObject;
    AgreedKeys(st);
    LiveHaveFlows(st);
    FinishAny(st, id, RANGE_END);
    var st1 := if Admits(st.subs[id], o) then Send(st, id, o) else st;
    FlowsOnly(st, Send(st, id, o).flows);
    FinishAny(st1, id, RANGE_END);
    FinishAny(st1, id, TRACK_END);
  }

  lemma {:induction false} PassOthers(st: State, order: seq<u64>, o: Published, id: u64)
    requires MidPublish(st, o) && Publishable(o) && id !in order
    ensures Untouched(st, PublishAll(st, order, o), id)
    decreases |order|
  {
    hide MidPublish, PublishTo, Publishable;
    if order != [] {
      VisitOther(st, order[0], o, id);
      PublishToKeeps(st, order[0], o);
      PassOthers(PublishTo(st, order[0], o), order[1..], o, id);
    }
  }

  lemma MidFlows(st: State, o: Published, id: u64)
    requires MidPublish(st, o) && id in st.subs
    ensures id in st.flows
  {
    hide FlowsSound;
  }

  /** The loop over a copied set visits the subscription once, whatever the other turns complete. */
  lemma {:induction false} VisitOnce(st: State, order: seq<u64>, o: Published, id: u64)
    requires MidPublish(st, o) && Publishable(o) && id in order && id in st.subs
    requires forall i, j :: 0 <= i < j < |order| ==> order[i] != order[j]
    ensures id in st.flows && id in PublishAll(st, order, o).flows
    ensures PublishAll(st, order, o).flows[id].sent ==
            st.flows[id].sent + if Admits(st.subs[id], o) then [o] else []
    decreases |order|
  {
    hide MidPublish, PublishTo, Publishable, Admits;
    MidFlows(st, o, id);
    PublishToKeeps(st, order[0], o);
    var r := PublishTo(st, order[0], o);
    if order[0] == id {
      VisitSelf(st, o, id);
      PassOthers(r, order[1..], o, id);
    } else {
      VisitOther(st, order[0], o, id);
      assert id in order[1..];
      assert forall i, j :: 0 <= i < j < |order| - 1 ==> order[1..][i] != order[1..][j];
      VisitOnce(r, order[1..], o, id);
    }
  }

  lemma PublishSends(st: State, o: Published, order: seq<u64>, id: u64)
    requires Good(st) && Enumerates(st, o.track, order) && id in st.flows
    ensures var r := Publish(st, o, order);
            && id in r.flows
            && r.flows[id].sent == st.flows[id].sent + if id in st.subs && Matches(st.subs[id], o) then [o] else []
  {
    hide Agreement, Accounted, FlowsSound, LiveRanges, OnlyBeyond, PublishAll, Publishable, Admits, Matches;
    if id in st.subs {
      MatchesExact(st.subs[id], o);
    }
    if o.track in st.tracks && Publishable(o) {
      AdvanceKeeps(st, o);
      AgreedSets(st, o.track);
      if id in st.tracks[o.track].subs {
        VisitOnce(Advance(st, o), order, o, id);
      } else {
        PassOthers(Advance(st, o), order, o, id);
      }
    } else {
      KnownTracks(st);
    }
  }

  /** A subscription that does not forward is sent nothing. */
  lemma UnforwardedGetsNothing(st: State, o: Published, order: seq<u64>, id: u64)
    requires Good(st) && Enumerates(st, o.track, order) && id in st.subs && !st.subs[id].forward
    ensures id in st.flows && id in Publish(st, o, order).flows
    ensures Publish(st, o, order).flows[id].sent == st.flows[id].sent
  {
    hide Good, Publish;
    GoodCounts(st, id);
    PublishSends(st, o, order, id);
  }

  lemma KnownTracks(st: State)
    requires Agreement(st)
    ensures forall id :: id in st.subs ==> st.subs[id].track in st.tracks
  {
  }

  lemma {:induction false} EndAllSends(st: State, order: seq<u64>, end: Ending, id: u64)
    requires Good(st) && id in st.flows
    ensures id in EndAll(st, order, end).flows && EndAll(st, order, end).flows[id].sent == st.flows[id].sent
    decreases |order|
  {
    hide Good, FinishRequest, CloseAll;
    if order != [] {
      assert Agreement(st) by { GoodAgrees(st); }
      LiveFlows(st);
      FinishAny(st, order[0], end);
      FinishGood(st, order[0], end);
      EndAllSends(FinishRequest(st, order[0], end), order[1..], end, id);
    }
  }

  lemma GoodAgrees(st: State)
    requires Good(st)
    ensures Agreement(st)
  {
  }

  lemma LiveFlows(st: State)
    requires Good(st)
    ensures forall id :: id in st.requests ==> id in st.flows
  {
  }

  /** What has been sent for `id` is as before. */
  predicate KeepsSent(st: State, r: State, id: u64) {
    id in st.flows ==> id in r.flows && r.flows[id].sent == st.flows[id].sent
  }

  lemma ShutdownSends(st: State, id: u64)
    ensures KeepsSent(st, Shutdown(st), id)
  {
    hide CloseAll;
  }

  lemma SubscribeSends(st: State, newId: u64, key: TrackKey, options: Option<Options>, sendOk: bool, id: u64)
    requires Good(st) && id in st.flows
    ensures KeepsSent(st, Subscribe(st, newId, key, options, sendOk), id)
  {
    hide Good, Shutdown, Requested, Reserved, Wrap, Accept, Reject;
    ShutdownSends(st, id);
    if FreshPeerId(st, newId) {
      NotYetSeen(st, newId);
      var st1 := st.(consumed := st.consumed + {newId});
      var st2 := st1.(nextAlias := Wrap(st1.nextAlias + 1));
      ShutdownSends(st1, id);
      NewRequestSends(st1, newId, id);
      NewRequestSends(st2, newId, id);
      if options.Some? && Requested(st2, key, options.value).Granted? {
        ShutdownSends(Accept(st2, newId, Requested(st2, key, options.value).value, st1.nextAlias), id);
      }
    }
  }

  lemma NewRequestSends(st: State, newId: u64, id: u64)
    requires newId != id
    ensures forall reason :: KeepsSent(st, Reject(st, newId, reason), id)
    ensures forall sub, alias :: KeepsSent(st, Accept(st, newId, sub, alias), id)
  {
  }

  lemma UpdateSends(st: State, subId: u64, updateId: u64, options: Option<Options>, id: u64)
    requires Good(st)
    ensures KeepsSent(st, Update(st, subId, updateId, options), id)
  {
    hide Shutdown, UpdatedSub, FinishRequest, CloseAll, FlowsSound, Agreement, LiveRanges;
    ShutdownSends(st, id);
    var st1 := st.(consumed := st.consumed + {updateId});
    ShutdownSends(st1, id);
    if subId in st.requests && options.Some? && UpdatedSub(st1, subId, options.value).Refused? {
      var st2 := Say(st1, subId, Rejected(UpdatedSub(st1, subId, options.value).reason));
      ConsumeKeeps(st, updateId, st.nextAlias);
      FlowsOnly(st1, st2.flows);
      FinishAny(st2, subId, RefusedEnd(UpdatedSub(st1, subId, options.value).reason));
    }
  }

  lemma CancelSends(st: State, subId: u64, id: u64)
    requires Good(st)
    ensures KeepsSent(st, CancelRequest(st, subId), id)
  {
    hide CloseAll;
  }

  lemma StepSends(st: State, e: Event, id: u64)
    requires Good(st) && Allowed(st, e) && id in st.flows
    ensures var r := Step(st, e);
            && id in r.flows
            && r.flows[id].sent ==
               st.flows[id].sent +
               if e.PublishCall? && id in st.subs && Matches(st.subs[id], e.obj) then [e.obj] else []
  {
    hide Good, Publish, EndAll, Matches, Subscribe, Update, CancelRequest, Shutdown, Reserved;
    match e
    case PublishCall(o, order) =>
      PublishSends(st, o, order, id);
      LiveIsReady(st);
    case UnregisterTrack(key, order) => EndAllSends(st, order, UNREGISTERED, id);
    case EndTrackCall(key, end, order) => EndAllSends(st, order, end, id);
    case PeerSubscribe(newId, key, options, sendOk) => SubscribeSends(st, newId, key, options, sendOk, id);
    case PeerUpdate(subId, updateId, options) => UpdateSends(st, subId, updateId, options, id);
    case PeerCancel(subId) => CancelSends(st, subId, id);
    case Violation => ShutdownSends(st, id);
    case RegisterTrack(_, _) =>
  }

  lemma LiveIsReady(st: State)
    requires Good(st)
    ensures !st.ready ==> st.subs == map[]
  {
    hide FlowsSound;
  }

  lemma {:induction false} EndAllClosed(st: State, order: seq<u64>, end: Ending)
    ensures EndAll(st, order, end).ready == st.ready
    decreases |order|
  {
    if order != [] {
      EndAllClosed(FinishRequest(st, order[0], end), order[1..], end);
    }
  }

  lemma StepClosed(st: State, e: Event)
    requires !st.ready
    ensures !Step(st, e).ready
  {
    hide EndAll, CancelAll, UpdatedSub;
    match e
    case UnregisterTrack(key, order) => EndAllClosed(st, order, UNREGISTERED);
    case EndTrackCall(key, end, order) => EndAllClosed(st, order, end);
    case _ =>
  }

  /** Once a publisher's session has begun to close, no request is live, and none ever becomes so. */
  lemma {:induction false} NothingLivesAfterClose(st: State, events: seq<Event>)
    requires Good(st) && !st.ready && AllowedRun(st, events)
    ensures !Run(st, events).ready && Run(st, events).requests == {} && Run(st, events).subs == map[]
    decreases |events|
  {
    hide Good, Step, Allowed;
    RunKeeps(st, events);
    if events == [] {
      ClosedIsEmpty(st);
    } else {
      StepKeeps(st, events[0]);
      StepClosed(st, events[0]);
      NothingLivesAfterClose(Step(st, events[0]), events[1..]);
    }
  }

  lemma ClosedIsEmpty(st: State)
    requires Good(st) && !st.ready
    ensures st.requests == {} && st.subs == map[]
  {
    hide FlowsSound, LiveRanges;
  }

  /** In every run, a subscription is sent exactly the objects that matched it, in the order of publication. */
  lemma {:induction false} FanOutExact(st: State, events: seq<Event>, id: u64)
    requires Good(st) && AllowedRun(st, events) && id in st.flows
    ensures id in Run(st, events).flows
    ensures Run(st, events).flows[id].sent == st.flows[id].sent + Wanted(st, events, id)
    decreases |events|
  {
    hide Good, Step, Matches;
    if events != [] {
      StepKeeps(st, events[0]);
      StepSends(st, events[0], id);
      FanOutExact(Step(st, events[0]), events[1..], id);
    }
  }

  /** Publishing the end of a track leaves it without subscriptions. */
  lemma EndOfTrackEmpties(st: State, o: Published, order: seq<u64>)
    requires Good(st) && Enumerates(st, o.track, order) && o.track in st.tracks && Publishable(o) && EndsTrack(o)
    ensures var r := Publish(st, o, order);
            && o.track in r.tracks && r.tracks[o.track].subs == {}
            && forall id :: id in r.subs ==> r.subs[id].track != o.track
  {
    hide Agreement, Accounted, FlowsSound, LiveRanges, OnlyBeyond, PublishAll, Publishable, EndsTrack;
    AdvanceKeeps(st, o);
    AgreedSets(st, o.track);
    AllCompleted(Advance(st, o), order, o);
    PublishKeeps(st, o, order);
    AgreedSets(Publish(st, o, order), o.track);
  }

  lemma {:induction false} AllCompleted(st: State, order: seq<u64>, o: Published)
    requires MidPublish(st, o) && Publishable(o) && EndsTrack(o)
    ensures var r := PublishAll(st, order, o);
            && (forall id :: id in r.subs ==> id in st.subs && id !in order && r.subs[id] == st.subs[id])
            && r.tracks.Keys == st.tracks.Keys
    decreases |order|
  {
    hide MidPublish, Publishable, EndsTrack, PublishTo;
    if order != [] {
      CompletedByEnd(st, order[0], o);
      PublishToKeeps(st, order[0], o);
      AllCompleted(PublishTo(st, order[0], o), order[1..], o);
    }
  }

  lemma CompletedByEnd(st: State, id: u64, o: Published)
    requires MidPublish(st, o) && EndsTrack(o) && Publishable(o)
    ensures id !in PublishTo(st, id, o).subs && PublishTo(st, id, o).tracks.Keys == st.tracks.Keys
  {
    hide MidPublish, Publishable, Beyond, Admits, EndsTrack, FinishRequest;
    if id in st.subs {
      SendMid(st, id, o);
      var st1 := if Admits(st.subs[id], o) then Send(st, id, o) else st;
      MidAgrees(st, o);
      MidAgrees(st1, o);
      FinishAny(st, id, RANGE_END);
      FinishAny(st1, id, TRACK_END);
    }
  }

  // ----- filters -----

  /** What a LargestObject filter is for: the locations behind the largest one. */
  predicate After(largest: Location, at: Location) {
    LocationLess(largest, at)
  }

  /** It selects exactly those, unless the largest Object ID cannot be incremented. */
  lemma LargestObjectExact(largest: Location, f: Filter)
    requires f.kind == LargestObject
    ensures (forall at :: InRange(Resolve(f, Some(largest)), at) <==> After(largest, at)) <==> largest.id < MAX64
  {
    if largest.id == MAX64 {
      var at := Location(largest.group, 0);
      assert InRange(Resolve(f, Some(largest)), at) && !After(largest, at);
    }
  }

  /** A NextGroupStart filter selects exactly the later groups, unless the group cannot be incremented. */
  lemma NextGroupStartExact(largest: Location, f: Filter)
    requires f.kind == NextGroupStart
    ensures (forall at :: InRange(Resolve(f, Some(largest)), at) <==> at.group > largest.group) <==>
            largest.group < MAX64
  {
    if largest.group == MAX64 {
      var at := Location(0, 0);
      assert InRange(Resolve(f, Some(largest)), at) && !(at.group > largest.group);
    }
  }

  /** The objects offered to a subscription in a run: published on its track while it was live. */
  function Offered(st: State, events: seq<Event>, id: u64): seq<Published>
    decreases |events|
  {
    if events == [] then [] else
    (if events[0].PublishCall? && id in st.subs && events[0].obj.track == st.subs[id].track && Accepts(events[0].obj)
     then [events[0].obj] else [])
    + Offered(Step(st, events[0]), events[1..], id)
  }

  function Select(objs: seq<Published>, keep: Published -> bool): seq<Published> {
    if objs == [] then [] else (if keep(objs[0]) then [objs[0]] else []) + Select(objs[1..], keep)
  }

  // ----- a subscription that is not updated -----

  /** Nothing but an update of its own changes a live subscription, and a gone one does not come back. */
  predicate Steady(st: State, r: State, id: u64) {
    id in r.subs ==> id in st.subs && r.subs[id] == st.subs[id]
  }

  lemma {:induction false} PublishAllSteady(st: State, order: seq<u64>, o: Published, id: u64)
    requires MidPublish(st, o) && Publishable(o)
    ensures Steady(st, PublishAll(st, order, o), id)
    decreases |order|
  {
    hide MidPublish, Publishable, PublishTo;
    if order != [] {
      PublishToKeeps(st, order[0], o);
      PublishAllSteady(PublishTo(st, order[0], o), order[1..], o, id);
    }
  }

  lemma StepSteady(st: State, e: Event, id: u64)
    requires Good(st) && Allowed(st, e) && id in st.flows && !(e.PeerUpdate? && e.id == id)
    ensures Steady(st, Step(st, e), id)
  {
    hide Agreement, Accounted, FlowsSound, LiveRanges, OnlyBeyond, PublishAll, EndAll, CloseAll, Publishable;
    hide Requested, UpdatedSub, FinishRequest, Reserved, Sendable;
    match e
    case PublishCall(o, order) =>
      if o.track in st.tracks && Publishable(o) {
        AdvanceKeeps(st, o);
        PublishAllSteady(Advance(st, o), order, o, id);
      }
    case UnregisterTrack(key, order) => EndAllGood(st, order, UNREGISTERED);
    case EndTrackCall(key, end, order) => EndAllGood(st, order, end);
    case PeerSubscribe(newId, key, options, sendOk) =>
      if FreshPeerId(st, newId) {
        NotYetSeen(st, newId);
      }
    case PeerUpdate(subId, updateId, options) => UpdateSteady(st, subId, updateId, options, id);
    case _ =>
  }

  lemma UpdateSteady(st: State, subId: u64, updateId: u64, options: Option<Options>, id: u64)
    requires Good(st) && subId != id
    ensures Steady(st, Update(st, subId, updateId, options), id)
  {
    hide UpdatedSub, FinishRequest, CloseAll, FlowsSound, Agreement, LiveRanges;
    var st1 := st.(consumed := st.consumed + {updateId});
    if subId in st.requests && options.Some? && UpdatedSub(st1, subId, options.value).Refused? {
      var st2 := Say(st1, subId, Rejected(UpdatedSub(st1, subId, options.value).reason));
      ConsumeKeeps(st, updateId, st.nextAlias);
      FlowsOnly(st1, st2.flows);
      FinishAny(st2, subId, RefusedEnd(UpdatedSub(st1, subId, options.value).reason));
    }
  }

  predicate NoUpdate(events: seq<Event>, id: u64) {
    forall i :: 0 <= i < |events| ==> !(events[i].PeerUpdate? && events[i].id == id)
  }

  lemma {:induction false} GoneStaysGone(st: State, events: seq<Event>, id: u64)
    requires Good(st) && AllowedRun(st, events) && id in st.flows && id !in st.subs && NoUpdate(events, id)
    ensures Wanted(st, events, id) == [] && Offered(st, events, id) == []
    decreases |events|
  {
    hide Good, Step, Matches, Accepts;
    if events != [] {
      StepKeeps(st, events[0]);
      StepSends(st, events[0], id);
      StepSteady(st, events[0], id);
      GoneStaysGone(Step(st, events[0]), events[1..], id);
    }
  }

  /** Without updates, a subscription is sent what its first range selects of what is offered to it. */
  lemma {:induction false} SteadyFeed(st: State, events: seq<Event>, id: u64, sub: Sub)
    requires Good(st) && AllowedRun(st, events) && id in st.flows && NoUpdate(events, id)
    requires id in st.subs && st.subs[id] == sub
    ensures Wanted(st, events, id) == Select(Offered(st, events, id), (o: Published) => Selects(sub, o))
    decreases |events|
  {
    hide Good, Step, Selects, Accepts;
    if events != [] {
      var st1, rest := Step(st, events[0]), events[1..];
      StepKeeps(st, events[0]);
      StepSends(st, events[0], id);
      StepSteady(st, events[0], id);
      if id in st1.subs {
        SteadyFeed(st1, rest, id, sub);
      } else {
        GoneStaysGone(st1, rest, id);
      }
      var first := if events[0].PublishCall? && events[0].obj.track == sub.track && Accepts(events[0].obj)
                   then [events[0].obj] else [];
      SelectSplit(first, Offered(st1, rest, id), (o: Published) => Selects(sub, o));
    }
  }

  lemma SelectSplit(first: seq<Published>, rest: seq<Published>, keep: Published -> bool)
    requires |first| <= 1
    ensures Select(first + rest, keep) == (if first != [] && keep(first[0]) then first else []) + Select(rest, keep)
  {
    if first == [] {
      assert first + rest == rest;
    } else {
      assert (first + rest)[1..] == rest && first == [first[0]];
    }
  }

  lemma {:induction false} SelectSame(objs: seq<Published>, f: Published -> bool, g: Published -> bool)
    requires forall o :: f(o) == g(o)
    ensures Select(objs, f) == Select(objs, g)
  {
    if objs != [] {
      SelectSame(objs[1..], f, g);
    }
  }

  /** A SUBSCRIBE that is accepted. */
  predicate Welcome(st: State, id: u64, key: TrackKey, o: Options) {
    && st.ready && FreshPeerId(st, id) && !Reserved(key) && |st.requests| < st.limit
    && key in st.tracks && !HasTimeout(o) && Sendable(OkFor(st, key, st.nextAlias))
  }

  /**
   * The feed a subscriber asks for with LargestObject: from its SUBSCRIBE on, every object published
   * on the track behind the location that was largest then, each once, in order, and nothing else.
   */
  lemma LatestFeed(st: State, id: u64, key: TrackKey, o: Options, largest: Location, events: seq<Event>)
    requires Good(st) && Welcome(st, id, key, o) && st.tracks[key].largest == Some(largest) && largest.id < MAX64
    requires o.filter.Some? && o.filter.value.kind == LargestObject && o.forward != Some(false)
    requires AllowedRun(Step(st, PeerSubscribe(id, key, Some(o), true)), events) && NoUpdate(events, id)
    ensures var st1 := Step(st, PeerSubscribe(id, key, Some(o), true));
            && id in Run(st1, events).flows
            && Run(st1, events).flows[id].sent ==
               Select(Offered(st1, events, id), (p: Published) => After(largest, Location(p.group, p.id)))
  {
    hide Good, Run, Offered, Wanted;
    var st1 := Step(st, PeerSubscribe(id, key, Some(o), true));
    var sub := Sub(key, true, Resolve(o.filter.value, Some(largest)));
    AcceptedSub(st, id, key, o, sub);
    StepKeeps(st, PeerSubscribe(id, key, Some(o), true));
    FanOutExact(st1, events, id);
    SteadyFeed(st1, events, id, sub);
    LargestObjectExact(largest, o.filter.value);
    forall p: Published
      ensures Selects(sub, p) <==> After(largest, Location(p.group, p.id))
    {
      SelectsExact(sub, p);
    }
    SelectSame(Offered(st1, events, id), (p: Published) => Selects(sub, p),
               (p: Published) => After(largest, Location(p.group, p.id)));
    assert [] + Wanted(st1, events, id) == Wanted(st1, events, id);
  }

  lemma AcceptedSub(st: State, id: u64, key: TrackKey, o: Options, sub: Sub)
    requires Welcome(st, id, key, o) && o.filter.Some? && o.filter.value.kind == LargestObject
            && o.forward != Some(false)
    requires sub == Sub(key, true, Resolve(o.filter.value, st.tracks[key].largest))
    ensures var st1 := Step(st, PeerSubscribe(id, key, Some(o), true));
            id in st1.subs && st1.subs[id] == sub && id in st1.flows && st1.flows[id].sent == []
  {
    hide Sendable;
  }

  // ----- the largest location -----

  /** The locations published on a track in a run. */
  function Locations(st: State, events: seq<Event>, key: TrackKey): seq<Location>
    decreases |events|
  {
    if events == [] then [] else
    (if events[0].PublishCall? && st.ready && events[0].obj.track == key && Accepts(events[0].obj)
     then [Location(events[0].obj.group, events[0].obj.id)] else [])
    + Locations(Step(st, events[0]), events[1..], key)
  }

  predicate Reaches(largest: Option<Location>, at: Location) {
    largest.Some? && !LocationLess(largest.value, at)
  }

  /** `largest` is the greatest of the locations and of where the track stood before. */
  predicate IsGreatest(largest: Option<Location>, before: Option<Location>, at: seq<Location>) {
    && (forall i :: 0 <= i < |at| ==> Reaches(largest, at[i]))
    && (before.Some? ==> Reaches(largest, before.value))
    && (largest == before || exists i :: 0 <= i < |at| && largest == Some(at[i]))
  }

  /** The track is still there, or still not, and stands where it stood, with the properties it had. */
  predicate SameTrack(st: State, r: State, key: TrackKey) {
    && (key in st.tracks <==> key in r.tracks)
    && (key in st.tracks ==> r.tracks[key].largest == st.tracks[key].largest
                             && r.tracks[key].properties == st.tracks[key].properties)
  }

  lemma FinishLargest(st: State, id: u64, end: Ending, key: TrackKey)
    requires Agreement(st)
    ensures SameTrack(st, FinishRequest(st, id, end), key)
  {
    hide Agreement, FinishRequest;
    FinishAny(st, id, end);
  }

  lemma PublishToLargest(st: State, id: u64, o: Published, key: TrackKey)
    requires MidPublish(st, o) && Publishable(o)
    ensures SameTrack(st, PublishTo(st, id, o), key)
  {
    hide MidPublish, Publishable, Beyond, Admits, EndsTrack, EndsRange, FinishRequest, SendOn;
    if id in st.subs {
      SendMid(st, id, o);
      var st1 := if Admits(st.subs[id], o) then Send(st, id, o) else st;
      MidAgrees(st, o);
      MidAgrees(st1, o);
      FinishLargest(st, id, RANGE_END, key);
      FinishLargest(st1, id, RANGE_END, key);
      FinishLargest(st1, id, TRACK_END, key);
    }
  }

  lemma {:induction false} PublishAllLargest(st: State, order: seq<u64>, o: Published, key: TrackKey)
    requires MidPublish(st, o) && Publishable(o)
    ensures SameTrack(st, PublishAll(st, order, o), key)
    decreases |order|
  {
    hide MidPublish, Publishable, PublishTo;
    if order != [] {
      PublishToKeeps(st, order[0], o);
      PublishToLargest(st, order[0], o, key);
      PublishAllLargest(PublishTo(st, order[0], o), order[1..], o, key);
    }
  }

  lemma {:induction false} EndAllLargest(st: State, order: seq<u64>, end: Ending, key: TrackKey)
    requires Good(st)
    ensures SameTrack(st, EndAll(st, order, end), key)
    decreases |order|
  {
    hide Good, FinishRequest;
    if order != [] {
      GoodAgrees(st);
      FinishLargest(st, order[0], end, key);
      FinishGood(st, order[0], end);
      EndAllLargest(FinishRequest(st, order[0], end), order[1..], end, key);
    }
  }

  lemma UpdateLargest(st: State, subId: u64, updateId: u64, options: Option<Options>, key: TrackKey)
    requires Good(st)
    ensures SameTrack(st, Update(st, subId, updateId, options), key)
  {
    hide UpdatedSub, FinishRequest, CloseAll, FlowsSound, Agreement, LiveRanges;
    var st1 := st.(consumed := st.consumed + {updateId});
    if subId in st.requests && options.Some? && UpdatedSub(st1, subId, options.value).Refused? {
      var st2 := Say(st1, subId, Rejected(UpdatedSub(st1, subId, options.value).reason));
      ConsumeKeeps(st, updateId, st.nextAlias);
      FlowsOnly(st1, st2.flows);
      FinishLargest(st2, subId, RefusedEnd(UpdatedSub(st1, subId, options.value).reason), key);
    }
  }

  lemma SubscribeLargest(st: State, id: u64, wanted: TrackKey, options: Option<Options>, sendOk: bool, key: TrackKey)
    ensures SameTrack(st, Subscribe(st, id, wanted, options, sendOk), key)
  {
    hide Requested, Reserved, Wrap, Shutdown, Sendable, Accept, Reject, FreshPeerId;
    ShutdownLargest(key);
    AnsweredLargest(id, key);
  }

  lemma AnsweredLargest(id: u64, key: TrackKey)
    ensures forall st: State, reason :: SameTrack(st, Reject(st, id, reason), key)
    ensures forall st: State, sub, alias :: SameTrack(st, Accept(st, id, sub, alias), key)
  {
  }

  lemma ShutdownLargest(key: TrackKey)
    ensures forall st: State :: SameTrack(st, Shutdown(st), key)
  {
    hide CloseAll;
  }

  /** A namespace whose first field is a single dot. */
  predicate Dotted(key: TrackKey) {
    |key.space| > 0 && key.space[0] == [0x2E]
  }

  /**
   * Tracks come by registration, unless reserved, and go when they are unregistered; only publishing on
   * a track moves its largest location, and nothing changes its properties.
   */
  lemma StepTracks(st: State, e: Event, key: TrackKey)
    requires Good(st) && Allowed(st, e)
    ensures var r := Step(st, e);
            && (key in r.tracks <==>
                if e.RegisterTrack? && e.key == key then key in st.tracks || !Dotted(key)
                else key in st.tracks && !(e.UnregisterTrack? && e.key == key))
            && (key in st.tracks && key in r.tracks ==>
                  && r.tracks[key].properties == st.tracks[key].properties
                  && r.tracks[key].largest ==
                     if e.PublishCall? && st.ready && e.obj.track == key && Accepts(e.obj)
                     then Max(st.tracks[key].largest, Location(e.obj.group, e.obj.id)) else st.tracks[key].largest)
            && (key !in st.tracks && key in r.tracks ==> r.tracks[key] == Track(None, {}, e.properties))
  {
    hide Agreement, Accounted, FlowsSound, LiveRanges, OnlyBeyond, PublishAll, EndAll, CloseAll, Publishable, Accepts;
    hide Subscribe, Update, Max;
    match e
    case PublishCall(o, order) =>
      MatchesExact(Sub(o.track, true, ALL), o);
      if st.ready && o.track in st.tracks && Publishable(o) {
        AdvanceKeeps(st, o);
        PublishAllLargest(Advance(st, o), order, o, key);
      }
    case UnregisterTrack(other, order) => EndAllLargest(st, order, UNREGISTERED, key);
    case EndTrackCall(other, end, order) => EndAllLargest(st, order, end, key);
    case PeerSubscribe(id, wanted, options, sendOk) => SubscribeLargest(st, id, wanted, options, sendOk, key);
    case PeerUpdate(subId, updateId, options) => UpdateLargest(st, subId, updateId, options, key);
    case _ =>
  }

  /** As long as a track stays registered, its largest location is the greatest one published on it. */
  lemma {:induction false} LargestIsGreatest(st: State, events: seq<Event>, key: TrackKey)
    requires Good(st) && AllowedRun(st, events) && key in st.tracks
    requires forall i :: 0 <= i < |events| ==> !(events[i].UnregisterTrack? && events[i].key == key)
    ensures var r := Run(st, events);
            key in r.tracks && IsGreatest(r.tracks[key].largest, st.tracks[key].largest, Locations(st, events, key))
    decreases |events|
  {
    hide Good, Step, Accepts;
    if events != [] {
      var st1, rest := Step(st, events[0]), events[1..];
      StepKeeps(st, events[0]);
      StepTracks(st, events[0], key);
      LargestIsGreatest(st1, rest, key);
      var at, later := Locations(st, events, key), Locations(st1, rest, key);
      GreatestStep(Run(st1, rest).tracks[key].largest, st.tracks[key].largest, at, at[..|at| - |later|], later);
    }
  }

  lemma GreatestStep(largest: Option<Location>, before: Option<Location>, at: seq<Location>, first: seq<Location>,
                     rest: seq<Location>)
    requires |first| <= 1 && at == first + rest
    requires IsGreatest(largest, if first == [] then before else Max(before, first[0]), rest)
    ensures IsGreatest(largest, before, at)
  {
    forall i | 0 <= i < |at|
      ensures Reaches(largest, at[i])
    {
      if i < |first| {
        assert at[i] == first[0];
      } else {
        assert at[i] == rest[i - |first|];
      }
    }
    if largest != before {
      if i :| 0 <= i < |rest| && largest == Some(rest[i]) {
        assert at[|first| + i] == rest[i];
      } else {
        assert at[0] == first[0];
      }
    }
  }

  // ----- what arrives -----

  /**
   * End to end from the publisher's calls to the subscriber's route: whatever the run, the bytes on
   * any data stream of any request, cut in any way, are received as exactly the objects put on it, by a
   * subscriber that has a route for the alias that SUBSCRIBE_OK told.
   */
  lemma EveryStreamArrives(limit: nat, events: seq<Event>, id: u64, i: nat, env: Reception.Env,
                           arrivals: seq<Reception.Arrival>)
    requires AllowedRun(Initial(limit), events) && id in Run(Initial(limit), events).flows
    requires var f := Run(Initial(limit), events).flows[id];
             && i < |f.streams.wire| && AllDeliverable(f.streams.wire[i].objs)
             && (WasTold(f) ==> f.replies[0].alias in env.routes)
             && Reception.WellFormed(arrivals) && Reception.AllBytes(arrivals) == f.streams.wire[i].sent
    ensures var f := Run(Initial(limit), events).flows[id]; var d := f.streams.wire[i];
            var o := Reception.ReceiveAll(Reception.Opening([]), env, arrivals);
            && WasTold(f) && d.objs != []
            && o.calls == Expected(BindingOf(env, f.replies[0].alias, d.group, d.subgroup, d.objs), d.subgroup, d.objs)
  {
    hide Run, Good, FlowSound, Expected, AllDeliverable, Reception.ReceiveAll, Reception.WellFormed, Reception.AllBytes;
    Reachable(limit, events);
    var st := Run(Initial(limit), events);
    WireFaithful(st, id, i);
    var s := st.flows[id].streams;
    WireIsTold(st, id);
    ToldAliases(limit, events, id, id);
    EndToEnd(env, s.alias, s.wire[i].group, s.wire[i].subgroup, s.wire[i].objs, arrivals);
  }

  /** A request that has a stream has been told its alias. */
  lemma WireIsTold(st: State, id: u64)
    requires Good(st) && id in st.flows && st.flows[id].streams.wire != []
    ensures WasTold(st.flows[id])
  {
    hide Agreement, Accounted, LiveRanges, Carried, Sound;
    assert FlowSound(st.flows[id], StageOf(st, id));
    var rs := st.flows[id].replies;
    var n := |rs| - 1;
    assert n > 0 ==> rs[..n][0] == rs[0];
    assert n > 1 ==> rs[..n - 1][0] == rs[0];
  }

  lemma WireFaithful(st: State, id: u64, i: nat)
    requires Good(st) && id in st.flows && i < |st.flows[id].streams.wire|
    ensures var d := st.flows[id].streams.wire[i];
            && d.objs != [] && Rising(None, d.objs) && OpenUntilLast(d.objs)
            && d.sent == StreamBytes(st.flows[id].streams.alias, d.group, d.subgroup, d.objs)
  {
    hide Agreement, Accounted, LiveRanges, Carried, StreamBytes, Closing, ValidPublish, Rising;
    assert FlowSound(st.flows[id], StageOf(st, id));
    assert Faithful(st.flows[id].streams.alias, st.flows[id].streams.wire[i]);
  }
}

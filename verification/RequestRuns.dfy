/** Each request of a publisher over whole runs: its alias, its kinds of delivery, how its streams end. */
module RequestRuns {
  import opened Basics
  import opened SubgroupSend
  import opened SendStreams
  import opened Publishing
  import opened PublishingInvariants
  import opened Completions
  import opened RequestViews

  // ----- what no event takes back -----

  /** Nothing said or sent is taken back, and the alias stays. */
  predicate Continues(v: View, w: View) {
    v.flow.Some? ==>
      && w.flow.Some? && w.flow.value.streams.alias == v.flow.value.streams.alias
      && v.flow.value.replies <= w.flow.value.replies && v.flow.value.sent <= w.flow.value.sent
  }

  lemma CompletedContinues(v: View, end: Ending)
    ensures Continues(v, Completed(v, end)) && Continues(v, Cancelled(v))
  {
    hide Sendable;
  }

  lemma ObjectContinues(v: View, o: Published)
    ensures Continues(v, OnObject(v, o))
  {
    hide Completed, Selects, SendObject;
    if v.sub.Some? && v.flow.Some? {
      SentAlias(v.flow.value.streams, o);
      var v1 := v.(flow := Some(Given(v.flow.value, o)));
      CompletedContinues(v, PAST_RANGE);
      CompletedContinues(v, END_OF_TRACK);
      CompletedContinues(v1, PAST_RANGE);
      CompletedContinues(v1, END_OF_TRACK);
    }
  }

  lemma SentAlias(s: Streams, o: Published)
    ensures SendObject(s, o).alias == s.alias
  {
    hide EncodeHeader, ObjectBytes, Closing;
  }

  lemma UpdateContinues(v: View, o: Options, largest: Option<Location>)
    ensures Continues(v, OnUpdate(v, o, largest))
  {
    hide Completed, Asked;
    if v.flow.Some? && Objection(v, o, largest).Some? {
      var reason := Objection(v, o, largest).value;
      var v1 := v.(flow := Some(Hears(v.flow.value, Rejected(reason))));
      CompletedContinues(v1, Ending(UpdateFailed, ReasonText(reason)));
    }
  }

  /** The event gives the request its first entry. */
  predicate Begins(st: State, e: Event, id: u64) {
    e.PeerSubscribe? && e.id == id && st.ready && Unused(st, id) && e.options.Some?
  }

  /** A request that is known goes on as it was; one that is not begins with its SUBSCRIBE. */
  lemma SeenContinues(st: State, e: Event, id: u64)
    requires Good(st)
    ensures Continues(ViewOf(st, id), Seen(st, e, id))
    ensures id !in st.flows && !Begins(st, e, id) ==> Seen(st, e, id).flow.None?
    ensures Begins(st, e, id) ==>
              id !in st.flows && Seen(st, e, id) == OnSubscribe(st, id, e.key, e.options.value, e.sendOk)
  {
    hide Good, Completed, Cancelled, OnObject, OnUpdate, OnSubscribe, AnswerTo, CouldEnd, Reached;
    var v := ViewOf(st, id);
    GoodCounts(st, id);
    CompletedContinues(v, PAST_RANGE);
    if Begins(st, e, id) {
      NotYetSeen(st, id);
    }
    match e
    case PublishCall(o, _) =>
      ObjectContinues(v, o);
      NoFlowNoObject(v, o);
    case EndTrackCall(_, end, _) =>
      CompletedContinues(v, end);
      NoFlowNoEnd(v, end);
    case UnregisterTrack(_, _) =>
      CompletedContinues(v, UNREGISTERED);
      NoFlowNoEnd(v, UNREGISTERED);
    case PeerUpdate(_, _, options) =>
      if options.Some? {
        UpdateContinues(v, options.value, Reached(st, v));
      }
      NoFlowNoEnd(v, UNREGISTERED);
    case _ => NoFlowNoEnd(v, UNREGISTERED);
  }

  lemma NoFlowNoObject(v: View, o: Published)
    ensures v.flow.None? ==> OnObject(v, o).flow.None?
  {
  }

  lemma NoFlowNoEnd(v: View, end: Ending)
    ensures v.flow.None? ==> Completed(v, end).flow.None? && Cancelled(v).flow.None?
  {
  }

  // ----- aliases -----

  /** How many aliases the event hands out. */
  function HandsOut(st: State, e: Event): nat {
    if e.PeerSubscribe? && Begins(st, e, e.id) && TakesAlias(st, e.key) then 1 else 0
  }

  lemma {:induction false} PublishAllAlias(st: State, order: seq<u64>, o: Published)
    ensures PublishAll(st, order, o).nextAlias == st.nextAlias
    decreases |order|
  {
    hide CloseAll, SendOn, Sendable;
    if order != [] {
      PublishAllAlias(PublishTo(st, order[0], o), order[1..], o);
    }
  }

  lemma {:induction false} EndAllAlias(st: State, order: seq<u64>, end: Ending)
    ensures EndAll(st, order, end).nextAlias == st.nextAlias
    decreases |order|
  {
    hide CloseAll, Sendable;
    if order != [] {
      EndAllAlias(FinishRequest(st, order[0], end), order[1..], end);
    }
  }

  lemma SubscribeAlias(st: State, e: Event)
    requires e.PeerSubscribe? && st.ready
    ensures Subscribe(st, e.id, e.key, e.options, e.sendOk).nextAlias ==
            if HandsOut(st, e) == 1 then Next(st.nextAlias) else st.nextAlias
  {
    hide Sendable, AnswerTo, CloseAll;
    if Begins(st, e, e.id) {
      hide Subscribe;
      SubscribeAnswered(st, e.id, e.key, e.options.value, e.sendOk);
    }
  }

  lemma StepAlias(st: State, e: Event)
    ensures Step(st, e).nextAlias == if HandsOut(st, e) == 1 then Next(st.nextAlias) else st.nextAlias
  {
    hide Subscribe, PublishAll, EndAll, CloseAll, Update, Sendable;
    match e
    case PeerSubscribe(_, _, _, _) =>
      if st.ready {
        SubscribeAlias(st, e);
      }
    case PublishCall(o, order) =>
      if o.track in st.tracks {
        PublishAllAlias(Advance(st, o), order, o);
      }
    case UnregisterTrack(_, order) => EndAllAlias(st, order, UNREGISTERED);
    case EndTrackCall(_, end, order) => EndAllAlias(st, order, end);
    case PeerUpdate(id, updateId, options) => UpdateAlias(st, id, updateId, options);
    case _ =>
  }

  lemma UpdateAlias(st: State, id: u64, updateId: u64, options: Option<Options>)
    ensures Update(st, id, updateId, options).nextAlias == st.nextAlias
  {
    hide CloseAll, UpdatedSub, Sendable;
  }

  /** A request that has been accepted, whether or not its SUBSCRIBE_OK could be sent. */
  predicate Bears(f: Flow) {
    f.replies == [] || f.replies[0].Accepted?
  }

  /** SUBSCRIBE_OK has been said. */
  predicate WasTold(f: Flow) {
    f.replies != [] && f.replies[0].Accepted?
  }

  /** The first reply tells the alias that the request's data is written with. */
  predicate Truthful(f: Flow) {
    WasTold(f) ==> f.replies[0].alias == f.streams.alias
  }

  /** After `n` aliases: until they wrap, all that have been given are below `n`, and no two are the same. */
  predicate Aliases(st: State, n: nat) {
    && (forall id :: id in st.flows ==> Truthful(st.flows[id]))
    && (n <= MAX64 ==>
          && st.nextAlias == n
          && (forall id :: id in st.flows && Bears(st.flows[id]) ==> st.flows[id].streams.alias < n)
          && (forall a, b :: a in st.flows && b in st.flows && a != b && Bears(st.flows[a]) && Bears(st.flows[b]) ==>
                st.flows[a].streams.alias != st.flows[b].streams.alias))
  }

  lemma Inherits(v: View, w: View)
    requires Continues(v, w) && v.flow.Some?
    ensures Bears(w.flow.value) ==> Bears(v.flow.value)
    ensures Truthful(v.flow.value) && (v.flow.value.replies != [] || w.flow.value.replies == []) ==>
              Truthful(w.flow.value)
  {
    var f, g := v.flow.value, w.flow.value;
    assert f.replies != [] ==> g.replies[0] == f.replies[0];
  }

  /** Whatever has not been answered will not be: it was closed before its SUBSCRIBE_OK could be sent. */
  lemma Unheard(st: State, e: Event, id: u64)
    requires Good(st) && Allowed(st, e) && id in st.flows && st.flows[id].replies == []
    ensures Seen(st, e, id).flow == Some(st.flows[id])
  {
    hide Sound, Carried, NoneLive, LiveRanges, Agreement, OnObject, OnUpdate, OnSubscribe, AnswerTo, CouldEnd, Reached;
    assert FlowSound(st.flows[id], StageOf(st, id));
    assert id !in st.requests && id !in st.subs by { AgreedKeys(st); }
    if Begins(st, e, id) {
      NotYetSeen(st, id);
    }
  }

  lemma NewBearer(st: State, e: Event, id: u64, f: Flow)
    requires Begins(st, e, id) && OnSubscribe(st, id, e.key, e.options.value, e.sendOk).flow == Some(f)
    ensures Truthful(f) && (Bears(f) ==> HandsOut(st, e) == 1 && f.streams.alias == st.nextAlias)
  {
    hide Sendable, Asked;
  }

  /** A request after a step: it has the alias it had, or the next one. */
  lemma AliasAfter(st: State, e: Event, id: u64)
    requires Good(st) && Allowed(st, e) && id in Step(st, e).flows
    requires id in st.flows ==> Truthful(st.flows[id])
    ensures var f := Step(st, e).flows[id];
            && Truthful(f)
            && if id in st.flows then
                 f.streams.alias == st.flows[id].streams.alias && (Bears(f) ==> Bears(st.flows[id]))
               else Begins(st, e, id) && (Bears(f) ==> HandsOut(st, e) == 1 && f.streams.alias == st.nextAlias)
  {
    hide Good, Allowed, Step, Seen, OnSubscribe, Begins, HandsOut;
    StepSeen(st, e, id);
    SeenContinues(st, e, id);
    var v, w := ViewOf(st, id), ViewOf(Step(st, e), id);
    if id in st.flows {
      if st.flows[id].replies == [] {
        Unheard(st, e, id);
      }
      Inherits(v, w);
    } else {
      NewBearer(st, e, id, w.flow.value);
    }
  }

  lemma StepAliases(st: State, e: Event, n: nat)
    requires Good(st) && Allowed(st, e) && Aliases(st, n)
    ensures Aliases(Step(st, e), n + HandsOut(st, e))
  {
    hide Good, Allowed, Step, Begins, TakesAlias, Truthful, Bears;
    var r := Step(st, e);
    StepAlias(st, e);
    forall id | id in r.flows
      ensures Truthful(r.flows[id])
      ensures n + HandsOut(st, e) <= MAX64 && Bears(r.flows[id]) ==> r.flows[id].streams.alias < n + HandsOut(st, e)
    {
      AliasAfter(st, e, id);
    }
    forall a, b | n + HandsOut(st, e) <= MAX64 && a in r.flows && b in r.flows && a != b && Bears(r.flows[a])
                  && Bears(r.flows[b])
      ensures r.flows[a].streams.alias != r.flows[b].streams.alias
    {
      AliasAfter(st, e, a);
      AliasAfter(st, e, b);
      assert !(Begins(st, e, a) && Begins(st, e, b)) by { OneBegins(st, e, a, b); }
    }
  }

  lemma OneBegins(st: State, e: Event, a: u64, b: u64)
    requires a != b
    ensures !(Begins(st, e, a) && Begins(st, e, b))
  {
  }

  /** The SUBSCRIBEs of a run. */
  function Subscribes(events: seq<Event>): nat {
    if events == [] then 0 else (if events[0].PeerSubscribe? then 1 else 0) + Subscribes(events[1..])
  }

  lemma {:induction false} RunAliases(st: State, events: seq<Event>, n: nat) returns (m: nat)
    requires Good(st) && AllowedRun(st, events) && Aliases(st, n)
    ensures Aliases(Run(st, events), m) && n <= m <= n + Subscribes(events)
    decreases |events|
  {
    hide Good, Allowed, Step, Aliases, Begins;
    if events == [] {
      m := n;
    } else {
      StepKeeps(st, events[0]);
      StepAliases(st, events[0], n);
      m := RunAliases(Step(st, events[0]), events[1..], n + HandsOut(st, events[0]));
    }
  }

  /**
   * Aliases: in every run, the data of a request is written with the alias that its SUBSCRIBE_OK told,
   * and as long as there have been fewer than 2^64 SUBSCRIBEs no two requests have ever been told the
   * same one.
   */
  lemma ToldAliases(limit: nat, events: seq<Event>, a: u64, b: u64)
    requires AllowedRun(Initial(limit), events)
    requires a in Run(Initial(limit), events).flows && b in Run(Initial(limit), events).flows
    ensures var f, g := Run(Initial(limit), events).flows[a], Run(Initial(limit), events).flows[b];
            && (WasTold(f) ==> f.replies[0].alias == f.streams.alias)
            && (Subscribes(events) <= MAX64 && a != b && WasTold(f) && WasTold(g) ==>
                  f.replies[0].alias != g.replies[0].alias)
  {
    hide Run, AllowedRun, Good;
    Reachable(limit, []);
    assert Run(Initial(limit), []) == Initial(limit) && AllowedRun(Initial(limit), []) by { NoEvents(limit); }
    var m := RunAliases(Initial(limit), events, 0);
    var st := Run(Initial(limit), events);
    assert Truthful(st.flows[a]) && Truthful(st.flows[b]);
  }

  lemma NoEvents(limit: nat)
    ensures Run(Initial(limit), []) == Initial(limit) && AllowedRun(Initial(limit), [])
  {
  }

  // ----- how streams end -----

  /** The last object that was put on the stream. */
  function LastOn(d: DataStream): Published
    requires d.objs != []
  {
    d.objs[|d.objs| - 1]
  }

  /** The object ends its stream: by a flag, or by a status other than normal. */
  predicate ClosesStream(o: Published) {
    o.endOfSubgroup || o.endOfGroup || !(o.status == None || o.status == Some(0x0))
  }

  lemma ClosesExactly()
    ensures forall o :: ClosesStream(o) <==> Closing(o)
  {
  }

  /** A later stream of the same subgroup begins with an Object ID that does not follow. */
  predicate Replaced(wire: seq<DataStream>, i: nat)
    requires i < |wire|
  {
    exists j :: i < j < |wire| && Replaces(wire[i], wire[j])
  }

  predicate Replaces(d: DataStream, later: DataStream) {
    && later.group == d.group && later.subgroup == d.subgroup && later.objs != [] && d.objs != []
    && later.objs[0].id <= LastOn(d).id
  }

  /** An object that ends its stream, its subgroup or its group has finished it. */
  predicate ClosersFinish(wire: seq<DataStream>) {
    forall i :: 0 <= i < |wire| && wire[i].objs != [] && ClosesStream(LastOn(wire[i])) ==> wire[i].state == Finished
  }

  /** A stream is reset only where an Object ID that does not follow has replaced it. */
  predicate ResetByStale(wire: seq<DataStream>) {
    forall i :: 0 <= i < |wire| && wire[i].state == Reset ==> Replaced(wire, i)
  }

  /** A stream is finished only by an object that ends it. */
  predicate FinishedByObject(wire: seq<DataStream>) {
    forall i :: 0 <= i < |wire| && wire[i].state == Finished ==> wire[i].objs != [] && ClosesStream(LastOn(wire[i]))
  }

  predicate HasDone(f: Flow) {
    f.replies != [] && f.replies[|f.replies| - 1].PublishDone?
  }

  /**
   * While a request is attached, streams end by their own objects only. Completion finishes the others
   * and cancellation resets them; in a run that is not exact a request may be cancelled after it has
   * been set adrift.
   */
  predicate EndsRight(v: View, exact: bool) {
    v.flow.Some? ==>
      var f := v.flow.value;
      var wire := f.streams.wire;
      && ClosersFinish(wire)
      && if v.sub.Some? then ResetByStale(wire) && FinishedByObject(wire)
         else if v.listed || HasDone(f) then ResetByStale(wire)
         else FinishedByObject(wire) || (!exact && ResetByStale(wire))
  }

  lemma SendEnds(s: Streams, o: Published)
    requires Sound(s) && ClosersFinish(s.wire) && ResetByStale(s.wire) && FinishedByObject(s.wire)
    ensures var w := SendObject(s, o).wire; ClosersFinish(w) && ResetByStale(w) && FinishedByObject(w)
  {
    hide ClosesStream, Faithful, EncodeHeader, ObjectBytes, Replaced, Append, ResetStale;
    var key := (o.group, o.subgroup);
    if HasStream(s, key) && o.id <= s.open[key].last {
      StaleEnds(s, o);
    } else {
      FollowEnds(s, o);
    }
  }

  /** The object goes on the open stream of its subgroup, or opens the first. */
  lemma FollowEnds(s: Streams, o: Published)
    requires Sound(s) && ClosersFinish(s.wire) && ResetByStale(s.wire) && FinishedByObject(s.wire)
    requires var key := (o.group, o.subgroup); !(HasStream(s, key) && o.id <= s.open[key].last)
    ensures var w := SendObject(s, o).wire; ClosersFinish(w) && ResetByStale(w) && FinishedByObject(w)
  {
    hide Closing, ClosesStream, Faithful, EncodeHeader, ObjectBytes, Replaced;
    ClosesExactly();
    var key, w := (o.group, o.subgroup), SendObject(s, o).wire;
    assert ResetStale(s, o) == s;
    if HasStream(s, key) {
      assert Entry(s, key);
    }
    forall i | 0 <= i < |w| && w[i].state == Reset
      ensures Replaced(w, i)
    {
      assert w[i] == s.wire[i];
      StillReplaced(s.wire, w, i);
    }
  }

  /** The open stream is reset and the object opens another. */
  lemma StaleEnds(s: Streams, o: Published)
    requires Sound(s) && ClosersFinish(s.wire) && ResetByStale(s.wire) && FinishedByObject(s.wire)
    requires var key := (o.group, o.subgroup); HasStream(s, key) && o.id <= s.open[key].last
    ensures var w := SendObject(s, o).wire; ClosersFinish(w) && ResetByStale(w) && FinishedByObject(w)
  {
    hide Closing, ClosesStream, Faithful, EncodeHeader, ObjectBytes, Replaced;
    ClosesExactly();
    var key, w := (o.group, o.subgroup), SendObject(s, o).wire;
    assert Entry(s, key);
    var k := s.open[key].index;
    assert !ClosesStream(LastOn(s.wire[k])) by { LiveIsOpen(s, k); }
    forall i | 0 <= i < |w| && w[i].state == Reset
      ensures Replaced(w, i)
    {
      if i == k {
        assert Replaces(w[k], w[|s.wire|]);
        ReplacedBy(w, k, |s.wire|);
      } else {
        assert w[i] == s.wire[i];
        StillReplaced(s.wire, w, i);
      }
    }
  }

  lemma LiveIsOpen(s: Streams, k: nat)
    requires Sound(s) && k < |s.wire| && s.wire[k].state == Live
    ensures s.wire[k].objs != [] && !ClosesStream(LastOn(s.wire[k]))
  {
    ClosesExactly();
    assert Faithful(s.alias, s.wire[k]);
  }

  lemma ReplacedBy(wire: seq<DataStream>, i: nat, j: nat)
    requires i < j < |wire| && Replaces(wire[i], wire[j])
    ensures Replaced(wire, i)
  {
  }

  /** Streams keep their place and their first object. */
  lemma StillReplaced(wire: seq<DataStream>, w: seq<DataStream>, i: nat)
    requires i < |wire| <= |w| && Replaced(wire, i) && w[i] == wire[i]
    requires forall j :: 0 <= j < |wire| ==>
               w[j].group == wire[j].group && w[j].subgroup == wire[j].subgroup && wire[j].objs <= w[j].objs
    ensures Replaced(w, i)
  {
    var j :| i < j < |wire| && Replaces(wire[i], wire[j]);
    assert w[j].objs[0] == wire[j].objs[0];
    ReplacedBy(w, i, j);
  }

  /** Streams that end together: their objects do not change. */
  lemma EndOpenEnds(s: Streams, how: StreamState)
    requires Sound(s) && ClosersFinish(s.wire) && how != Live
    ensures var w := EndOpen(s, how).wire;
            && ClosersFinish(w)
            && (how == Finished && ResetByStale(s.wire) ==> ResetByStale(w))
            && (how == Reset && FinishedByObject(s.wire) ==> FinishedByObject(w))
  {
    hide ClosesStream, Faithful, Replaced;
    var w := EndOpen(s, how).wire;
    forall i | 0 <= i < |w| && s.wire[i].state == Live
      ensures s.wire[i].objs != [] && !ClosesStream(LastOn(s.wire[i]))
    {
      LiveIsOpen(s, i);
    }
    if how == Finished && ResetByStale(s.wire) {
      forall i | 0 <= i < |w| && w[i].state == Reset
        ensures Replaced(w, i)
      {
        StillReplaced(s.wire, w, i);
      }
    }
  }

  /** What is known of a request whose flow is sound. */
  predicate Kept(v: View) {
    && (v.sub.Some? ==> v.listed) && (v.listed ==> v.flow.Some?)
    && (v.flow.Some? ==> Sound(v.flow.value.streams))
  }

  lemma CompletedEnds(v: View, end: Ending, exact: bool)
    requires Kept(v) && EndsRight(v, exact)
    ensures EndsRight(Completed(v, end), exact)
  {
    hide Sendable, Sound, EndOpen, ClosersFinish, ResetByStale, FinishedByObject;
    if v.sub.Some? {
      EndOpenEnds(v.flow.value.streams, Finished);
    }
  }

  /** Cancelling; in an exact run a listed request is attached. */
  lemma CancelledEnds(v: View, exact: bool)
    requires Kept(v) && EndsRight(v, exact) && (exact ==> (v.listed ==> v.sub.Some?))
    requires v.listed ==> !HasDone(v.flow.value)
    ensures EndsRight(Cancelled(v), exact)
  {
    hide Sound, EndOpen, ClosersFinish, ResetByStale, FinishedByObject;
    if v.sub.Some? {
      EndOpenEnds(v.flow.value.streams, Reset);
    }
  }

  lemma GivenEnds(v: View, o: Published, exact: bool)
    requires Kept(v) && EndsRight(v, exact) && v.sub.Some? && ValidPublish(o)
    ensures var v1 := v.(flow := Some(Given(v.flow.value, o))); Kept(v1) && EndsRight(v1, exact)
  {
    hide Sound, ClosersFinish, ResetByStale, FinishedByObject, SendObject, ValidPublish;
    SendEnds(v.flow.value.streams, o);
    SendObjectSound(v.flow.value.streams, o);
  }

  lemma ObjectEnds(v: View, o: Published, exact: bool)
    requires Kept(v) && EndsRight(v, exact) && Accepts(o)
    ensures EndsRight(OnObject(v, o), exact)
  {
    hide Kept, EndsRight, Completed, Given, Selects;
    if v.sub.Some? && v.flow.Some? {
      var v1 := v.(flow := Some(Given(v.flow.value, o)));
      GivenEnds(v, o, exact);
      CompletedEnds(v, PAST_RANGE, exact);
      CompletedEnds(v, END_OF_TRACK, exact);
      CompletedEnds(v1, PAST_RANGE, exact);
      CompletedEnds(v1, END_OF_TRACK, exact);
    }
  }

  lemma UpdateEnds(v: View, o: Options, largest: Option<Location>, exact: bool)
    requires Kept(v) && EndsRight(v, exact) && v.listed
    ensures EndsRight(OnUpdate(v, o, largest), exact)
  {
    hide Sound, ClosersFinish, ResetByStale, FinishedByObject, Completed, Asked;
    if Objection(v, o, largest).Some? {
      var reason := Objection(v, o, largest).value;
      var v1 := v.(flow := Some(Hears(v.flow.value, Rejected(reason))));
      CompletedEnds(v1, Ending(UpdateFailed, ReasonText(reason)), exact);
    }
  }

  lemma NewEnds(st: State, id: u64, key: TrackKey, o: Options, sendOk: bool, exact: bool)
    ensures EndsRight(OnSubscribe(st, id, key, o, sendOk), exact)
  {
    hide Sendable, AnswerTo;
  }

  lemma GoodKept(st: State, id: u64)
    requires Good(st)
    ensures Kept(ViewOf(st, id)) && (id in st.requests ==> id in st.flows && !HasDone(st.flows[id]))
  {
    hide Sound, Carried, NoneLive, LiveRanges;
    if id in st.flows {
      assert FlowSound(st.flows[id], StageOf(st, id));
    }
  }

  lemma SeenEnds(st: State, e: Event, id: u64, exact: bool)
    requires Good(st) && EndsRight(ViewOf(st, id), exact) && (exact ==> Aligned(st))
    ensures EndsRight(Seen(st, e, id), exact)
  {
    hide Good, Kept, EndsRight, Completed, Cancelled, OnObject, OnUpdate, OnSubscribe, AnswerTo, CouldEnd, HasDone,
         Reached, Accepts;
    var v := ViewOf(st, id);
    GoodKept(st, id);
    CancelledEnds(v, exact);
    match e
    case PublishCall(o, _) =>
      if Accepts(o) {
        ObjectEnds(v, o, exact);
      }
    case EndTrackCall(_, end, _) => CompletedEnds(v, end, exact);
    case UnregisterTrack(_, _) => CompletedEnds(v, UNREGISTERED, exact);
    case PeerSubscribe(_, key, options, sendOk) =>
      if options.Some? {
        NewEnds(st, id, key, options.value, sendOk, exact);
      }
    case PeerUpdate(_, _, options) =>
      if options.Some? && v.listed {
        UpdateEnds(v, options.value, Reached(st, v), exact);
      }
    case _ =>
  }

  predicate AllEndRight(st: State, exact: bool) {
    forall id: u64 :: EndsRight(ViewOf(st, id), exact)
  }

  lemma {:induction false} RunEnds(st: State, events: seq<Event>, exact: bool)
    requires Good(st) && AllowedRun(st, events) && AllEndRight(st, exact)
    requires exact ==> Exact(st) && RunFits(st, events)
    ensures AllEndRight(Run(st, events), exact)
    decreases |events|
  {
    hide Good, Allowed, Step, EndsRight, EventFits, AllTold;
    if events != [] {
      var r := Step(st, events[0]);
      StepKeeps(st, events[0]);
      if exact {
        StepExact(st, events[0]);
      }
      forall id: u64
        ensures EndsRight(ViewOf(r, id), exact)
      {
        StepSeen(st, events[0], id);
        SeenEnds(st, events[0], id, exact);
      }
      RunEnds(r, events[1..], exact);
    }
  }

  /**
   * How streams end, in every run. As long as a request is attached, a stream is finished exactly if its
   * last object ends it, and reset only where an Object ID that does not follow has replaced it. Once
   * PUBLISH_DONE has been said every other stream is finished. If the request was cancelled every other
   * stream is reset, in every run whose PUBLISH_DONEs fit.
   */
  lemma StreamEnds(limit: nat, events: seq<Event>, id: u64, i: nat)
    requires AllowedRun(Initial(limit), events)
    requires var st := Run(Initial(limit), events); id in st.flows && i < |st.flows[id].streams.wire|
    ensures var st := Run(Initial(limit), events); var f := st.flows[id]; var wire := f.streams.wire;
            && wire[i].objs != []
            && var closing := ClosesStream(LastOn(wire[i]));
               && (closing ==> wire[i].state == Finished)
               && (id in st.subs ==> (wire[i].state == Finished ==> closing))
               && (id in st.subs || HasDone(f) ==> (wire[i].state == Reset ==> Replaced(wire, i)))
               && (id !in st.subs ==> wire[i].state != Live)
               && (RunFits(Initial(limit), events) && id !in st.requests && !HasDone(f) ==>
                     wire[i].state == if closing then Finished else Reset)
  {
    hide Run, AllowedRun, Good, RunFits, ClosesStream, Replaced, Sound, Carried;
    var st := Run(Initial(limit), events);
    Reachable(limit, events);
    InitialIsExact(limit);
    RunEnds(Initial(limit), events, false);
    if RunFits(Initial(limit), events) {
      RunEnds(Initial(limit), events, true);
      assert EndsRight(ViewOf(st, id), true);
    }
    assert EndsRight(ViewOf(st, id), false);
    StreamFacts(st, id, i);
  }

  lemma StreamFacts(st: State, id: u64, i: nat)
    requires Good(st) && id in st.flows && i < |st.flows[id].streams.wire|
    ensures var wire := st.flows[id].streams.wire; wire[i].objs != [] && (id !in st.subs ==> wire[i].state != Live)
    ensures id in st.subs ==> id in st.requests
  {
    hide Carried, LiveRanges, OneStream, StreamBytes, Closing;
    assert FlowSound(st.flows[id], StageOf(st, id));
    assert Faithful(st.flows[id].streams.alias, st.flows[id].streams.wire[i]);
  }

  lemma InitialIsExact(limit: nat)
    ensures Good(Initial(limit)) && Exact(Initial(limit))
    ensures AllEndRight(Initial(limit), false) && AllEndRight(Initial(limit), true)
  {
  }

  // ----- datagrams -----

  /** Those of the objects that are to go as datagrams, in order. */
  function AsDatagrams(objs: seq<Published>): seq<Published> {
    if objs == [] then [] else
    var n := |objs| - 1;
    AsDatagrams(objs[..n]) + if objs[n].kind == Datagram then [objs[n]] else []
  }

  predicate KindsKept(v: View) {
    v.flow.Some? ==> v.flow.value.datagrams == AsDatagrams(v.flow.value.sent)
  }

  lemma CompletedKinds(v: View, end: Ending)
    requires KindsKept(v)
    ensures KindsKept(Completed(v, end)) && KindsKept(Cancelled(v))
  {
    hide Sendable, EndOpen, AsDatagrams;
  }

  lemma GivenKinds(f: Flow, o: Published)
    requires f.datagrams == AsDatagrams(f.sent)
    ensures Given(f, o).datagrams == AsDatagrams(Given(f, o).sent)
  {
    hide SendObject;
    assert (f.sent + [o])[..|f.sent|] == f.sent;
  }

  lemma SeenKinds(st: State, e: Event, id: u64)
    requires Good(st) && KindsKept(ViewOf(st, id))
    ensures KindsKept(Seen(st, e, id))
  {
    hide Good, AsDatagrams, Completed, Cancelled, Selects, AnswerTo, CouldEnd, Asked, Sendable, Given, Reached;
    var v := ViewOf(st, id);
    CompletedKinds(v, PAST_RANGE);
    assert AsDatagrams([]) == [] by { NoDatagrams(); }
    match e
    case PublishCall(o, _) =>
      if v.sub.Some? && v.flow.Some? {
        GivenKinds(v.flow.value, o);
        var v1 := v.(flow := Some(Given(v.flow.value, o)));
        CompletedKinds(v1, PAST_RANGE);
        CompletedKinds(v1, END_OF_TRACK);
        CompletedKinds(v, END_OF_TRACK);
      }
    case EndTrackCall(_, end, _) => CompletedKinds(v, end);
    case UnregisterTrack(_, _) => CompletedKinds(v, UNREGISTERED);
    case PeerUpdate(_, _, options) =>
      if options.Some? && v.flow.Some? && Objection(v, options.value, Reached(st, v)).Some? {
        var reason := Objection(v, options.value, Reached(st, v)).value;
        CompletedKinds(v.(flow := Some(Hears(v.flow.value, Rejected(reason)))),
                       Ending(UpdateFailed, ReasonText(reason)));
      }
    case _ =>
  }

  lemma NoDatagrams()
    ensures AsDatagrams([]) == []
  {
  }

  lemma {:induction false} RunKinds(st: State, events: seq<Event>, id: u64)
    requires Good(st) && AllowedRun(st, events) && KindsKept(ViewOf(st, id))
    ensures KindsKept(ViewOf(Run(st, events), id))
    decreases |events|
  {
    hide Good, Allowed, Step, KindsKept;
    if events != [] {
      StepKeeps(st, events[0]);
      StepSeen(st, events[0], id);
      SeenKinds(st, events[0], id);
      RunKinds(Step(st, events[0]), events[1..], id);
    }
  }

  /** In every run, exactly the objects that say so have gone as datagrams, in order, and all others on streams. */
  lemma DatagramsAndStreams(limit: nat, events: seq<Event>, id: u64)
    requires AllowedRun(Initial(limit), events) && id in Run(Initial(limit), events).flows
    ensures var f := Run(Initial(limit), events).flows[id];
            && f.datagrams == AsDatagrams(f.sent)
            && Carried(f.streams.wire) == multiset(f.sent) - multiset(AsDatagrams(f.sent))
  {
    hide Run, AllowedRun, Carried, Sound, NoneLive, LiveRanges, Agreement;
    Reachable(limit, events);
    InitialIsExact(limit);
    RunKinds(Initial(limit), events, id);
    var st := Run(Initial(limit), events);
    assert FlowSound(st.flows[id], StageOf(st, id));
  }
}

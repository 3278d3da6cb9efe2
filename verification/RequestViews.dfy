/**
 * The publisher as one request sees it, said without the publisher's tables and loops: which objects it
 * is given, what ends it and with which words, and what a SUBSCRIBE and a REQUEST_UPDATE come to. Every
 * step of the publisher does to each request what is said here, whatever it does to the others.
 */
module RequestViews {
  import opened Basics
  import opened SubgroupSend
  import opened SendStreams
  import opened Publishing
  import opened PublishingInvariants

  /** A request: whether the session lists it, its subscription if it is attached, and what its peer has seen. */
  datatype View = View(listed: bool, sub: Option<Sub>, flow: Option<Flow>)

  const NOTHING := View(false, None, None)

  function ViewOf(st: State, id: u64): View {
    View(id in st.requests, if id in st.subs then Some(st.subs[id]) else None,
         if id in st.flows then Some(st.flows[id]) else None)
  }

  // ----- objects -----

  /** publish takes the object: no fetch, no unknown status, and no payload with a status that has none. */
  predicate Accepts(o: Published) {
    && (o.kind == SubgroupStream || o.kind == Datagram)
    && (o.status.None? || o.status.value == 0x0 || (o.status.value in {0x3, 0x4} && |o.payload| == 0))
  }

  /** The object is one that the subscription asks for: forwarded, not before its start, not past its end. */
  predicate Selects(sub: Sub, o: Published) {
    && sub.forward
    && (o.group > sub.range.start.group || (o.group == sub.range.start.group && o.id >= sub.range.start.id))
    && (sub.range.end == None || o.group <= sub.range.end.value)
  }

  lemma SelectsExact(sub: Sub, o: Published)
    ensures Selects(sub, o) <==> Admits(sub, o)
    ensures Accepts(o) <==> Publishable(o)
  {
  }

  /** Streams that are still open end in the given way; those that have ended stay as they are. */
  function EndOpen(s: Streams, how: StreamState): Streams {
    s.(open := map[], wire := seq(|s.wire|, i requires 0 <= i < |s.wire| =>
                                    if s.wire[i].state == Live then s.wire[i].(state := how) else s.wire[i]))
  }

  lemma ClosedExactly(s: Streams)
    ensures CloseAll(s, false) == EndOpen(s, Finished) && CloseAll(s, true) == EndOpen(s, Reset)
  {
    assert CloseAll(s, false).wire == EndOpen(s, Finished).wire;
    assert CloseAll(s, true).wire == EndOpen(s, Reset).wire;
  }

  /** The object goes out as a datagram or on a stream, as it says itself. */
  function Given(f: Flow, o: Published): Flow {
    if o.kind == Datagram then Flow(f.streams, f.datagrams + [o], f.sent + [o], f.replies)
    else Flow(SendObject(f.streams, o), f.datagrams, f.sent + [o], f.replies)
  }

  function Hears(f: Flow, r: Reply): Flow {
    Flow(f.streams, f.datagrams, f.sent, f.replies + [r])
  }

  /** How many streams an attached request has opened. */
  function Opened(v: View): nat {
    if v.sub.Some? && v.flow.Some? then |v.flow.value.streams.wire| else 0
  }

  /** Its streams, if it is attached, end in the given way. */
  function Detached(v: View, how: StreamState): View {
    View(v.listed, None,
         if v.sub.Some? && v.flow.Some? then Some(v.flow.value.(streams := EndOpen(v.flow.value.streams, how)))
         else v.flow)
  }

  /**
   * The request is completed: its open streams are finished, PUBLISH_DONE tells how many there were, and
   * it is gone; if PUBLISH_DONE cannot be encoded nothing is told and the session still lists it.
   */
  function Completed(v: View, end: Ending): View {
    if !v.listed then v else
    var done, v1 := PublishDone(end, Opened(v)), Detached(v, Finished);
    if Sendable(done) then View(false, None, if v1.flow.Some? then Some(Hears(v1.flow.value, done)) else None) else v1
  }

  /** The request is cancelled: its open streams are reset and it is gone, without a word. */
  function Cancelled(v: View): View {
    if v.listed then Detached(v, Reset).(listed := false) else v
  }

  const PAST_RANGE := Ending(SubscriptionEnded, Text("end of subscription range"))
  const END_OF_TRACK := Ending(TrackEnded, Text("end of track"))

  /**
   * An object is published on the track of an attached request. A bounded subscription ends when its
   * track has moved past its last group, before the object, or behind the object that ends that group.
   */
  function OnObject(v: View, o: Published): View {
    if v.sub.None? || v.flow.None? then v else
    var sub := v.sub.value;
    if sub.range.end.Some? && sub.range.end.value < o.group then Completed(v, PAST_RANGE) else
    var v1 := if Selects(sub, o) then v.(flow := Some(Given(v.flow.value, o))) else v;
    if o.status == Some(0x4) then Completed(v1, END_OF_TRACK)
    else if sub.range.end == Some(o.group) && (o.endOfGroup || o.status == Some(0x3)) then Completed(v1, PAST_RANGE)
    else v1
  }

  // ----- what the publisher's own functions do to one request -----

  /** The counter of an attached request is the number of its streams. */
  predicate Counted(v: View) {
    v.sub.Some? && v.flow.Some? ==> v.flow.value.streams.count == |v.flow.value.streams.wire|
  }

  lemma GoodCounts(st: State, id: u64)
    requires Good(st)
    ensures Counted(ViewOf(st, id)) && (id in st.requests ==> id in st.flows)
    ensures id in st.subs ==> id in st.requests && st.subs[id].track in st.tracks
  {
    hide Carried, NoneLive, LiveRanges;
    if id in st.flows {
      assert FlowSound(st.flows[id], StageOf(st, id));
    }
  }

  lemma FinishSeen(st: State, id: u64, end: Ending)
    requires Counted(ViewOf(st, id)) && (id in st.requests ==> id in st.flows)
    requires id in st.subs ==> id in st.requests
    ensures ViewOf(FinishRequest(st, id, end), id) == Completed(ViewOf(st, id), end)
  {
    hide CloseAll, EndOpen, Sendable;
    if id in st.flows {
      ClosedExactly(st.flows[id].streams);
    }
  }

  lemma FinishElsewhere(st: State, other: u64, end: Ending, id: u64)
    requires other != id
    ensures ViewOf(FinishRequest(st, other, end), id) == ViewOf(st, id)
  {
    hide CloseAll, Sendable;
  }

  lemma CancelSeen(st: State, id: u64)
    requires (id in st.requests ==> id in st.flows) && (id in st.subs ==> id in st.requests)
    ensures ViewOf(CancelRequest(st, id), id) == Cancelled(ViewOf(st, id))
  {
    hide CloseAll, EndOpen;
    if id in st.flows {
      ClosedExactly(st.flows[id].streams);
    }
  }

  lemma CancelElsewhere(st: State, other: u64, id: u64)
    requires other != id
    ensures ViewOf(CancelRequest(st, other), id) == ViewOf(st, id)
  {
    hide CloseAll;
  }

  lemma ShutdownSeen(st: State, id: u64)
    requires id in st.subs ==> id in st.requests
    ensures ViewOf(Shutdown(st), id) == if st.ready then Cancelled(ViewOf(st, id)) else ViewOf(st, id)
  {
    hide CloseAll, EndOpen;
    if id in st.flows {
      ClosedExactly(st.flows[id].streams);
    }
  }

  lemma VisitSeen(st: State, o: Published, id: u64)
    requires id in st.subs && id in st.requests && id in st.flows && Counted(ViewOf(st, id))
    ensures ViewOf(PublishTo(st, id, o), id) == OnObject(ViewOf(st, id), o)
  {
    hide FinishRequest, Completed, SendObject, EndOpen, Accepts, Selects, Admits;
    var sub := st.subs[id];
    SelectsExact(sub, o);
    FinishSeen(st, id, RANGE_END);
    var st1 := if Admits(sub, o) then Send(st, id, o) else st;
    assert Counted(ViewOf(st1, id)) by { SentCounts(st.flows[id], o); }
    FinishSeen(st1, id, RANGE_END);
    FinishSeen(st1, id, TRACK_END);
  }

  lemma SentCounts(f: Flow, o: Published)
    requires f.streams.count == |f.streams.wire|
    ensures var g := SendOn(f, o); g == Given(f, o) && g.streams.count == |g.streams.wire|
  {
    hide EncodeHeader, ObjectBytes, Closing;
  }

  lemma VisitElsewhere(st: State, other: u64, o: Published, id: u64)
    requires other != id
    ensures ViewOf(PublishTo(st, other, o), id) == ViewOf(st, id)
  {
    hide FinishRequest, SendOn, Admits;
    if other in st.subs {
      var st1 := if Admits(st.subs[other], o) then Send(st, other, o) else st;
      FinishElsewhere(st, other, RANGE_END, id);
      FinishElsewhere(st1, other, RANGE_END, id);
      FinishElsewhere(st1, other, TRACK_END, id);
    }
  }

  lemma {:induction false} PassedBy(st: State, order: seq<u64>, o: Published, id: u64)
    requires id !in order
    ensures ViewOf(PublishAll(st, order, o), id) == ViewOf(st, id)
    decreases |order|
  {
    hide PublishTo, ViewOf;
    if order != [] {
      VisitElsewhere(st, order[0], o, id);
      PassedBy(PublishTo(st, order[0], o), order[1..], o, id);
    }
  }

  /** The loop visits a request once, whatever the turns of the others complete. */
  lemma {:induction false} VisitedOnce(st: State, order: seq<u64>, o: Published, id: u64)
    requires id in order && forall i, j :: 0 <= i < j < |order| ==> order[i] != order[j]
    requires id in st.subs && id in st.requests && id in st.flows && Counted(ViewOf(st, id))
    ensures ViewOf(PublishAll(st, order, o), id) == OnObject(ViewOf(st, id), o)
    decreases |order|
  {
    hide PublishTo, OnObject, Counted;
    var st1, rest := PublishTo(st, order[0], o), order[1..];
    assert order == [order[0]] + rest;
    if order[0] == id {
      VisitSeen(st, o, id);
      PassedBy(st1, rest, o, id);
    } else {
      VisitElsewhere(st, order[0], o, id);
      assert forall i, j :: 0 <= i < j < |rest| ==> rest[i] != rest[j];
      VisitedOnce(st1, rest, o, id);
    }
  }

  /** Publishing an object does to each request on its track what it is for that request, and nothing to any other. */
  lemma PublishSeen(st: State, o: Published, order: seq<u64>, id: u64)
    requires Good(st) && Enumerates(st, o.track, order)
    ensures ViewOf(Publish(st, o, order), id) ==
            if Accepts(o) && id in st.subs && st.subs[id].track == o.track then OnObject(ViewOf(st, id), o)
            else ViewOf(st, id)
  {
    hide PublishAll, OnObject, Publishable, Accepts, Counted;
    if id in st.subs {
      SelectsExact(st.subs[id], o);
    }
    SelectsExact(Sub(o.track, true, ALL), o);
    GoodCounts(st, id);
    if o.track in st.tracks {
      AgreedSets(st, o.track) by { GoodAgreement(st); }
      var st1 := Advance(st, o);
      assert ViewOf(st1, id) == ViewOf(st, id);
      if id in order {
        VisitedOnce(st1, order, o, id);
      } else {
        PassedBy(st1, order, o, id);
      }
    }
  }

  lemma GoodAgreement(st: State)
    requires Good(st)
    ensures Agreement(st)
  {
  }

  // ----- the end of a track -----

  /** PUBLISH_DONE for the request could be encoded. */
  predicate CouldEnd(v: View, end: Ending) {
    v.listed ==> Sendable(PublishDone(end, Opened(v)))
  }

  /** Ending a track completes its requests in order, until the PUBLISH_DONE of one cannot be encoded. */
  lemma {:induction false} EndAllSeen(st: State, order: seq<u64>, end: Ending, k: nat)
    requires Good(st) && k < |order| && forall i, j :: 0 <= i < j < |order| ==> order[i] != order[j]
    ensures var id := order[k];
            ViewOf(EndAll(st, order, end), id) ==
            if forall j :: 0 <= j < k ==> CouldEnd(ViewOf(st, order[j]), end) then Completed(ViewOf(st, id), end)
            else ViewOf(st, id)
    decreases |order|
  {
    hide Good, FinishRequest, Completed, CouldEnd, Fits;
    var first, rest, id := order[0], order[1..], order[k];
    var st1 := FinishRequest(st, first, end);
    CouldFit(st, first, end);
    GoodCounts(st, id);
    if k == 0 {
      FinishSeen(st, id, end);
      if Fits(st, first, end) {
        EndAllElsewhere(st1, rest, end, id);
      }
    } else {
      FinishElsewhere(st, first, end, id);
      FinishGood(st, first, end);
      if Fits(st, first, end) {
        forall j | 0 <= j < |rest|
          ensures ViewOf(st1, rest[j]) == ViewOf(st, order[j + 1])
        {
          FinishElsewhere(st, first, end, rest[j]);
        }
        assert rest[k - 1] == id;
        EndAllSeen(st1, rest, end, k - 1);
        assert (forall j :: 0 <= j < k ==> CouldEnd(ViewOf(st, order[j]), end)) <==>
               forall j :: 0 <= j < k - 1 ==> CouldEnd(ViewOf(st1, rest[j]), end) by {
          ShiftedEnds(st, st1, order, k, end);
        }
      }
    }
  }

  lemma ShiftedEnds(st: State, st1: State, order: seq<u64>, k: nat, end: Ending)
    requires 0 < k < |order| && CouldEnd(ViewOf(st, order[0]), end)
    requires forall j :: 0 <= j < |order| - 1 ==> ViewOf(st1, order[1..][j]) == ViewOf(st, order[j + 1])
    ensures (forall j :: 0 <= j < k ==> CouldEnd(ViewOf(st, order[j]), end)) <==>
            forall j :: 0 <= j < k - 1 ==> CouldEnd(ViewOf(st1, order[1..][j]), end)
  {
    hide CouldEnd, ViewOf;
    if forall j :: 0 <= j < k - 1 ==> CouldEnd(ViewOf(st1, order[1..][j]), end) {
      forall j | 0 <= j < k
        ensures CouldEnd(ViewOf(st, order[j]), end)
      {
        if j > 0 {
          assert CouldEnd(ViewOf(st1, order[1..][j - 1]), end);
        }
      }
    }
  }

  lemma CouldFit(st: State, id: u64, end: Ending)
    requires Good(st)
    ensures CouldEnd(ViewOf(st, id), end) <==> Fits(st, id, end)
  {
    hide Good, Sendable;
    GoodCounts(st, id);
  }

  lemma {:induction false} EndAllElsewhere(st: State, order: seq<u64>, end: Ending, id: u64)
    requires id !in order
    ensures ViewOf(EndAll(st, order, end), id) == ViewOf(st, id)
    decreases |order|
  {
    hide FinishRequest, ViewOf, Fits;
    if order != [] {
      FinishElsewhere(st, order[0], end, id);
      EndAllElsewhere(FinishRequest(st, order[0], end), order[1..], end, id);
    }
  }

  // ----- SUBSCRIBE and REQUEST_UPDATE -----

  /** One more, in 64 bits. */
  function Next(n: u64): u64 {
    if n == MAX64 then 0 else n + 1
  }

  /** The range that a filter stands for, given the largest location on the track. */
  function Asked(f: Filter, largest: Option<Location>): Range {
    match f.kind
    case AbsoluteStart => Range(f.start, None)
    case AbsoluteRange =>
      var last := f.start.group + f.endDelta;
      Range(f.start, Some(if last > MAX64 then last - MAX64 - 1 else last))
    case NextGroupStart =>
      if largest.None? then Range(Location(0, 0), None) else Range(Location(Next(largest.value.group), 0), None)
    case LargestObject =>
      if largest.None? then Range(Location(0, 0), None)
      else Range(Location(largest.value.group, Next(largest.value.id)), None)
  }

  lemma AskedExactly(f: Filter, largest: Option<Location>)
    ensures Resolve(f, largest) == Asked(f, largest)
  {
  }

  /** A delivery timeout other than zero is stated. */
  predicate WantsTimeout(o: Options) {
    !(o.subgroupTimeout == None || o.subgroupTimeout == Some(0))
    || !(o.objectTimeout == None || o.objectTimeout == Some(0))
  }

  /** The track has moved past the last group of the range. */
  predicate TooLate(r: Range, largest: Option<Location>) {
    match (r.end, largest)
    case (Some(last), Some(at)) => last < at.group
    case _ => false
  }

  /** What a SUBSCRIBE with a new Request ID and readable options is answered. */
  datatype Answer = No(reason: Reason) | Yes(sub: Sub, ok: Reply)

  function AnswerTo(st: State, key: TrackKey, o: Options): Answer {
    if |key.space| > 0 && key.space[0] == [0x2E] then No(ReservedSpace)
    else if |st.requests| >= st.limit then No(ExcessiveLoad)
    else if key !in st.tracks then No(NotPublished)
    else if WantsTimeout(o) then No(NotSupported)
    else
      var track := st.tracks[key];
      var range := if o.filter.Some? then Asked(o.filter.value, track.largest) else Range(Location(0, 0), None);
      if TooLate(range, track.largest) then No(InvalidRange)
      else Yes(Sub(key, o.forward != Some(false), range), Accepted(st.nextAlias, track.largest, track.properties))
  }

  /** A Request ID that the peer may use: odd, and not used before. */
  predicate Unused(st: State, id: u64) {
    id % 2 == 1 && id !in st.consumed
  }

  /** What SUBSCRIBE makes of its own request. */
  function OnSubscribe(st: State, id: u64, key: TrackKey, o: Options, sendOk: bool): View {
    match AnswerTo(st, key, o)
    case No(reason) => View(false, None, Some(Flow(Streams(0, 0, map[], []), [], [], [Rejected(reason)])))
    case Yes(sub, ok) =>
      var quiet := Flow(Streams(st.nextAlias, 0, map[], []), [], [], []);
      if sendOk && Sendable(ok) then View(true, Some(sub), Some(Hears(quiet, ok))) else View(false, None, Some(quiet))
  }

  /** The event makes the session close. */
  predicate Breaks(st: State, e: Event) {
    match e
    case PeerSubscribe(id, key, options, sendOk) =>
      && st.ready
      && (!Unused(st, id) || options.None? ||
          (var a := AnswerTo(st, key, options.value); a.Yes? && !(sendOk && Sendable(a.ok))))
    case PeerUpdate(id, updateId, options) => id in st.requests && (!Unused(st, updateId) || options.None?)
    case Violation => true
    case _ => false
  }

  /** A SUBSCRIBE that gets as far as its options takes an alias, also if it is then refused. */
  predicate TakesAlias(st: State, key: TrackKey) {
    !(|key.space| > 0 && key.space[0] == [0x2E]) && |st.requests| < st.limit && key in st.tracks
  }

  /** The session has taken note of the Request ID and handed out the alias. */
  function Noted(st: State, id: u64, key: TrackKey): State {
    st.(consumed := st.consumed + {id}, nextAlias := if TakesAlias(st, key) then Next(st.nextAlias) else st.nextAlias)
  }

  lemma SubscribeAnswered(st: State, id: u64, key: TrackKey, o: Options, sendOk: bool)
    requires Unused(st, id)
    ensures Subscribe(st, id, key, Some(o), sendOk) ==
            match AnswerTo(st, key, o)
            case No(reason) => Reject(Noted(st, id, key), id, reason)
            case Yes(sub, ok) =>
              var st1 := Accept(Noted(st, id, key), id, sub, st.nextAlias);
              if sendOk && Sendable(ok) then Say(st1, id, ok) else Shutdown(st1)
  {
    hide Sendable, Resolve, Asked, Shutdown, Accept, Reject, Say;
    if o.filter.Some? && key in st.tracks {
      AskedExactly(o.filter.value, st.tracks[key].largest);
    }
    assert Wrap(st.nextAlias + 1) == Next(st.nextAlias);
  }

  /** A SUBSCRIBE is answered as it should be, and a broken one closes the session for everyone. */
  lemma SubscribeSeen(st: State, id: u64, key: TrackKey, options: Option<Options>, sendOk: bool)
    requires Good(st) && st.ready && Unused(st, id) && options.Some?
    ensures ViewOf(Subscribe(st, id, key, options, sendOk), id) == OnSubscribe(st, id, key, options.value, sendOk)
  {
    hide Good, Sendable, AnswerTo, Shutdown, EndOpen, Subscribe, Noted;
    NotYetSeen(st, id);
    SubscribeAnswered(st, id, key, options.value, sendOk);
    var st1, a := Noted(st, id, key), AnswerTo(st, key, options.value);
    NotedViews(st, id, key, id);
    if a.Yes? {
      assert a.sub.track in st.tracks by { AnswersForTracks(st, key, options.value); }
      ShutdownSeen(Accept(st1, id, a.sub, st.nextAlias), id);
      NothingToEnd(st.nextAlias);
    }
  }

  lemma NotedViews(st: State, id: u64, key: TrackKey, other: u64)
    ensures var st1 := Noted(st, id, key);
            ViewOf(st1, other) == ViewOf(st, other) && st1.ready == st.ready && st1.tracks == st.tracks
  {
  }

  lemma AnswersForTracks(st: State, key: TrackKey, o: Options)
    requires AnswerTo(st, key, o).Yes?
    ensures AnswerTo(st, key, o).sub.track in st.tracks
  {
  }

  lemma NothingToEnd(alias: u64)
    ensures EndOpen(NoStreams(alias), Reset) == Streams(alias, 0, map[], [])
  {
  }

  lemma SubscribeElsewhere(st: State, other: u64, key: TrackKey, options: Option<Options>, sendOk: bool, id: u64)
    requires Good(st) && st.ready && other != id
    ensures ViewOf(Subscribe(st, other, key, options, sendOk), id) ==
            if Breaks(st, PeerSubscribe(other, key, options, sendOk)) then Cancelled(ViewOf(st, id)) else ViewOf(st, id)
  {
    hide Good, Sendable, AnswerTo, Shutdown, Cancelled, Noted;
    GoodCounts(st, id);
    ShutdownSeen(st, id);
    ShutdownSeen(st.(consumed := st.consumed + {other}), id);
    if Unused(st, other) && options.Some? {
      hide Subscribe;
      SubscribeAnswered(st, other, key, options.value, sendOk);
      var st1, a := Noted(st, other, key), AnswerTo(st, key, options.value);
      NotedViews(st, other, key, id);
      if a.Yes? {
        ShutdownSeen(Accept(st1, other, a.sub, st.nextAlias), id);
      }
    }
  }

  /** Why an update of the request is refused, if it is. */
  function Objection(v: View, o: Options, largest: Option<Location>): Option<Reason> {
    if v.sub.None? then Some(NotEstablished)
    else if WantsTimeout(o) then Some(NotSupported)
    else if o.filter.Some? && TooLate(Asked(o.filter.value, largest), largest) then Some(InvalidRange)
    else None
  }

  /**
   * What a REQUEST_UPDATE makes of its request. Granted, it replaces what it states and nothing else, and
   * is told the largest location; refused, it is told why, and the request is completed for that reason.
   */
  function OnUpdate(v: View, o: Options, largest: Option<Location>): View {
    if v.flow.None? then v else
    match Objection(v, o, largest)
    case Some(reason) =>
      Completed(v.(flow := Some(Hears(v.flow.value, Rejected(reason)))), Ending(UpdateFailed, ReasonText(reason)))
    case None =>
      var was := v.sub.value;
      var range := if o.filter.Some? then Asked(o.filter.value, largest) else was.range;
      var forward := if o.forward.Some? then o.forward.value else was.forward;
      View(v.listed, Some(Sub(was.track, forward, range)), Some(Hears(v.flow.value, Updated(largest))))
  }

  /** The largest location on the track of the request. */
  function Reached(st: State, v: View): Option<Location> {
    if v.sub.Some? && v.sub.value.track in st.tracks then st.tracks[v.sub.value.track].largest else None
  }

  lemma UpdateSeen(st: State, id: u64, updateId: u64, options: Option<Options>)
    requires Good(st) && id in st.requests && Unused(st, updateId) && options.Some?
    ensures var v := ViewOf(st, id);
            ViewOf(Update(st, id, updateId, options), id) == OnUpdate(v, options.value, Reached(st, v))
  {
    hide Good, Sendable, Resolve, Asked, FinishRequest, Completed, Counted;
    GoodCounts(st, id);
    var v, o := ViewOf(st, id), options.value;
    if o.filter.Some? {
      AskedExactly(o.filter.value, Reached(st, v));
    }
    match Objection(v, o, Reached(st, v)) {
      case None =>
      case Some(reason) =>
        var st2 := Say(st.(consumed := st.consumed + {updateId}), id, Rejected(reason));
        assert Counted(ViewOf(st2, id)) by { StillCounted(st, st2, id); }
        FinishSeen(st2, id, RefusedEnd(reason));
    }
  }

  lemma StillCounted(st: State, r: State, id: u64)
    requires Counted(ViewOf(st, id)) && r.subs == st.subs && (id in r.flows <==> id in st.flows)
    requires id in st.flows ==> r.flows[id].streams == st.flows[id].streams
    ensures Counted(ViewOf(r, id))
  {
  }

  lemma UpdateElsewhere(st: State, other: u64, updateId: u64, options: Option<Options>, id: u64)
    requires Good(st) && other != id
    ensures ViewOf(Update(st, other, updateId, options), id) ==
            if Breaks(st, PeerUpdate(other, updateId, options)) then Cancelled(ViewOf(st, id)) else ViewOf(st, id)
  {
    hide Good, Shutdown, FinishRequest, UpdatedSub, Cancelled;
    GoodCounts(st, id);
    OpenWhileListed(st, other);
    var st1 := st.(consumed := st.consumed + {updateId});
    ShutdownSeen(st, id);
    ShutdownSeen(st1, id);
    if other in st.requests && Unused(st, updateId) && options.Some? && UpdatedSub(st1, other, options.value).Refused? {
      var reason := UpdatedSub(st1, other, options.value).reason;
      FinishElsewhere(Say(st1, other, Rejected(reason)), other, RefusedEnd(reason), id);
    }
  }

  lemma OpenWhileListed(st: State, id: u64)
    requires Good(st)
    ensures id in st.requests ==> st.ready
  {
  }

  // ----- every step -----

  /** What an event is for one request. */
  function Seen(st: State, e: Event, id: u64): View {
    var v := ViewOf(st, id);
    if Breaks(st, e) && !(e.PeerSubscribe? && e.id == id && Unused(st, id) && e.options.Some?) then
      if st.ready then Cancelled(v) else v
    else match e
      case PublishCall(o, _) =>
        if Accepts(o) && v.sub.Some? && v.sub.value.track == o.track then OnObject(v, o) else v
      case EndTrackCall(key, end, order) => if key in st.tracks then OnEnd(st, v, order, end, id) else v
      case UnregisterTrack(key, order) =>
        if key in st.tracks then OnEnd(st, v, order, Ending(TrackEnded, Text("track unregistered")), id) else v
      case PeerSubscribe(newId, key, options, sendOk) =>
        if st.ready && newId == id && options.Some? then OnSubscribe(st, id, key, options.value, sendOk) else v
      case PeerUpdate(subId, _, options) =>
        if subId == id && v.listed && options.Some? then OnUpdate(v, options.value, Reached(st, v)) else v
      case PeerCancel(subId) => if subId == id then Cancelled(v) else v
      case RegisterTrack(_, _) => v
      case Violation => v
  }

  /** Its track ends: it is completed, unless one before it could not be. */
  function OnEnd(st: State, v: View, order: seq<u64>, end: Ending, id: u64): View {
    if exists k :: 0 <= k < |order| && order[k] == id
                   && (forall j :: 0 <= j < k ==> CouldEnd(ViewOf(st, order[j]), end))
    then Completed(v, end) else v
  }

  lemma EndSeen(st: State, key: TrackKey, order: seq<u64>, end: Ending, id: u64)
    requires Good(st) && key in st.tracks && Enumerates(st, key, order)
    ensures ViewOf(EndAll(st, order, end), id) == OnEnd(st, ViewOf(st, id), order, end, id)
  {
    hide Good, EndAll, Completed, CouldEnd;
    if id in order {
      var k :| 0 <= k < |order| && order[k] == id;
      EndAllSeen(st, order, end, k);
      assert forall i :: 0 <= i < |order| && order[i] == id ==> i == k;
    } else {
      EndAllElsewhere(st, order, end, id);
    }
  }

  /** Every step of the publisher, for every request: it does what the event is for that request. */
  lemma StepSeen(st: State, e: Event, id: u64)
    requires Good(st) && Allowed(st, e)
    ensures ViewOf(Step(st, e), id) == Seen(st, e, id)
  {
    hide Good, Publish, EndAll, Subscribe, Update, CancelRequest, Shutdown, OnObject, OnEnd, OnSubscribe, OnUpdate,
         Cancelled, AnswerTo, Reserved;
    GoodCounts(st, id);
    match e
    case PublishCall(o, order) =>
      NoneWhenClosed(st, id);
      if st.ready {
        PublishSeen(st, o, order, id);
      }
    case EndTrackCall(key, end, order) =>
      if key in st.tracks {
        EndSeen(st, key, order, end, id);
      }
    case UnregisterTrack(key, order) =>
      if key in st.tracks {
        EndSeen(st, key, order, UNREGISTERED, id);
      }
    case PeerSubscribe(newId, key, options, sendOk) =>
      if st.ready {
        SubscribeStep(st, newId, key, options, sendOk, id);
      }
    case PeerUpdate(subId, updateId, options) => UpdateStep(st, subId, updateId, options, id);
    case PeerCancel(subId) =>
      if subId == id {
        CancelSeen(st, id);
      } else {
        CancelElsewhere(st, subId, id);
      }
    case Violation => ShutdownSeen(st, id);
    case RegisterTrack(_, _) =>
  }

  lemma NoneWhenClosed(st: State, id: u64)
    requires Good(st)
    ensures !st.ready ==> id !in st.subs && id !in st.requests
  {
  }

  lemma SubscribeStep(st: State, newId: u64, key: TrackKey, options: Option<Options>, sendOk: bool, id: u64)
    requires Good(st) && st.ready
    ensures ViewOf(Subscribe(st, newId, key, options, sendOk), id) ==
            Seen(st, PeerSubscribe(newId, key, options, sendOk), id)
  {
    hide Good, Shutdown, OnSubscribe, Cancelled, AnswerTo, Requested, Accept, Reject;
    GoodCounts(st, id);
    if newId != id {
      SubscribeElsewhere(st, newId, key, options, sendOk, id);
    } else if Unused(st, id) && options.Some? {
      SubscribeSeen(st, id, key, options, sendOk);
    } else {
      ShutdownSeen(st, id);
      ShutdownSeen(st.(consumed := st.consumed + {id}), id);
    }
  }

  lemma UpdateStep(st: State, subId: u64, updateId: u64, options: Option<Options>, id: u64)
    requires Good(st)
    ensures ViewOf(Update(st, subId, updateId, options), id) == Seen(st, PeerUpdate(subId, updateId, options), id)
  {
    hide Good, Shutdown, OnUpdate, Cancelled, UpdatedSub, FinishRequest;
    GoodCounts(st, id);
    OpenWhileListed(st, subId);
    if subId != id {
      UpdateElsewhere(st, subId, updateId, options, id);
    } else if id in st.requests {
      if Unused(st, updateId) && options.Some? {
        UpdateSeen(st, id, updateId, options);
      } else {
        ShutdownSeen(st, id);
        ShutdownSeen(st.(consumed := st.consumed + {updateId}), id);
      }
    }
  }
}

/**
 * The publisher: the session's table of requests, the send plane's tables of tracks and
 * subscriptions, and what every call and every peer message does to them. A step is one API call
 * or one transport event; the callbacks it triggers run inside it, as in the source.
 */
module Publishing {
  import opened Basics
  import opened SubgroupWire
  import opened SubgroupSend
  import opened SendStreams
  import ControlMessages
  import Parameters
  import Varint

  datatype FilterKind = NextGroupStart | LargestObject | AbsoluteStart | AbsoluteRange

  datatype Filter = Filter(kind: FilterKind, start: Location, endDelta: u64)

  datatype Options = Options(forward: Option<bool>, filter: Option<Filter>, subgroupTimeout: Option<u64>,
                             objectTimeout: Option<u64>)

  /** Where a subscription begins and, if it is bounded, its last group. */
  datatype Range = Range(start: Location, end: Option<u64>)

  /** The send plane's entry for a subscription. */
  datatype Sub = Sub(track: TrackKey, forward: bool, range: Range)

  datatype Track = Track(largest: Option<Location>, subs: set<u64>, properties: buffer)

  /** Why a request is refused; the middle four go out with the code for what does not exist. */
  datatype Reason =
    | NotSupported
    | Unregistered
    | NotEstablished
    | ReservedSpace
    | NotPublished
    | InvalidRange
    | ExcessiveLoad

  datatype DoneCode = TrackEnded | SubscriptionEnded | UpdateFailed | OtherCode(code: u64)

  /** How a subscription ends: the status code and the text of PUBLISH_DONE. */
  datatype Ending = Ending(code: DoneCode, reason: buffer)

  /** A message on the request stream of a subscription. */
  datatype Reply =
    | Accepted(alias: u64, largest: Option<Location>, properties: buffer)
    | Updated(largest: Option<Location>)
    | Rejected(reason: Reason)
    | PublishDone(end: Ending, count: nat)

  function Text(s: string): (b: bytes)
    ensures |b| == |s|
  {
    seq(|s|, i requires 0 <= i < |s| => s[i] as int % 256)
  }

  const RANGE_END := Ending(SubscriptionEnded, Text("end of subscription range"))
  const TRACK_END := Ending(TrackEnded, Text("end of track"))
  const UNREGISTERED := Ending(TrackEnded, Text("track unregistered"))

  function ReasonText(reason: Reason): (b: buffer)
    ensures |b| <= 100
  {
    match reason
    case NotSupported => Text("delivery timeouts are not supported")
    case Unregistered => Text("track is not registered")
    case NotEstablished => Text("subscription is not established")
    case ReservedSpace => Text("reserved track namespace")
    case NotPublished => Text("track is not published here")
    case InvalidRange => Text("requested range was already published")
    case ExcessiveLoad => Text("subscription limit reached")
  }

  function ReasonNumber(reason: Reason): u64 {
    match reason
    case NotSupported => 0x3
    case ExcessiveLoad => 0x9
    case InvalidRange => 0x11
    case _ => 0x10
  }

  function CodeNumber(code: DoneCode): u64 {
    match code
    case TrackEnded => 0x2
    case SubscriptionEnded => 0x3
    case UpdateFailed => 0x8
    case OtherCode(n) => n
  }

  function RefusedEnd(reason: Reason): Ending {
    Ending(UpdateFailed, ReasonText(reason))
  }

  /** LARGEST_OBJECT, if anything has been published. */
  function LargestParameters(largest: Option<Location>): Parameters.parameters {
    match largest
    case Some(at) => [Parameters.Parameter(0x09, Varint.Encode(at.group) + Varint.Encode(at.id))]
    case None => []
  }

  /** The control message of a reply. */
  function ControlOf(r: Reply): ControlMessages.Control {
    match r
    case Accepted(alias, largest, properties) =>
      ControlMessages.SubscribeOk(alias, LargestParameters(largest), properties)
    case Updated(largest) => ControlMessages.RequestOk(LargestParameters(largest), [])
    case Rejected(reason) => ControlMessages.RequestError(ReasonNumber(reason), 0, ReasonText(reason))
    case PublishDone(end, count) => ControlMessages.PublishDone(CodeNumber(end.code), Wrap(count), end.reason)
  }

  /** The encoder does not throw: the message fits its frame. */
  predicate Sendable(r: Reply) {
    ControlMessages.EncodeMessage(ControlOf(r)).Some?
  }

  /** All that the peer gets to see of a request, kept after the request is gone. */
  datatype Flow = Flow(streams: Streams, datagrams: seq<Published>, sent: seq<Published>, replies: seq<Reply>)

  datatype State = State(ready: bool, limit: nat, tracks: map<TrackKey, Track>, subs: map<u64, Sub>,
                         requests: set<u64>, consumed: set<u64>, nextAlias: u64, flows: map<u64, Flow>)

  const ALL := Range(Location(0, 0), None)

  function Initial(limit: nat): State {
    State(true, limit, map[], map[], {}, {}, 0, map[])
  }

  /** 64-bit wrap-around. */
  function Wrap(x: nat): u64 {
    x % 0x1_0000_0000_0000_0000
  }

  /** resolve_filter. */
  function Resolve(f: Filter, largest: Option<Location>): Range {
    match f.kind
    case LargestObject =>
      Range(if largest.Some? then Location(largest.value.group, Wrap(largest.value.id + 1)) else Location(0, 0), None)
    case NextGroupStart =>
      Range(if largest.Some? then Location(Wrap(largest.value.group + 1), 0) else Location(0, 0), None)
    case AbsoluteStart => Range(f.start, None)
    case AbsoluteRange => Range(f.start, Some(Wrap(f.start.group + f.endDelta)))
  }

  /** passes_filter. */
  predicate InRange(r: Range, at: Location) {
    !LocationLess(at, r.start) && (r.end.Some? ==> at.group <= r.end.value)
  }

  /** The whole range lies before what has been published. */
  predicate Past(r: Range, largest: Option<Location>) {
    r.end.Some? && largest.Some? && largest.value.group > r.end.value
  }

  predicate HasTimeout(o: Options) {
    (o.subgroupTimeout.Some? && o.subgroupTimeout.value != 0) || (o.objectTimeout.Some? && o.objectTimeout.value != 0)
  }

  /** A namespace that begins with the field "." is reserved. */
  predicate Reserved(key: TrackKey) {
    key.space != [] && key.space[0] == [46]
  }

  function LargestOf(st: State, key: TrackKey): Option<Location> {
    if key in st.tracks then st.tracks[key].largest else None
  }

  function AddReply(f: Flow, r: Reply): Flow {
    f.(replies := f.replies + [r])
  }

  /** The range and forward state that a SUBSCRIBE asks for, or why it is refused. */
  function Requested(st: State, key: TrackKey, o: Options): Result<Sub> {
    if HasTimeout(o) then Refused(NotSupported)
    else if key !in st.tracks then Refused(Unregistered)
    else
      var range := if o.filter.Some? then Resolve(o.filter.value, st.tracks[key].largest) else ALL;
      if Past(range, st.tracks[key].largest) then Refused(InvalidRange)
      else Granted(Sub(key, o.forward == None || o.forward.value, range))
  }

  datatype Result<T> = Granted(value: T) | Refused(reason: Reason)

  /** attach_subscription, once the request has been granted. */
  function Attach(st: State, id: u64, sub: Sub): State {
    if sub.track !in st.tracks then st else
    var t := st.tracks[sub.track];
    st.(tracks := st.tracks[sub.track := t.(subs := t.subs + {id})], subs := st.subs[id := sub])
  }

  /** update_subscription: the subscription after the update, or why it is refused. */
  function UpdatedSub(st: State, id: u64, o: Options): Result<Sub> {
    if id !in st.subs then Refused(NotEstablished)
    else if HasTimeout(o) then Refused(NotSupported)
    else
      var sub := st.subs[id];
      var largest := LargestOf(st, sub.track);
      var range := if o.filter.Some? then Resolve(o.filter.value, largest) else sub.range;
      if o.filter.Some? && Past(range, largest) then Refused(InvalidRange)
      else Granted(sub.(range := range, forward := if o.forward.Some? then o.forward.value else sub.forward))
  }

  /** detach_subscription: the streams end, and all three tables forget the subscription. */
  function Detach(st: State, id: u64, reset: bool): State {
    if id !in st.subs then st else
    var key := st.subs[id].track;
    var tracks := if key in st.tracks then st.tracks[key := Without(st.tracks[key], {id})] else st.tracks;
    var flows := if id in st.flows then
                   st.flows[id := st.flows[id].(streams := CloseAll(st.flows[id].streams, reset))]
                 else st.flows;
    st.(tracks := tracks, subs := st.subs - {id}, flows := flows)
  }

  function Without(t: Track, ids: set<u64>): Track {
    t.(subs := t.subs - ids)
  }

  function StreamCount(st: State, id: u64): nat {
    if id in st.subs && id in st.flows then st.flows[id].streams.count else 0
  }

  /** PUBLISH_DONE for the request can be encoded. */
  predicate Fits(st: State, id: u64, end: Ending) {
    id in st.requests ==> Sendable(PublishDone(end, StreamCount(st, id)))
  }

  /**
   * finish: closes the data streams, then says PUBLISH_DONE with their number. The encoder throws on
   * a reason that is too long; then the subscription is detached but the request stays in the table.
   */
  function FinishRequest(st: State, id: u64, end: Ending): State {
    if id !in st.requests then st else
    var done := PublishDone(end, StreamCount(st, id));
    var st1 := Detach(st, id, false);
    if !Sendable(done) then st1 else
    var flows := if id in st1.flows then st1.flows[id := AddReply(st1.flows[id], done)] else st1.flows;
    st1.(flows := flows, requests := st1.requests - {id})
  }

  /** cancel: the peer gave up, or the session closes; everything is reset. */
  function CancelRequest(st: State, id: u64): State {
    if id !in st.requests then st else
    var st1 := Detach(st, id, true);
    st1.(requests := st1.requests - {id})
  }

  /** begin_close: every request is cancelled and no further step does anything. */
  function Shutdown(st: State): State {
    if !st.ready then st else CancelAll(st).(ready := false)
  }

  /** terminate_subscriptions: the effect of cancelling every request, in whatever order. */
  function CancelAll(st: State): State {
    st.(tracks := map key | key in st.tracks :: Without(st.tracks[key], st.requests),
        subs := st.subs - st.requests,
        flows := map id | id in st.flows :: if id in st.requests && id in st.subs then
                                              st.flows[id].(streams := CloseAll(st.flows[id].streams, true))
                                            else st.flows[id],
        requests := {})
  }

  /** consume_peer_request_id accepts the server's odd IDs, each once. */
  predicate FreshPeerId(st: State, id: u64) {
    id % 2 == 1 && id !in st.consumed
  }

  /** accept_subscribe for a well-formed message; `options` is None if a parameter value is invalid. */
  function Subscribe(st: State, id: u64, key: TrackKey, options: Option<Options>, sendOk: bool): State {
    if !FreshPeerId(st, id) then Shutdown(st) else
    var st1 := st.(consumed := st.consumed + {id});
    if options.None? then Shutdown(st1)
    else if Reserved(key) then Reject(st1, id, ReservedSpace)
    else if |st1.requests| >= st1.limit then Reject(st1, id, ExcessiveLoad)
    else if key !in st1.tracks then Reject(st1, id, NotPublished)
    else
      var st2 := st1.(nextAlias := Wrap(st1.nextAlias + 1));
      match Requested(st2, key, options.value)
      case Refused(reason) => Reject(st2, id, reason)
      case Granted(sub) =>
        var ok := Accepted(st1.nextAlias, st2.tracks[key].largest, st2.tracks[key].properties);
        var st3 := Accept(st2, id, sub, st1.nextAlias);
        if sendOk && Sendable(ok) then Say(st3, id, ok) else Shutdown(st3)
  }

  /** The request enters the tables, before SUBSCRIBE_OK is said. */
  function Accept(st: State, id: u64, sub: Sub, alias: u64): State {
    var st1 := Attach(st, id, sub);
    st1.(requests := st1.requests + {id}, flows := st1.flows[id := Flow(NoStreams(alias), [], [], [])])
  }

  function Reject(st: State, id: u64, reason: Reason): State {
    st.(flows := st.flows[id := Flow(NoStreams(0), [], [], [Rejected(reason)])])
  }

  /** handle_request_update for a well-formed message. */
  function Update(st: State, id: u64, updateId: u64, options: Option<Options>): State {
    if id !in st.requests then st
    else if !FreshPeerId(st, updateId) then Shutdown(st) else
    var st1 := st.(consumed := st.consumed + {updateId});
    if options.None? then Shutdown(st1) else
    match UpdatedSub(st1, id, options.value)
    case Refused(reason) => FinishRequest(Say(st1, id, Rejected(reason)), id, RefusedEnd(reason))
    case Granted(sub) => Say(st1.(subs := st1.subs[id := sub]), id, Updated(LargestOf(st1, sub.track)))
  }

  function Say(st: State, id: u64, r: Reply): State {
    if id in st.flows then st.(flows := st.flows[id := AddReply(st.flows[id], r)]) else st
  }

  predicate Publishable(o: Published) {
    ValidPublish(o) && !o.kind.FetchStream?
  }

  /** publish: the object goes to the track's subscriptions, in the order of the copied set. */
  function Publish(st: State, o: Published, order: seq<u64>): State {
    if o.track !in st.tracks || !Publishable(o) then st
    else PublishAll(Advance(st, o), order, o)
  }

  /** The track's largest location grows to that of the object. */
  function Advance(st: State, o: Published): State
    requires o.track in st.tracks
  {
    var t := st.tracks[o.track];
    st.(tracks := st.tracks[o.track := t.(largest := Max(t.largest, Location(o.group, o.id)))])
  }

  function Max(largest: Option<Location>, at: Location): Option<Location> {
    if largest.None? || LocationLess(largest.value, at) then Some(at) else largest
  }

  function PublishAll(st: State, order: seq<u64>, o: Published): State
    decreases |order|
  {
    if order == [] then st else PublishAll(PublishTo(st, order[0], o), order[1..], o)
  }

  /** One turn of publish's loop; a completion detaches the subscription from inside it. */
  function PublishTo(st: State, id: u64, o: Published): State {
    if id !in st.subs then
      if o.track in st.tracks then st.(tracks := st.tracks[o.track := Without(st.tracks[o.track], {id})]) else st
    else
      var sub := st.subs[id];
      if Beyond(sub, o) then FinishRequest(st, id, RANGE_END) else
      var st1 := if Admits(sub, o) then Send(st, id, o) else st;
      if EndsTrack(o) then FinishRequest(st1, id, TRACK_END)
      else if EndsRange(sub, o) then FinishRequest(st1, id, RANGE_END)
      else st1
  }

  predicate Beyond(sub: Sub, o: Published) {
    sub.range.end.Some? && o.group > sub.range.end.value
  }

  predicate Admits(sub: Sub, o: Published) {
    sub.forward && InRange(sub.range, Location(o.group, o.id))
  }

  predicate EndsTrack(o: Published) {
    o.status == Some(STATUS_END_OF_TRACK)
  }

  predicate EndsRange(sub: Sub, o: Published) {
    sub.range.end == Some(o.group) && (o.endOfGroup || o.status == Some(STATUS_END_OF_GROUP))
  }

  function Send(st: State, id: u64, o: Published): State {
    if id in st.flows then st.(flows := st.flows[id := SendOn(st.flows[id], o)]) else st
  }

  function SendOn(f: Flow, o: Published): Flow {
    if o.kind.Datagram? then f.(datagrams := f.datagrams + [o], sent := f.sent + [o])
    else f.(streams := SendObject(f.streams, o), sent := f.sent + [o])
  }

  /** end_track: completes the track's subscriptions, in the order of the copied set, until one throws. */
  function EndAll(st: State, order: seq<u64>, end: Ending): State
    decreases |order|
  {
    if order == [] then st else
    var st1 := FinishRequest(st, order[0], end);
    if Fits(st, order[0], end) then EndAll(st1, order[1..], end) else st1
  }

  /** The loop of end_track gets to its end: no completion throws. */
  predicate Completes(st: State, order: seq<u64>, end: Ending)
    decreases |order|
  {
    order == [] || (Fits(st, order[0], end) && Completes(FinishRequest(st, order[0], end), order[1..], end))
  }

  function EndTrack(st: State, key: TrackKey, end: Ending, order: seq<u64>): State {
    if key !in st.tracks then st else EndAll(st, order, end)
  }

  datatype Event =
    | RegisterTrack(key: TrackKey, properties: buffer)
    | UnregisterTrack(key: TrackKey, order: seq<u64>)
    | EndTrackCall(key: TrackKey, end: Ending, order: seq<u64>)
    | PublishCall(obj: Published, order: seq<u64>)
    | PeerSubscribe(id: u64, key: TrackKey, options: Option<Options>, sendOk: bool)
    | PeerUpdate(id: u64, updateId: u64, options: Option<Options>)
    | PeerCancel(id: u64)
    | Violation

  /** The order lists each member of the track's set once, as an unordered_set iteration does. */
  ghost predicate Enumerates(st: State, key: TrackKey, order: seq<u64>) {
    key in st.tracks ==>
      && (forall id :: id in order <==> id in st.tracks[key].subs)
      && (forall i, j :: 0 <= i < j < |order| ==> order[i] != order[j])
  }

  ghost predicate Allowed(st: State, e: Event) {
    match e
    case UnregisterTrack(key, order) => Enumerates(st, key, order)
    case EndTrackCall(key, _, order) => Enumerates(st, key, order)
    case PublishCall(o, order) => Enumerates(st, o.track, order)
    case _ => true
  }

  function Step(st: State, e: Event): State {
    match e
    case RegisterTrack(key, properties) =>
      if Reserved(key) || key in st.tracks then st else st.(tracks := st.tracks[key := Track(None, {}, properties)])
    case UnregisterTrack(key, order) =>
      var st1 := EndTrack(st, key, UNREGISTERED, order);
      st1.(tracks := st1.tracks - {key})
    case EndTrackCall(key, end, order) => EndTrack(st, key, end, order)
    case PublishCall(o, order) => if st.ready then Publish(st, o, order) else st
    case PeerSubscribe(id, key, options, sendOk) => if st.ready then Subscribe(st, id, key, options, sendOk) else st
    case PeerUpdate(id, updateId, options) => Update(st, id, updateId, options)
    case PeerCancel(id) => CancelRequest(st, id)
    case Violation => Shutdown(st)
  }

  function Run(st: State, events: seq<Event>): State
    decreases |events|
  {
    if events == [] then st else Run(Step(st, events[0]), events[1..])
  }

  ghost predicate AllowedRun(st: State, events: seq<Event>)
    decreases |events|
  {
    events == [] || (Allowed(st, events[0]) && AllowedRun(Step(st, events[0]), events[1..]))
  }
}

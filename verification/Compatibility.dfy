/**
 * A publisher's request stream met by a subscriber's request: the two machines of modules Publishing
 * and Subscribing, joined by the updates that travel one way and the replies that travel the other.
 * Request IDs differ on the two sides, as a relay renumbers them.
 */
module Compatibility {
  import opened Basics
  import P = Publishing
  import PI = PublishingInvariants
  import Completions
  import FO = FanOut
  import SendStreams
  import S = Subscribing
  import SI = SubscribingInvariants
  import SS = SubscriberStreams
  import CM = ControlMessages
  import ControlFields
  import ControlFrames
  import Parameters
  import Varint

  /**
   * `inFlight` updates are on their way to the publisher; `delivered` replies have arrived, of which
   * `errors` were reported to the subscriber's handler as errors.
   */
  datatype Link = Link(pub: P.State, pid: u64, sub: S.State, sid: u64, inFlight: nat, delivered: nat, errors: nat)

  function Replies(st: P.State, id: u64): seq<P.Reply> {
    if id in st.flows then st.flows[id].replies else []
  }

  /** Answers to updates: everything behind the first reply except PUBLISH_DONE. */
  function Answers(rs: seq<P.Reply>): nat {
    if |rs| <= 1 then 0 else Answers(rs[..|rs| - 1]) + if rs[|rs| - 1].PublishDone? then 0 else 1
  }

  /** A PUBLISH_DONE for a reason of the program's own, or for the one the application gave. */
  predicate KnownEnd(r: P.Reply, given: Option<P.Ending>) {
    r.PublishDone? && (PI.Brief(r.end) || given == Some(r.end))
  }

  /** What a publisher step may add to the replies of a request that it has already answered. */
  predicate Extends(before: seq<P.Reply>, after: seq<P.Reply>, updated: bool, given: Option<P.Ending>) {
    || after == before
    || (|after| == |before| + 1 && after[..|before|] == before && KnownEnd(after[|before|], given))
    || (updated && |after| == |before| + 1 && after[..|before|] == before && after[|before|].Updated?)
    || (updated && |after| == |before| + 2 && after[..|before|] == before && after[|before|].Rejected?
        && KnownEnd(after[|before| + 1], given))
  }

  lemma ExtendsAnswers(before: seq<P.Reply>, after: seq<P.Reply>, updated: bool, given: Option<P.Ending>)
    requires Extends(before, after, updated, given) && before != []
    ensures Answers(after) <= Answers(before) + if updated then 1 else 0
    ensures before <= after
    ensures AllBrief(before) && (given.Some? ==> PI.Brief(given.value)) ==> AllBrief(after)
  {
    if |after| > |before| {
      var n := |after| - 1;
      if n > |before| {
        assert after[..n][..n - 1] == before;
      }
      assert forall i :: 0 <= i < |before| ==> after[i] == after[..|before|][i];
    }
  }

  /** Every reason is short enough for the decoder. */
  predicate AllBrief(rs: seq<P.Reply>) {
    forall i :: 0 <= i < |rs| ==> ReasonFits(rs[i])
  }

  predicate ReasonFits(r: P.Reply) {
    r.PublishDone? ==> PI.Brief(r.end)
  }

  // ----- the publisher's side -----

  /** A step that is none of the request's business adds PUBLISH_DONE at most. */
  predicate Quiet(st: P.State, r: P.State, id: u64, given: Option<P.Ending>) {
    id in st.flows ==>
      && id in r.flows && Extends(st.flows[id].replies, r.flows[id].replies, false, given)
      && (id !in st.requests ==> r.flows[id].replies == st.flows[id].replies)
  }

  lemma FinishQuiet(st: P.State, other: u64, end: P.Ending, id: u64)
    requires PI.Agreement(st) && id in st.flows
    ensures Quiet(st, P.FinishRequest(st, other, end), id, Some(end))
    ensures PI.Brief(end) ==> Quiet(st, P.FinishRequest(st, other, end), id, None)
    ensures id !in st.requests || other != id ==>
              P.FinishRequest(st, other, end).flows[id] == st.flows[id]
  {
    hide PI.Agreement, P.FinishRequest;
    PI.FinishAny(st, other, end);
  }

  lemma VisitQuiet(st: P.State, o: Published, id: u64)
    requires PI.MidPublish(st, o) && id in st.subs && P.Publishable(o)
    ensures Quiet(st, P.PublishTo(st, id, o), id, None)
  {
    hide PI.MidPublish, P.FinishRequest, P.Beyond, P.Admits, P.EndsTrack, P.EndsRange, P.Publishable;
    FO.MidFlows(st, o, id);
    PI.MidAgrees(st, o);
    PI.SendMid(st, id, o);
    var st1 := if P.Admits(st.subs[id], o) then P.Send(st, id, o) else st;
    PI.MidAgrees(st1, o);
    FinishQuiet(st, id, P.RANGE_END, id);
    FinishQuiet(st1, id, P.RANGE_END, id);
    FinishQuiet(st1, id, P.TRACK_END, id);
    assert st1.flows[id].replies == st.flows[id].replies;
  }

  lemma {:induction false} PublishAllQuiet(st: P.State, order: seq<u64>, o: Published, id: u64)
    requires PI.MidPublish(st, o) && P.Publishable(o) && id in st.flows
    requires forall i, j :: 0 <= i < j < |order| ==> order[i] != order[j]
    ensures Quiet(st, P.PublishAll(st, order, o), id, None)
    decreases |order|
  {
    hide PI.MidPublish, P.PublishTo, P.Publishable;
    if id !in order {
      FO.PassOthers(st, order, o, id);
    } else {
      PI.PublishToKeeps(st, order[0], o);
      var r := P.PublishTo(st, order[0], o);
      assert forall i, j :: 0 <= i < j < |order| - 1 ==> order[1..][i] != order[1..][j];
      VisitShrinks(st, order[0], o);
      if order[0] != id {
        FO.VisitOther(st, order[0], o, id);
        PublishAllQuiet(r, order[1..], o, id);
      } else {
        if id in st.subs {
          VisitQuiet(st, o, id);
        } else {
          AbsentQuiet(st, o, id);
        }
        FO.PassOthers(r, order[1..], o, id);
      }
    }
  }

  lemma VisitShrinks(st: P.State, id: u64, o: Published)
    requires PI.MidPublish(st, o) && P.Publishable(o)
    ensures P.PublishTo(st, id, o).requests <= st.requests
  {
    hide PI.MidPublish, P.FinishRequest, P.Beyond, P.Admits, P.EndsTrack, P.EndsRange, P.Publishable, P.SendOn;
    if id in st.subs {
      PI.SendMid(st, id, o);
      var st1 := if P.Admits(st.subs[id], o) then P.Send(st, id, o) else st;
      PI.MidAgrees(st, o);
      PI.MidAgrees(st1, o);
      PI.FinishAny(st, id, P.RANGE_END);
      PI.FinishAny(st1, id, P.RANGE_END);
      PI.FinishAny(st1, id, P.TRACK_END);
    }
  }

  lemma AbsentQuiet(st: P.State, o: Published, id: u64)
    requires id !in st.subs
    ensures P.PublishTo(st, id, o).flows == st.flows
  {
  }

  lemma {:induction false} EndAllQuiet(st: P.State, order: seq<u64>, end: P.Ending, id: u64)
    requires PI.Good(st) && id in st.flows
    requires forall i, j :: 0 <= i < j < |order| ==> order[i] != order[j]
    ensures Quiet(st, P.EndAll(st, order, end), id, Some(end))
    ensures id !in st.requests || id !in order ==> P.EndAll(st, order, end).flows[id] == st.flows[id]
    decreases |order|
  {
    hide PI.Good, P.FinishRequest, P.Fits;
    if order != [] {
      FO.GoodAgrees(st);
      var r := P.FinishRequest(st, order[0], end);
      FinishQuiet(st, order[0], end, id);
      PI.FinishAny(st, order[0], end);
      PI.FinishGood(st, order[0], end);
      assert order == [order[0]] + order[1..];
      assert forall i, j :: 0 <= i < j < |order| - 1 ==> order[1..][i] != order[1..][j];
      EndAllQuiet(r, order[1..], end, id);
    }
  }

  lemma ShutdownQuiet(st: P.State, id: u64)
    ensures Quiet(st, P.Shutdown(st), id, None)
    ensures id in st.flows ==> P.Shutdown(st).flows[id].replies == st.flows[id].replies
  {
    hide SendStreams.CloseAll;
  }

  /** The request's replies are as they were. */
  predicate SameReplies(st: P.State, r: P.State, id: u64) {
    id in st.flows ==> id in r.flows && r.flows[id].replies == st.flows[id].replies
  }

  lemma SubscribeQuiet(st: P.State, newId: u64, key: TrackKey, options: Option<P.Options>, sendOk: bool, id: u64)
    requires PI.Good(st) && id in st.flows
    ensures SameReplies(st, P.Subscribe(st, newId, key, options, sendOk), id)
  {
    hide PI.Good, P.Shutdown, P.Requested, P.Reserved, P.Wrap, P.Accept, P.Reject, P.Say, P.Sendable, Extends;
    ShutdownQuiet(st, id);
    if P.FreshPeerId(st, newId) {
      PI.NotYetSeen(st, newId);
      var st1 := st.(consumed := st.consumed + {newId});
      var st2 := st1.(nextAlias := P.Wrap(st1.nextAlias + 1));
      ShutdownQuiet(st1, id);
      NewRequestQuiet(st1, newId, id);
      NewRequestQuiet(st2, newId, id);
      if options.Some? && P.Requested(st2, key, options.value).Granted? {
        ShutdownQuiet(P.Accept(st2, newId, P.Requested(st2, key, options.value).value, st1.nextAlias), id);
      }
    }
  }

  lemma NewRequestQuiet(st: P.State, newId: u64, id: u64)
    requires newId != id && id in st.flows
    ensures forall reason :: SameReplies(st, P.Reject(st, newId, reason), id)
    ensures forall sub, alias :: SameReplies(st, P.Accept(st, newId, sub, alias), id)
    ensures forall sub, alias, ok :: SameReplies(st, P.Say(P.Accept(st, newId, sub, alias), newId, ok), id)
  {
  }

  lemma UpdateExtends(st: P.State, subId: u64, updateId: u64, options: Option<P.Options>, id: u64)
    requires PI.Good(st) && id in st.flows
    ensures var r := P.Update(st, subId, updateId, options);
            && id in r.flows && Extends(st.flows[id].replies, r.flows[id].replies, subId == id, None)
            && (id !in st.requests ==> r.flows[id].replies == st.flows[id].replies)
  {
    hide P.Shutdown, P.UpdatedSub, P.FinishRequest, PI.FlowsSound, PI.Agreement, PI.LiveRanges;
    ShutdownQuiet(st, id);
    var st1 := st.(consumed := st.consumed + {updateId});
    ShutdownQuiet(st1, id);
    if subId in st.requests && options.Some? && P.UpdatedSub(st1, subId, options.value).Refused? {
      PI.ConsumeKeeps(st, updateId, st.nextAlias);
      RefusalExtends(st1, subId, P.UpdatedSub(st1, subId, options.value).reason, id);
    }
  }

  lemma RefusalExtends(st: P.State, subId: u64, reason: P.Reason, id: u64)
    requires PI.Agreement(st) && subId in st.requests && id in st.flows
    ensures var r := P.FinishRequest(P.Say(st, subId, P.Rejected(reason)), subId, P.RefusedEnd(reason));
            && id in r.flows && Extends(st.flows[id].replies, r.flows[id].replies, subId == id, None)
            && (id != subId ==> r.flows[id] == st.flows[id])
  {
    hide P.FinishRequest, PI.Agreement, P.Fits, SendStreams.CloseAll, P.StreamCount, Extends;
    var st2 := P.Say(st, subId, P.Rejected(reason));
    PI.FlowsOnly(st, st2.flows);
    PI.OwnEndsFit(st2, subId);
    PI.FinishEffect(st2, subId, P.RefusedEnd(reason));
    if id == subId {
      RefusalAndDone(st.flows[id].replies, reason, P.StreamCount(st2, subId));
    } else {
      Unextended(st.flows[id].replies);
    }
  }

  lemma RefusalAndDone(before: seq<P.Reply>, reason: P.Reason, count: nat)
    ensures Extends(before, before + [P.Rejected(reason)] + [P.PublishDone(P.RefusedEnd(reason), count)], true, None)
  {
  }

  lemma Unextended(replies: seq<P.Reply>)
    ensures Extends(replies, replies, false, None)
  {
  }

  lemma CancelQuiet(st: P.State, subId: u64, id: u64)
    ensures Quiet(st, P.CancelRequest(st, subId), id, None)
  {
    hide SendStreams.CloseAll;
  }

  /** The reason that the application gives with the event. */
  function Given(e: P.Event): Option<P.Ending> {
    if e.EndTrackCall? then Some(e.end) else None
  }

  /** The only steps that answer anything are the request's own updates; a gone request says nothing more. */
  lemma StepExtends(st: P.State, e: P.Event, id: u64)
    requires PI.Good(st) && P.Allowed(st, e) && id in st.flows
    ensures var r := P.Step(st, e);
            && id in r.flows
            && Extends(st.flows[id].replies, r.flows[id].replies, e.PeerUpdate? && e.id == id, Given(e))
            && (id !in st.requests ==> r.flows[id].replies == st.flows[id].replies)
  {
    hide PI.Good, P.PublishAll, P.EndAll, P.Subscribe, P.Update, P.CancelRequest, P.Shutdown, P.Reserved, P.Publishable;
    match e
    case PublishCall(o, order) =>
      if o.track in st.tracks && P.Publishable(o) {
        AdvanceMid(st, o);
        PublishAllQuiet(P.Advance(st, o), order, o, id);
      }
    case UnregisterTrack(key, order) =>
      if key in st.tracks {
        EndAllQuiet(st, order, P.UNREGISTERED, id);
      }
    case EndTrackCall(key, end, order) =>
      if key in st.tracks {
        EndAllQuiet(st, order, end, id);
      }
    case PeerSubscribe(newId, key, options, sendOk) => SubscribeQuiet(st, newId, key, options, sendOk, id);
    case PeerUpdate(subId, updateId, options) => UpdateExtends(st, subId, updateId, options, id);
    case PeerCancel(subId) => CancelQuiet(st, subId, id);
    case Violation => ShutdownQuiet(st, id);
    case RegisterTrack(_, _) =>
  }

  lemma AdvanceMid(st: P.State, o: Published)
    requires PI.Good(st) && o.track in st.tracks
    ensures PI.MidPublish(P.Advance(st, o), o)
  {
    hide PI.FlowsSound;
    PI.AdvanceKeeps(st, o);
  }

  // ----- the two sides together -----

  datatype Move =
    | PublisherMoves(event: P.Event)
    | SubscriberUpdates
    | ReplyArrives(alias: u64, tag: nat)

  /** What a reply is meant to be to the subscriber; the relay chooses the alias on its side. */
  function AsMessage(r: P.Reply, alias: u64, tag: nat): S.Message {
    match r
    case Accepted(_, _, _) => S.SubscribeOk(alias, [], [], [])
    case Updated(_) => S.RequestOk(tag, false, [])
    case Rejected(_) => S.RequestError(tag, [])
    case PublishDone(_, _) => S.PublishDone([])
  }

  /** The reply as the relay passes it on: under its own alias. */
  function Relayed(r: P.Reply, alias: u64): CM.Control {
    if r.Accepted? then P.ControlOf(r.(alias := alias)) else P.ControlOf(r)
  }

  /** The relay can frame the reply. */
  predicate Forwardable(r: P.Reply, alias: u64) {
    CM.EncodeMessage(Relayed(r, alias)).Some?
  }

  /** What the subscriber makes of the bytes of a reply: frame, payload, meaning. */
  function Heard(r: P.Reply, alias: u64, tag: nat): S.Message
    requires Forwardable(r, alias)
  {
    match ControlFrames.Read(CM.EncodeMessage(Relayed(r, alias)).value)
    case Done(m, _) => SS.MessageOf(m, tag, SS.QUIET)
    case _ => S.Undecodable([])
  }

  lemma LargestIsWellFormed(largest: Option<Location>)
    ensures Parameters.AllWellFormed(P.LargestParameters(largest))
  {
    hide Varint.Encode, ControlFields.WellFormed;
    if largest.Some? {
      ControlFields.ConstructorsWellFormed(0, largest.value.group, largest.value.id, [], []);
    }
  }

  lemma RelayedIsReceivable(r: P.Reply, alias: u64)
    ensures CM.Receivable(Relayed(r, alias)) <==> ReasonFits(r)
  {
    hide Parameters.AllWellFormed, Varint.Encode;
    match r
    case Accepted(_, largest, _) => LargestIsWellFormed(largest);
    case Updated(largest) => LargestIsWellFormed(largest);
    case _ =>
  }

  /**
   * The subscriber hears what was meant if and only if the reason of a PUBLISH_DONE is within the
   * decoder's 1024 bytes; beyond that it hears a malformed message.
   */
  lemma HeardExactly(r: P.Reply, alias: u64, tag: nat)
    requires Forwardable(r, alias)
    ensures Heard(r, alias, tag) == if ReasonFits(r) then AsMessage(r, alias, tag) else S.Undecodable([])
  {
    hide CM.EncodeMessage, ControlFrames.Read, CM.Decode, CM.Receivable, CM.Payload, Parameters.Sort;
    var c := Relayed(r, alias);
    var b := CM.EncodeMessage(c).value;
    assert b + [] == b;
    FramedReply(c);
    RelayedIsReceivable(r, alias);
    if !ReasonFits(r) {
      LongReasonIsRejected(c);
    } else {
      CM.PayloadRoundTrip(c);
    }
  }

  /** The input: end_track with a reason of 1025 bytes is sent, and heard as a malformed message. */
  lemma LongReasonIsHeardAsError(reason: buffer, tag: nat)
    requires |reason| == 1025
    ensures var r := P.PublishDone(P.Ending(P.TrackEnded, reason), 0);
            P.Sendable(r) && Forwardable(r, 0) && Heard(r, 0, tag) == S.Undecodable([])
  {
    hide Heard, Varint.Encode, CM.EncodeMessage;
    var r := P.PublishDone(P.Ending(P.TrackEnded, reason), 0);
    Completions.PublishDoneFits(r.end, 0);
    HeardExactly(r, 0, tag);
  }

  lemma FramedReply(c: CM.Control)
    requires CM.EncodeMessage(c).Some?
    ensures CM.Payload(c).Some?
    ensures ControlFrames.Read(CM.EncodeMessage(c).value) ==
            Done(ControlFrames.Message(CM.KindOf(c), CM.Payload(c).value), [])
  {
    hide ControlFrames.Read, CM.Payload;
    var m := ControlFrames.Message(CM.KindOf(c), CM.Payload(c).value);
    ControlFrames.FrameRoundTrip(m, []);
    assert ControlFrames.Encode(m).value + [] == ControlFrames.Encode(m).value;
  }

  lemma LongReasonIsRejected(c: CM.Control)
    requires c.PublishDone? && |c.reason| > ControlFields.MAX_REASON
    ensures CM.Decode(ControlFrames.Message(CM.KindOf(c), CM.Payload(c).value)) == None
  {
    hide Varint.Encode, Varint.Take, ControlFields.TakeString, ControlFields.EncodeString;
    Varint.TakeEncoded(c.status, Varint.Encode(c.count) + ControlFields.EncodeString(c.reason));
    Varint.TakeEncoded(c.count, ControlFields.EncodeString(c.reason));
    assert ControlFields.EncodeString(c.reason) + [] == ControlFields.EncodeString(c.reason);
    ControlFields.StringRoundTrip(c.reason, ControlFields.MAX_REASON, []);
  }

  /** handle_control_message reports an error to the handler, or closes the session. */
  predicate ReportsError(st: S.State, id: u64, m: S.Message) {
    id in st.requests &&
    var r := st.requests[id];
    match m
    case SubscribeOk(alias, _, _, _) => !r.phase.Pending? || alias in st.routes
    case RequestError(_, _) => !r.phase.Pending? && r.updates == []
    case RequestOk(_, properties, _) => r.phase.Pending? || r.updates == [] || properties
    case PublishDone(_) => r.phase.Pending?
    case GoAway(_) => r.phase.Pending?
    case Undecodable(_) => true
    case Unknown(_) => true
  }

  /** The publisher gets only updates that were sent to it; it is cancelled by its subscriber only. */
  ghost predicate Possible(l: Link, m: Move) {
    match m
    case PublisherMoves(e) => P.Allowed(l.pub, e) && (e.PeerUpdate? && e.id == l.pid ==> l.inFlight > 0)
    case SubscriberUpdates => true
    case ReplyArrives(alias, _) =>
      var rs := Replies(l.pub, l.pid);
      l.delivered < |rs| && alias !in l.sub.routes && Forwardable(rs[l.delivered], alias)
  }

  function Next(l: Link, m: Move): Link {
    match m
    case PublisherMoves(e) =>
      var taken := if e.PeerUpdate? && e.id == l.pid && l.inFlight > 0 then 1 else 0;
      l.(pub := P.Step(l.pub, e), inFlight := l.inFlight - taken)
    case SubscriberUpdates =>
      var sub := S.RequestUpdate(l.sub, l.sid, true);
      l.(sub := sub, inFlight := if sub != l.sub then l.inFlight + 1 else l.inFlight)
    case ReplyArrives(alias, tag) =>
      var rs := Replies(l.pub, l.pid);
      if l.delivered < |rs| && Forwardable(rs[l.delivered], alias) then
        var heard := Heard(rs[l.delivered], alias, tag);
        l.(sub := S.Handle(l.sub, l.sid, heard), delivered := l.delivered + 1,
           errors := l.errors + if ReportsError(l.sub, l.sid, heard) then 1 else 0)
      else l
  }

  /** The subscriber's request after the first `d` replies. */
  predicate Follows(sub: S.State, sid: u64, rs: seq<P.Reply>, d: nat)
    requires d <= |rs|
  {
    && sid in sub.history
    && var oks := |sub.history[sid].oks|;
       if d == 0 then sid in sub.requests && sub.requests[sid].phase.Pending? && oks == 0
       else if rs[0].Rejected? || rs[d - 1].PublishDone? then sid !in sub.requests
       else if rs[d - 1].Rejected? then sid in sub.requests && sub.requests[sid].phase.UpdateFailed? && oks == d - 2
       else sid in sub.requests && sub.requests[sid].phase.Established? && oks == d - 1
  }

  predicate Joined(l: Link) {
    var rs := Replies(l.pub, l.pid);
    && PI.Good(l.pub) && SI.Good(l.sub) && l.delivered <= |rs|
    && Follows(l.sub, l.sid, rs, l.delivered)
    && Answers(rs) + l.inFlight <= |l.sub.history[l.sid].sent|
    && (l.errors == 0 <==> AllBrief(rs[..l.delivered]))
  }

  /** A request that was just sent, and the publisher that is about to see it. */
  predicate Begun(l: Link) {
    && PI.Good(l.pub) && SI.Good(l.sub) && l.pid !in l.pub.flows && l.inFlight == 0 && l.delivered == 0 && l.errors == 0
    && l.sid in l.sub.requests && l.sub.requests[l.sid].phase.Pending?
  }

  lemma BegunJoined(l: Link)
    requires Begun(l)
    ensures Joined(l)
  {
    hide PI.Good;
    assert SI.RequestOkay(l.sub, l.sid) && SI.HistoryOkay(l.sub, l.sid);
  }

  lemma PublisherKeepsJoined(l: Link, e: P.Event)
    requires Joined(l) && Possible(l, PublisherMoves(e))
    ensures Joined(Next(l, PublisherMoves(e)))
  {
    hide PI.Good, SI.Good, P.Step, P.Allowed;
    var l' := Next(l, PublisherMoves(e));
    var rs, rs' := Replies(l.pub, l.pid), Replies(l'.pub, l.pid);
    PI.StepKeeps(l.pub, e);
    if l.pid !in l.pub.flows {
      FirstReply(l.pub, e, l.pid);
      assert rs'[..0] == rs[..0];
    } else if rs == [] {
      StepExtends(l.pub, e, l.pid);
      SilentIsGone(l.pub, l.pid);
    } else {
      StepExtends(l.pub, e, l.pid);
      ExtendsAnswers(rs, rs', e.PeerUpdate? && e.id == l.pid, Given(e));
      assert l.delivered > 0 ==> rs'[0] == rs[0] && rs'[l.delivered - 1] == rs[l.delivered - 1];
      assert rs'[..l.delivered] == rs[..l.delivered];
    }
  }

  /** A request that was never answered is gone. */
  lemma SilentIsGone(st: P.State, id: u64)
    requires PI.Good(st) && id in st.flows && st.flows[id].replies == []
    ensures id !in st.requests
  {
    hide PI.Agreement, PI.Accounted, PI.LiveRanges;
    assert PI.FlowSound(st.flows[id], PI.StageOf(st, id));
  }

  lemma VisitKeys(st: P.State, id: u64, o: Published)
    requires PI.MidPublish(st, o) && P.Publishable(o)
    ensures P.PublishTo(st, id, o).flows.Keys == st.flows.Keys
  {
    hide PI.MidPublish, P.FinishRequest, P.Beyond, P.Admits, P.EndsTrack, P.EndsRange, P.Publishable, P.SendOn;
    if id in st.subs {
      PI.SendMid(st, id, o);
      var st1 := if P.Admits(st.subs[id], o) then P.Send(st, id, o) else st;
      FinishKeys(st, id, P.RANGE_END, o);
      FinishKeys(st1, id, P.RANGE_END, o);
      FinishKeys(st1, id, P.TRACK_END, o);
    }
  }

  lemma FinishKeys(st: P.State, id: u64, end: P.Ending, o: Published)
    requires PI.MidPublish(st, o)
    ensures P.FinishRequest(st, id, end).flows.Keys == st.flows.Keys
  {
    hide PI.MidPublish;
    PI.MidAgrees(st, o);
    PI.FinishAny(st, id, end);
  }

  lemma {:induction false} PublishAllKeys(st: P.State, order: seq<u64>, o: Published)
    requires PI.MidPublish(st, o) && P.Publishable(o)
    ensures P.PublishAll(st, order, o).flows.Keys == st.flows.Keys
    decreases |order|
  {
    hide PI.MidPublish, P.PublishTo, P.Publishable;
    if order != [] {
      VisitKeys(st, order[0], o);
      PI.PublishToKeeps(st, order[0], o);
      PublishAllKeys(P.PublishTo(st, order[0], o), order[1..], o);
    }
  }

  lemma {:induction false} EndAllKeys(st: P.State, order: seq<u64>, end: P.Ending)
    requires PI.Good(st)
    ensures P.EndAll(st, order, end).flows.Keys == st.flows.Keys
    decreases |order|
  {
    hide PI.Good, P.FinishRequest, P.Fits;
    if order != [] {
      FO.GoodAgrees(st);
      PI.FinishAny(st, order[0], end);
      PI.FinishGood(st, order[0], end);
      EndAllKeys(P.FinishRequest(st, order[0], end), order[1..], end);
    }
  }

  lemma UpdateKeys(st: P.State, subId: u64, updateId: u64, options: Option<P.Options>)
    requires PI.Good(st)
    ensures P.Update(st, subId, updateId, options).flows.Keys == st.flows.Keys
  {
    hide P.UpdatedSub, P.FinishRequest, PI.FlowsSound, PI.Agreement, PI.LiveRanges, SendStreams.CloseAll;
    var st1 := st.(consumed := st.consumed + {updateId});
    if subId in st.requests && options.Some? && P.UpdatedSub(st1, subId, options.value).Refused? {
      var st2 := P.Say(st1, subId, P.Rejected(P.UpdatedSub(st1, subId, options.value).reason));
      PI.ConsumeKeeps(st, updateId, st.nextAlias);
      PI.FlowsOnly(st1, st2.flows);
      PI.FinishAny(st2, subId, P.RefusedEnd(P.UpdatedSub(st1, subId, options.value).reason));
    }
  }

  lemma SubscribeOnce(st: P.State, newId: u64, key: TrackKey, options: Option<P.Options>, sendOk: bool, id: u64)
    requires id !in st.flows
    ensures |Replies(P.Subscribe(st, newId, key, options, sendOk), id)| <= 1
  {
    hide P.Requested, P.Reserved, P.Wrap, P.Attach, P.Sendable, SendStreams.CloseAll, SendStreams.NoStreams;
    AttachFlows(st, newId);
  }

  lemma AttachFlows(st: P.State, id: u64)
    ensures forall st1: P.State, sub :: P.Attach(st1, id, sub).flows == st1.flows
  {
  }

  /** A request enters with a single reply. */
  lemma FirstReply(st: P.State, e: P.Event, id: u64)
    requires PI.Good(st) && P.Allowed(st, e) && id !in st.flows
    ensures |Replies(P.Step(st, e), id)| <= 1
  {
    hide PI.Good, P.PublishAll, P.EndAll, P.Subscribe, P.Update, P.Reserved, P.Publishable, SendStreams.CloseAll;
    match e
    case PublishCall(o, order) =>
      if o.track in st.tracks && P.Publishable(o) {
        AdvanceMid(st, o);
        PublishAllKeys(P.Advance(st, o), order, o);
      }
    case UnregisterTrack(key, order) => EndAllKeys(st, order, P.UNREGISTERED);
    case EndTrackCall(key, end, order) => EndAllKeys(st, order, end);
    case PeerSubscribe(newId, key, options, sendOk) => SubscribeOnce(st, newId, key, options, sendOk, id);
    case PeerUpdate(subId, updateId, options) => UpdateKeys(st, subId, updateId, options);
    case _ =>
  }

  lemma SubscriberKeepsJoined(l: Link)
    requires Joined(l)
    ensures Joined(Next(l, SubscriberUpdates))
  {
    hide PI.Good, Answers, SI.Sound;
    SI.UpdateSound(l.sub, l.sid, true, None);
  }

  /** A reply of a live or ended request, by its place among the replies. */
  lemma ReplyForm(st: P.State, id: u64, d: nat)
    requires PI.Good(st) && id in st.flows && d < |st.flows[id].replies|
    ensures var rs := st.flows[id].replies;
            && (d == 0 ==> rs[0].Accepted? || rs[0].Rejected?)
            && (d > 0 ==> rs[0].Accepted? && !rs[d].Accepted? && !rs[d - 1].PublishDone?)
            && (d > 1 && rs[d - 1].Rejected? ==> rs[d].PublishDone?)
            && (d > 0 && !rs[d].PublishDone? ==> Answers(rs) >= d)
  {
    hide PI.Agreement, PI.Accounted, PI.LiveRanges, SendStreams.Sound, SendStreams.Carried, SendStreams.NoneLive;
    var f := st.flows[id];
    assert PI.FlowSound(f, PI.StageOf(st, id));
    ReplyGrammar(f.replies, if PI.DoneReplies(f.replies, 0) then 0 else |f.streams.wire|, d);
  }

  lemma ReplyGrammar(rs: seq<P.Reply>, count: nat, d: nat)
    requires PI.LiveReplies(rs) || PI.DoneReplies(rs, count) || (|rs| == 1 && rs[0].Rejected?)
    requires d < |rs|
    ensures d == 0 ==> rs[0].Accepted? || rs[0].Rejected?
    ensures d > 0 ==> rs[0].Accepted? && !rs[d].Accepted? && !rs[d - 1].PublishDone?
    ensures d > 1 && rs[d - 1].Rejected? ==> rs[d].PublishDone?
    ensures d > 0 && !rs[d].PublishDone? ==> Answers(rs) >= d
  {
    if PI.LiveReplies(rs) {
      LiveAnswers(rs);
    } else if PI.DoneReplies(rs, count) {
      var n := |rs| - 1;
      if PI.LiveReplies(rs[..n]) {
        LiveAnswers(rs[..n]);
      } else {
        assert rs[..n][..n - 1] == rs[..n - 1];
        LiveAnswers(rs[..n - 1]);
      }
    }
  }

  lemma {:induction false} LiveAnswers(rs: seq<P.Reply>)
    requires PI.LiveReplies(rs)
    ensures Answers(rs) == |rs| - 1
  {
    if |rs| > 1 {
      LiveAnswers(rs[..|rs| - 1]);
    }
  }

  // What the subscriber makes of each reply that fits.

  lemma AcceptedFits(st: S.State, id: u64, alias: u64)
    requires SI.Good(st) && id in st.requests && st.requests[id].phase.Pending? && id in st.history
            && alias !in st.routes
    ensures var r := S.Handle(st, id, S.SubscribeOk(alias, [], [], []));
            id in r.requests && r.requests[id].phase.Established? && r.history == st.history
  {
    hide SI.Good;
  }

  lemma RefusalFits(st: S.State, id: u64, tag: nat)
    requires SI.Good(st) && id in st.requests && st.requests[id].phase.Pending? && id in st.history
    ensures var r := S.Handle(st, id, S.RequestError(tag, [])); id !in r.requests && r.history == st.history
  {
    hide SI.Sound, S.Terminate;
    var held := S.Fail(st, id, S.Rejected(tag)).(requests := st.requests[id := st.requests[id].(resultHeld := false)]);
    SI.TerminateEffect(held, id);
  }

  lemma AnswerFits(st: S.State, id: u64, tag: nat)
    requires SI.Good(st) && id in st.requests && st.requests[id].phase.Established? && id in st.history
    requires |st.history[id].oks| < |st.history[id].sent|
    ensures st.requests[id].updates != []
    ensures var r := S.Handle(st, id, S.RequestOk(tag, false, []));
            && id in r.requests && r.requests[id].phase.Established? && id in r.history
            && r.history[id] == st.history[id].(oks := st.history[id].oks + [tag])
    ensures var r := S.Handle(st, id, S.RequestError(tag, []));
            && id in r.requests && r.requests[id].phase.UpdateFailed? && id in r.history
            && r.history[id] == st.history[id].(error := Some(tag))
  {
    hide SI.Routes, SI.Kept, SI.RequestOkay, S.FailAll;
    assert SI.HistoryOkay(st, id);
    SI.FailAllEffect(st, st.requests[id].updates, S.Rejected(tag));
  }

  lemma DoneFits(st: S.State, id: u64)
    requires SI.Good(st) && id in st.requests && !st.requests[id].phase.Pending? && id in st.history
    ensures var r := S.Handle(st, id, S.PublishDone([])); id !in r.requests && r.history == st.history
  {
    hide SI.Sound, S.Terminate;
    SI.TerminateEffect(st, id);
  }

  /** What the subscriber makes of the next reply, if it hears what was meant. */
  lemma ReplyFits(l: Link, alias: u64, tag: nat)
    requires Joined(l) && Possible(l, ReplyArrives(alias, tag))
    ensures var m := AsMessage(Replies(l.pub, l.pid)[l.delivered], alias, tag); var sub := S.Handle(l.sub, l.sid, m);
            && Follows(sub, l.sid, Replies(l.pub, l.pid), l.delivered + 1)
            && sub.history[l.sid].sent == l.sub.history[l.sid].sent
            && !ReportsError(l.sub, l.sid, m)
  {
    hide PI.Good, Answers, SI.Good, S.Handle, AllBrief, Forwardable;
    var rs, d := Replies(l.pub, l.pid), l.delivered;
    ReplyForm(l.pub, l.pid, d);
    match rs[d]
    case Accepted(_, _, _) => AcceptedFits(l.sub, l.sid, alias);
    case Rejected(_) =>
      if d == 0 {
        RefusalFits(l.sub, l.sid, tag);
      } else {
        AnswerFits(l.sub, l.sid, tag);
      }
    case Updated(_) => AnswerFits(l.sub, l.sid, tag);
    case PublishDone(_, _) => DoneFits(l.sub, l.sid);
  }

  /** A PUBLISH_DONE that cannot be decoded ends the request as well, but as an error. */
  lemma MalformedEnds(st: S.State, id: u64)
    requires SI.Good(st) && id in st.requests && !st.requests[id].phase.Pending? && id in st.history
    ensures S.Handle(st, id, S.Undecodable([])) == S.Handle(st, id, S.PublishDone([]))
  {
    hide SI.Good, S.Terminate;
  }

  /** The next reply as it is heard: the same to the tables, and an error exactly if its reason is too long. */
  lemma HeardFits(l: Link, alias: u64, tag: nat)
    requires Joined(l) && Possible(l, ReplyArrives(alias, tag))
    ensures var rs := Replies(l.pub, l.pid); var heard := Heard(rs[l.delivered], alias, tag);
            && S.Handle(l.sub, l.sid, heard) == S.Handle(l.sub, l.sid, AsMessage(rs[l.delivered], alias, tag))
            && (ReportsError(l.sub, l.sid, heard) <==> !ReasonFits(rs[l.delivered]))
  {
    hide PI.Good, Answers, SI.Good, S.Handle, AllBrief, Forwardable, Heard;
    var rs, d := Replies(l.pub, l.pid), l.delivered;
    HeardExactly(rs[d], alias, tag);
    ReplyFits(l, alias, tag);
    if !ReasonFits(rs[d]) {
      ReplyForm(l.pub, l.pid, d);
      MalformedEnds(l.sub, l.sid);
    }
  }

  lemma ReplyKeepsJoined(l: Link, alias: u64, tag: nat)
    requires Joined(l) && Possible(l, ReplyArrives(alias, tag))
    ensures Joined(Next(l, ReplyArrives(alias, tag)))
  {
    hide PI.Good, Answers, SI.Good, S.Handle, Follows, Heard, Forwardable, ReportsError, ReasonFits;
    var rs, d := Replies(l.pub, l.pid), l.delivered;
    ReplyFits(l, alias, tag);
    HeardFits(l, alias, tag);
    var m := AsMessage(rs[d], alias, tag);
    FitsAllowed(l.sub, l.sid, m);
    SI.HandleGood(l.sub, l.sid, m);
    OneMoreBrief(rs, d);
  }

  lemma OneMoreBrief(rs: seq<P.Reply>, d: nat)
    requires d < |rs|
    ensures AllBrief(rs[..d + 1]) <==> AllBrief(rs[..d]) && ReasonFits(rs[d])
  {
    hide ReasonFits;
    assert rs[..d + 1] == rs[..d] + [rs[d]];
    assert forall i :: 0 <= i < d ==> rs[..d + 1][i] == rs[..d][i];
    assert rs[..d + 1][d] == rs[d];
  }

  lemma FitsAllowed(st: S.State, id: u64, m: S.Message)
    requires S.CallsOf(m) == [] && (m.SubscribeOk? ==> m.alias !in st.routes)
    ensures S.Allowed(st, S.Received(id, m))
  {
    hide S.CallsAt;
  }

  // ----- whole conversations -----

  function Talk(l: Link, moves: seq<Move>): Link
    decreases |moves|
  {
    if moves == [] then l else Talk(Next(l, moves[0]), moves[1..])
  }

  ghost predicate PossibleTalk(l: Link, moves: seq<Move>)
    decreases |moves|
  {
    moves == [] || (Possible(l, moves[0]) && PossibleTalk(Next(l, moves[0]), moves[1..]))
  }

  lemma NextKeepsJoined(l: Link, m: Move)
    requires Joined(l) && Possible(l, m)
    ensures Joined(Next(l, m))
  {
    hide Joined, Next, Possible;
    match m
    case PublisherMoves(e) => PublisherKeepsJoined(l, e);
    case SubscriberUpdates => SubscriberKeepsJoined(l);
    case ReplyArrives(alias, tag) => ReplyKeepsJoined(l, alias, tag);
  }

  lemma {:induction false} TalkKeepsJoined(l: Link, moves: seq<Move>)
    requires Joined(l) && PossibleTalk(l, moves)
    ensures Joined(Talk(l, moves))
    decreases |moves|
  {
    hide Joined, Next, Possible;
    if moves != [] {
      NextKeepsJoined(l, moves[0]);
      TalkKeepsJoined(Next(l, moves[0]), moves[1..]);
    }
  }

  /** The first `d` replies told the subscriber that the request is over. */
  predicate ToldOver(rs: seq<P.Reply>, d: nat)
    requires d <= |rs|
  {
    d > 0 && (rs[0].Rejected? || rs[d - 1].PublishDone?)
  }

  /** The k-th answer has settled the k-th update. */
  predicate InOrder(st: S.State, h: S.History) {
    && |h.oks| <= |h.sent|
    && forall k :: 0 <= k < |h.oks| ==> h.sent[k] in st.settled && st.settled[h.sent[k]] == S.Answered(h.oks[k])
  }

  predicate EverySentSettled(st: S.State, h: S.History) {
    forall k :: 0 <= k < |h.sent| ==> h.sent[k] in st.settled
  }

  /**
   * Compatibility, down to the bytes: however a publisher and a subscriber interleave, the
   * subscriber's request is live until a reply tells it that the request is over. No reply makes the
   * subscriber end it, or report anything, for an error if and only if the reasons that arrived are
   * within the 1024 bytes the decoder takes. Until a refusal arrives, the k-th answer has settled the
   * k-th update; once the request is over every update ever sent on it is settled.
   */
  lemma PublisherAndSubscriberAgree(l: Link, moves: seq<Move>)
    requires Begun(l) && PossibleTalk(l, moves)
    ensures var t := Talk(l, moves); var rs := Replies(t.pub, t.pid);
            && t.delivered <= |rs| && t.sid in t.sub.history
            && (t.sid in t.sub.requests <==> !ToldOver(rs, t.delivered))
            && (t.errors == 0 <==> AllBrief(rs[..t.delivered]))
            && InOrder(t.sub, t.sub.history[t.sid])
            && (t.sid !in t.sub.requests ==> EverySentSettled(t.sub, t.sub.history[t.sid]))
  {
    hide Talk, PI.Good, SI.Routes, SI.Promised, Answers, AllBrief;
    BegunJoined(l);
    TalkKeepsJoined(l, moves);
    var t := Talk(l, moves);
    assert SI.HistoryOkay(t.sub, t.sid);
    if t.delivered > 0 {
      ReplyForm(t.pub, t.pid, t.delivered - 1);
    }
  }

  /** The application ends tracks for short reasons only. */
  predicate ShortReasons(moves: seq<Move>) {
    forall i :: 0 <= i < |moves| ==>
                  (moves[i].PublisherMoves? && moves[i].event.EndTrackCall? ==> PI.Brief(moves[i].event.end))
  }

  lemma NextKeepsBrief(l: Link, m: Move)
    requires Joined(l) && Possible(l, m) && AllBrief(Replies(l.pub, l.pid))
    requires m.PublisherMoves? && m.event.EndTrackCall? ==> PI.Brief(m.event.end)
    ensures AllBrief(Replies(Next(l, m).pub, l.pid))
  {
    hide PI.Good, SI.Good, P.Step, P.Allowed, S.Handle, S.RequestUpdate, Heard, Answers, Follows, Forwardable;
    if m.PublisherMoves? {
      var rs, rs' := Replies(l.pub, l.pid), Replies(P.Step(l.pub, m.event), l.pid);
      if l.pid !in l.pub.flows {
        FirstReply(l.pub, m.event, l.pid);
        PI.StepKeeps(l.pub, m.event);
        if rs' != [] {
          ReplyForm(P.Step(l.pub, m.event), l.pid, 0);
        }
      } else if rs == [] {
        StepExtends(l.pub, m.event, l.pid);
        SilentIsGone(l.pub, l.pid);
      } else {
        StepExtends(l.pub, m.event, l.pid);
        ExtendsAnswers(rs, rs', m.event.PeerUpdate? && m.event.id == l.pid, Given(m.event));
      }
    }
  }

  lemma {:induction false} TalkKeepsBrief(l: Link, moves: seq<Move>)
    requires Joined(l) && PossibleTalk(l, moves) && AllBrief(Replies(l.pub, l.pid)) && ShortReasons(moves)
    ensures var t := Talk(l, moves); t.pid == l.pid && AllBrief(Replies(t.pub, t.pid))
    decreases |moves|
  {
    hide Joined, Possible, AllBrief, Replies, P.Step, S.Handle, S.RequestUpdate, Heard, Forwardable;
    if moves != [] {
      NextKeepsJoined(l, moves[0]);
      NextKeepsBrief(l, moves[0]);
      assert ShortReasons(moves[1..]);
      TalkKeepsBrief(Next(l, moves[0]), moves[1..]);
    }
  }

  /** An application that ends its tracks for reasons of at most 1024 bytes never causes an error. */
  lemma ShortReasonsNeverFail(l: Link, moves: seq<Move>)
    requires Begun(l) && PossibleTalk(l, moves) && ShortReasons(moves)
    ensures Talk(l, moves).errors == 0
  {
    hide Talk, PI.Good, SI.Good, ReasonFits, PossibleTalk, ShortReasons;
    BegunJoined(l);
    TalkKeepsBrief(l, moves);
    PublisherAndSubscriberAgree(l, moves);
    var t := Talk(l, moves);
    var rs := Replies(t.pub, t.pid);
    assert forall i :: 0 <= i < t.delivered ==> rs[..t.delivered][i] == rs[i];
  }
}

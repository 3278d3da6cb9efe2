/**
 * The publisher in the form of the source: the session's table of requests and the send plane's
 * tables, updated in place by loops over copies of the sets they change.
 */
module PublisherObject {
  import opened Basics
  import opened SubgroupWire
  import opened SubgroupSend
  import opened SendStreams
  import opened Publishing
  import opened PublishingInvariants
  import opened SubgroupWriter
  import Datagrams

  predicate StreamsSound(flows: map<u64, Flow>) {
    forall id :: id in flows ==> Sound(flows[id].streams)
  }

  lemma GoodStreams(st: State)
    requires FlowsSound(st)
    ensures StreamsSound(st.flows)
  {
    hide Sound, Carried, LiveReplies, DoneReplies, NoneLive;
  }

  /** The loop of detach_subscription over the open streams ends every stream that is live. */
  method CloseStreams(s: Streams, reset: bool) returns (r: Streams)
    requires Sound(s)
    ensures r == CloseAll(s, reset)
  {
    hide Faithful;
    var left := s.open.Keys;
    var wire := s.wire;
    while left != {}
      invariant left <= s.open.Keys && |wire| == |s.wire|
      invariant forall i :: 0 <= i < |wire| ==>
                  wire[i] == if s.wire[i].state == Live && (s.wire[i].group, s.wire[i].subgroup) in left then s.wire[i]
                             else Ended(s.wire[i], reset)
      decreases |left|
    {
      var key :| key in left;
      var index := s.open[key].index;
      assert Entry(s, key);
      wire := wire[index := Ended(wire[index], reset)];
      left := left - {key};
    }
    r := s.(open := map[], wire := wire);
  }

  class Publisher {
    const limit: nat
    var ready: bool
    var tracks: map<TrackKey, Track>
    var subs: map<u64, Sub>
    var requests: set<u64>
    var consumed: set<u64>
    var nextAlias: u64
    var flows: map<u64, Flow>

    ghost function View(): State
      reads this
    {
      State(ready, limit, tracks, subs, requests, consumed, nextAlias, flows)
    }

    ghost predicate Valid()
      reads this
    {
      Good(View())
    }

    constructor (limit: nat)
      ensures View() == Initial(limit) && Valid()
    {
      this.limit := limit;
      ready, tracks, subs, requests, consumed, nextAlias, flows := true, map[], map[], {}, {}, 0, map[];
    }

    /** detach_subscription: the number of streams ever opened. */
    method DetachSubscription(id: u64, reset: bool) returns (count: nat)
      requires StreamsSound(flows)
      modifies this
      ensures View() == Detach(old(View()), id, reset) && count == StreamCount(old(View()), id)
      ensures StreamsSound(flows)
    {
      hide Sound, CloseAll;
      if id !in subs {
        return 0;
      }
      count := if id in flows then flows[id].streams.count else 0;
      if id in flows {
        CloseAllSound(flows[id].streams, reset);
        var closed := CloseStreams(flows[id].streams, reset);
        flows := flows[id := flows[id].(streams := closed)];
      }
      var key := subs[id].track;
      if key in tracks {
        tracks := tracks[key := Without(tracks[key], {id})];
      }
      subs := subs - {id};
    }

    /** finish; false if the encoder of PUBLISH_DONE throws, with the request left in the table. */
    method Finish(id: u64, end: Ending) returns (finished: bool)
      requires StreamsSound(flows)
      modifies this
      ensures View() == FinishRequest(old(View()), id, end) && StreamsSound(flows)
      ensures finished == Fits(old(View()), id, end)
    {
      hide Sound, Detach, StreamCount, Sendable;
      if id !in requests {
        return true;
      }
      var count := DetachSubscription(id, false);
      if !Sendable(PublishDone(end, count)) {
        return false;
      }
      if id in flows {
        flows := flows[id := AddReply(flows[id], PublishDone(end, count))];
      }
      requests := requests - {id};
      return true;
    }

    /** cancel. */
    method Cancel(id: u64)
      requires StreamsSound(flows)
      modifies this
      ensures View() == CancelRequest(old(View()), id) && StreamsSound(flows)
    {
      hide Sound, Detach, StreamCount;
      if id !in requests {
        return;
      }
      var _ := DetachSubscription(id, true);
      requests := requests - {id};
    }

    /** publish. */
    method PublishObject(o: Published, order: seq<u64>)
      requires Valid() && Enumerates(View(), o.track, order)
      modifies this
      ensures Valid() && View() == Step(old(View()), PublishCall(o, order))
    {
      hide Good, FlowsSound, PublishTo, Sound, Publishable, Enumerates;
      StepKeeps(View(), PublishCall(o, order));
      if !ready || o.track !in tracks || !Publishable(o) {
        return;
      }
      assert StreamsSound(flows) by { GoodFlows(View()); }
      var t := tracks[o.track];
      tracks := tracks[o.track := t.(largest := Max(t.largest, Location(o.group, o.id)))];
      ghost var first := View();
      var i := 0;
      assert order[0..] == order;
      while i < |order|
        invariant 0 <= i <= |order| && StreamsSound(flows)
        invariant PublishAll(View(), order[i..], o) == PublishAll(first, order, o)
      {
        assert order[i..][0] == order[i] && order[i..][1..] == order[i + 1..];
        Visit(order[i], o);
        i := i + 1;
      }
      assert order[|order|..] == [];
    }

    /** One turn of publish's loop. */
    method Visit(id: u64, o: Published)
      requires StreamsSound(flows) && Publishable(o)
      modifies this
      ensures View() == PublishTo(old(View()), id, o) && StreamsSound(flows)
    {
      hide Sound, FinishRequest, Send, Publishable;
      if id !in subs {
        if o.track in tracks {
          tracks := tracks[o.track := Without(tracks[o.track], {id})];
        }
        return;
      }
      var sub := subs[id];
      if Beyond(sub, o) {
        var _ := Finish(id, RANGE_END);
        return;
      }
      if Admits(sub, o) {
        var _ := SendTo(id, o);
      }
      if EndsTrack(o) {
        var _ := Finish(id, TRACK_END);
      } else if EndsRange(sub, o) {
        var _ := Finish(id, RANGE_END);
      }
    }

    /** send_on_subgroup_stream or send_datagram_object, with the datagram that goes to the transport. */
    method SendTo(id: u64, o: Published) returns (datagram: Option<bytes>)
      requires StreamsSound(flows) && Publishable(o)
      modifies this`flows
      ensures View() == Send(old(View()), id, o) && StreamsSound(flows)
      ensures datagram == if id in old(flows) && o.kind.Datagram?
                          then Some(Datagrams.Sent(old(flows)[id].streams.alias, o)) else None
    {
      hide Sound, SendObject, Datagrams.Sent;
      datagram := None;
      if id !in flows {
        return;
      }
      var f := flows[id];
      if o.kind.Datagram? {
        var packet := WriteDatagram(f.streams.alias, o);
        datagram := Some(packet);
        f := f.(datagrams := f.datagrams + [o], sent := f.sent + [o]);
      } else {
        SendObjectSound(f.streams, o);
        var streams := SendOnSubgroupStream(f.streams, o);
        f := f.(streams := streams, sent := f.sent + [o]);
      }
      flows := flows[id := f];
    }

    /** end_track; false if a completion throws, which ends the loop. */
    method EndTrack(key: TrackKey, end: Ending, order: seq<u64>) returns (completed: bool)
      requires Valid() && Enumerates(View(), key, order)
      modifies this
      ensures Valid() && View() == Step(old(View()), EndTrackCall(key, end, order))
      ensures completed <==> (key in old(tracks) ==> Completes(old(View()), order, end))
    {
      hide Good, FlowsSound, FinishRequest, Enumerates, Fits;
      StepKeeps(View(), EndTrackCall(key, end, order));
      if key !in tracks {
        return true;
      }
      assert StreamsSound(flows) by { GoodFlows(View()); }
      var i := 0;
      assert order[0..] == order;
      while i < |order|
        invariant 0 <= i <= |order| && StreamsSound(flows)
        invariant EndAll(View(), order[i..], end) == EndAll(old(View()), order, end)
        invariant Completes(View(), order[i..], end) == Completes(old(View()), order, end)
      {
        assert order[i..][0] == order[i] && order[i..][1..] == order[i + 1..];
        var finished := Finish(order[i], end);
        if !finished {
          return false;
        }
        i := i + 1;
      }
      assert order[|order|..] == [];
      return true;
    }

    /** unregister_track. */
    method Unregister(key: TrackKey, order: seq<u64>)
      requires Valid() && Enumerates(View(), key, order)
      modifies this
      ensures Valid() && View() == Step(old(View()), UnregisterTrack(key, order))
    {
      hide Good, Enumerates, EndAll;
      StepKeeps(View(), UnregisterTrack(key, order));
      var _ := EndTrack(key, UNREGISTERED, order);
      tracks := tracks - {key};
    }

    /** register_track: whether the track is new. */
    method Register(key: TrackKey, properties: buffer) returns (added: bool)
      requires Valid()
      modifies this
      ensures Valid() && View() == Step(old(View()), RegisterTrack(key, properties))
      ensures added <==> !Reserved(key) && key !in old(tracks)
    {
      hide Good;
      StepKeeps(View(), RegisterTrack(key, properties));
      if Reserved(key) || key in tracks {
        return false;
      }
      tracks := tracks[key := Track(None, {}, properties)];
      return true;
    }

    /** begin_close: the loop of terminate_subscriptions cancels each request of a copy of the table, in any order. */
    method Close()
      requires Agreement(View()) && StreamsSound(flows)
      modifies this
      ensures View() == Shutdown(old(View()))
    {
      hide Agreement, CancelRequest, CancelSome;
      if !ready {
        return;
      }
      var left := requests;
      NoneCancelled(View());
      while left != {}
        invariant left <= old(requests) && StreamsSound(flows)
        invariant View() == CancelSome(old(View()), old(requests) - left)
        decreases |left|
      {
        var id :| id in left;
        ghost var cancelled := old(requests) - left;
        CancelOneMore(old(View()), cancelled, id);
        Cancel(id);
        assert old(requests) - (left - {id}) == cancelled + {id};
        left := left - {id};
      }
      assert old(requests) - {} == old(requests);
      AllCancelled(old(View()));
      ready := false;
    }

    /** consume_peer_request_id. */
    method ConsumePeerRequestId(id: u64) returns (isNew: bool)
      modifies this`consumed
      ensures isNew == FreshPeerId(old(View()), id)
      ensures View() == if isNew then old(View()).(consumed := old(consumed) + {id}) else old(View())
    {
      if id % 2 == 0 || id in consumed {
        return false;
      }
      consumed := consumed + {id};
      return true;
    }

    /** accept_subscribe. */
    method AcceptSubscribe(id: u64, key: TrackKey, options: Option<Options>, sendOk: bool)
      requires Valid() && ready
      modifies this
      ensures Valid() && View() == Step(old(View()), PeerSubscribe(id, key, options, sendOk))
    {
      hide Good, Agreement, Shutdown, Requested, FreshPeerId, Reserved, Accept, Sendable;
      StepKeeps(View(), PeerSubscribe(id, key, options, sendOk));
      assert Agreement(View()) && StreamsSound(flows) by { GoodFlows(View()); }
      var isNew := ConsumePeerRequestId(id);
      NewIsNotLive(old(View()), id);
      assert Agreement(View()) by { SameAgreement(old(View()), View()); }
      if !isNew || options.None? {
        Close();
        return;
      }
      if Reserved(key) {
        RejectRequest(id, ReservedSpace);
      } else if |requests| >= limit {
        RejectRequest(id, ExcessiveLoad);
      } else if key !in tracks {
        RejectRequest(id, NotPublished);
      } else {
        Attach(id, key, options.value, sendOk);
      }
    }

    method RejectRequest(id: u64, reason: Reason)
      modifies this`flows
      ensures View() == Reject(old(View()), id, reason)
    {
      flows := flows[id := Flow(NoStreams(0), [], [], [Rejected(reason)])];
    }

    /** The end of accept_subscribe: attach_subscription, then SUBSCRIBE_OK, which may not fit or not be sent. */
    method Attach(id: u64, key: TrackKey, options: Options, sendOk: bool)
      requires Agreement(View()) && StreamsSound(flows) && key in tracks && id !in requests && id !in subs
      modifies this
      ensures var st2 := old(View()).(nextAlias := Wrap(old(nextAlias) + 1));
              View() == match Requested(st2, key, options)
                        case Refused(reason) => Reject(st2, id, reason)
                        case Granted(sub) =>
                          var ok := Accepted(old(nextAlias), st2.tracks[key].largest, st2.tracks[key].properties);
                          var st3 := Accept(st2, id, sub, old(nextAlias));
                          if sendOk && Sendable(ok) then Say(st3, id, ok) else Shutdown(st3)
    {
      hide Agreement, Shutdown, Requested, Sendable;
      var alias := nextAlias;
      nextAlias := Wrap(nextAlias + 1);
      ghost var st2 := View();
      var asked := Requested(State(ready, limit, tracks, subs, requests, consumed, nextAlias, flows), key, options);
      if asked.Refused? {
        RejectRequest(id, asked.reason);
        return;
      }
      var sub := asked.value;
      assert sub.track == key by { RequestedTrack(st2, key, options); }
      var t := tracks[key];
      tracks := tracks[key := t.(subs := t.subs + {id})];
      subs := subs[id := sub];
      requests := requests + {id};
      flows := flows[id := Flow(NoStreams(alias), [], [], [])];
      assert View() == Accept(st2, id, sub, alias);
      assert StreamsSound(flows) by { FreshSound(old(flows), id, alias); }
      var ok := Accepted(alias, t.largest, t.properties);
      if sendOk && Sendable(ok) {
        Reply(id, ok);
      } else {
        assert Agreement(View()) by { AcceptAgrees(old(View()), st2, id, sub, alias); }
        Close();
      }
    }

    /** handle_request_update, for a decoded message. */
    method HandleRequestUpdate(id: u64, updateId: u64, options: Option<Options>)
      requires Valid()
      modifies this
      ensures Valid() && View() == Step(old(View()), PeerUpdate(id, updateId, options))
    {
      hide Good, Agreement, Shutdown, FinishRequest, FreshPeerId, UpdatedSub;
      StepKeeps(View(), PeerUpdate(id, updateId, options));
      if id !in requests {
        return;
      }
      assert Agreement(View()) && StreamsSound(flows) by { GoodFlows(View()); }
      var isNew := ConsumePeerRequestId(updateId);
      assert Agreement(View()) by { SameAgreement(old(View()), View()); }
      if !isNew || options.None? {
        Close();
        return;
      }
      var updated := UpdatedSub(State(ready, limit, tracks, subs, requests, consumed, nextAlias, flows), id,
          options.value);
      match updated
      case Refused(reason) =>
        Reply(id, Rejected(reason));
        var _ := Finish(id, RefusedEnd(reason));
      case Granted(sub) =>
        var largest := if sub.track in tracks then tracks[sub.track].largest else None;
        subs := subs[id := sub];
        Reply(id, Updated(largest));
    }

    method Reply(id: u64, r: Reply)
      requires StreamsSound(flows)
      modifies this`flows
      ensures View() == Say(old(View()), id, r) && StreamsSound(flows)
    {
      hide Sound;
      if id in flows {
        flows := flows[id := AddReply(flows[id], r)];
      }
    }
  }

  lemma GoodFlows(st: State)
    requires Good(st)
    ensures Agreement(st) && StreamsSound(st.flows)
  {
    GoodStreams(st);
  }

  lemma NewIsNotLive(st: State, id: u64)
    requires Good(st)
    ensures FreshPeerId(st, id) ==> id !in st.requests && id !in st.subs
  {
    hide FlowsSound, LiveRanges;
  }

  lemma RequestedTrack(st: State, key: TrackKey, o: Options)
    ensures Requested(st, key, o).Granted? ==> Requested(st, key, o).value.track == key
  {
  }

  lemma AcceptAgrees(st: State, st2: State, id: u64, sub: Sub, alias: u64)
    requires Agreement(st) && st2 == st.(nextAlias := st2.nextAlias) && sub.track in st.tracks
            && id !in st.requests && id !in st.subs
    ensures Agreement(Accept(st2, id, sub, alias))
  {
  }

  lemma FreshSound(flows: map<u64, Flow>, id: u64, alias: u64)
    requires StreamsSound(flows)
    ensures StreamsSound(flows[id := Flow(NoStreams(alias), [], [], [])])
  {
    assert Sound(NoStreams(alias));
  }

  /** The effect of cancelling some of the requests. */
  function CancelSome(st: State, ids: set<u64>): State {
    st.(tracks := map key | key in st.tracks :: Without(st.tracks[key], ids),
        subs := st.subs - ids,
        flows := map id | id in st.flows :: if id in ids && id in st.subs then
                                              st.flows[id].(streams := CloseAll(st.flows[id].streams, true))
                                            else st.flows[id],
        requests := st.requests - ids)
  }

  lemma NoneCancelled(st: State)
    ensures CancelSome(st, st.requests - st.requests) == st
  {
    var r := CancelSome(st, {});
    forall key | key in st.tracks ensures r.tracks[key] == st.tracks[key] {
      assert st.tracks[key].subs - {} == st.tracks[key].subs;
    }
    assert r.tracks == st.tracks && r.flows == st.flows && r.subs == st.subs;
    assert st.requests - st.requests == {};
  }

  lemma AllCancelled(st: State)
    ensures CancelSome(st, st.requests) == CancelAll(st)
  {
    assert st.requests - st.requests == {};
  }

  /** Cancelling one request after some others is cancelling one more. */
  lemma CancelOneMore(st: State, ids: set<u64>, id: u64)
    requires Agreement(st) && id in st.requests && id !in ids
    ensures CancelRequest(CancelSome(st, ids), id) == CancelSome(st, ids + {id})
  {
    hide CloseAll, Agreement, CancelRequest, CancelSome;
    CancelledTracks(st, ids, id);
    CancelledRest(st, ids, id);
  }

  lemma CancelledRest(st: State, ids: set<u64>, id: u64)
    requires id in st.requests && id !in ids
    ensures var a, b := CancelRequest(CancelSome(st, ids), id), CancelSome(st, ids + {id});
            a == b.(tracks := a.tracks)
  {
    hide CloseAll;
    var a, b := CancelRequest(CancelSome(st, ids), id), CancelSome(st, ids + {id});
    assert a.requests == b.requests && a.subs == b.subs;
    assert a.flows == b.flows;
  }

  lemma CancelledTracks(st: State, ids: set<u64>, id: u64)
    requires Agreement(st) && id in st.requests && id !in ids
    ensures CancelRequest(CancelSome(st, ids), id).tracks == CancelSome(st, ids + {id}).tracks
  {
    hide CloseAll;
    var some := CancelSome(st, ids);
    var a, b := CancelRequest(some, id).tracks, CancelSome(st, ids + {id}).tracks;
    forall key | key in st.tracks ensures a[key] == b[key] {
      assert st.tracks[key].subs - ids - {id} == st.tracks[key].subs - (ids + {id});
      if id !in st.subs || key != st.subs[id].track {
        assert id !in st.tracks[key].subs;
        assert st.tracks[key].subs - ids == st.tracks[key].subs - (ids + {id});
      }
    }
  }
}

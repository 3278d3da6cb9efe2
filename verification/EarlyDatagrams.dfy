/**
 * Datagrams that come before their route, and how the plane differs, callbacks included, from what it
 * would be had the route been there first: not at all, if and only if the request is not stopped
 * before the last of them is taken in. While its route is being installed a request that has been
 * stopped is still given all that was held for it; once it is established it is given nothing.
 */
module EarlyDatagrams {
  import opened Basics
  import opened DataPlanes
  import opened DataPlaneInvariants
  import opened DataPlaneTheorems
  import opened Settling
  import Delivery
  import Datagrams
  import Varint

  /** on_datagram for each of the datagrams. */
  function OnDatagrams(x: Context, p: Plane, ds: seq<bytes>): Plane
    decreases |ds|
  {
    if ds == [] then p else OnDatagrams(x, DeliverDatagram(x, p, ds[0], true), ds[1..])
  }

  /** An object datagram for the alias. */
  predicate IsFor(d: bytes, alias: u64) {
    && Varint.Take(d).Done? && Varint.Take(d).value != Datagrams.PADDING_TYPE
    && Datagrams.ParseHead(d).Done? && Datagrams.ParseHead(d).value.alias == alias
  }

  predicate AllFor(ds: seq<bytes>, alias: u64) {
    forall i :: 0 <= i < |ds| ==> IsFor(ds[i], alias)
  }

  /** There is room to hold them all, in bytes and in number. */
  predicate RoomFor(x: Context, p: Plane, ds: seq<bytes>, alias: u64) {
    && x.config.policy.Buffer? && p.heldBytes + Size(ds) <= x.config.maxDatagramBytes
    && |Held(p, alias)| + |ds| <= x.config.maxDatagramsPerAlias
  }

  /** The alias has its route whenever one of the datagrams arrives. */
  predicate RoutedFor(x: Context, p: Plane, ds: seq<bytes>, alias: u64)
    decreases |ds|
  {
    ds == [] || (alias in p.routes && RoutedFor(x, DeliverDatagram(x, p, ds[0], true), ds[1..], alias))
  }

  function Counting(p: Plane, bytes: nat): Plane {
    p.(heldBytes := bytes)
  }

  lemma StopCounting(p: Plane, request: u64, n: nat)
    ensures Stop(Counting(p, n), request) == Counting(Stop(p, request), n)
  {
    hide Retire;
    if request in p.owned {
      RetireCounting(p, p.owned[request], n);
    }
  }

  lemma RetireCounting(p: Plane, alias: u64, n: nat)
    ensures Retire(Counting(p, n), alias) == Counting(Retire(p, alias), n)
  {
    hide SwitchOff;
  }

  lemma {:induction false} StopAllCounting(p: Plane, requests: seq<u64>, n: nat)
    ensures StopAll(Counting(p, n), requests) == Counting(StopAll(p, requests), n)
    decreases |requests|
  {
    hide Stop, Counting;
    if requests != [] {
      StopCounting(p, requests[0], n);
      StopAllCounting(Stop(p, requests[0]), requests[1..], n);
    }
  }

  lemma EmitCounting(x: Context, p: Plane, c: Callback, n: nat)
    ensures Emit(x, Counting(p, n), c) == Counting(Emit(x, p, c), n)
  {
    hide StopAll, Stop, Others, SwitchAllOff;
    var p1 := p.(log := p.log + [c]);
    assert Counting(p, n).(log := p.log + [c]) == Counting(p1, n);
    if c.TrackError? {
      StopCounting(p1, c.request, n);
    }
    StopAllCounting(React(p1, c), x.stops(|p.log|), n);
  }

  lemma DeliverCounting(x: Context, p: Plane, o: Object, n: nat)
    ensures DataPlanes.Deliver(x, Counting(p, n), o) == Counting(DataPlanes.Deliver(x, p, o), n)
  {
    hide Emit;
    if o.request in p.states {
      EmitCounting(x, p, TrackError(o.request), n);
      EmitCounting(x, p.(states := p.states[o.request := Delivery.Delivered(p.states[o.request], o)]),
          HandedOver(o), n);
    }
  }

  /** A datagram that is not held does not look at the byte counter. */
  lemma DatagramCounting(x: Context, p: Plane, d: bytes, n: nat)
    ensures DeliverDatagram(x, Counting(p, n), d, false) == Counting(DeliverDatagram(x, p, d, false), n)
  {
    hide Emit, DataPlanes.Deliver, Datagrams.ParseHead, Datagrams.ParseBody, Varint.Take;
    EmitCounting(x, p, ProtocolError, n);
    var head := Datagrams.ParseHead(d);
    if head.Done? && head.value.alias in p.routes {
      var h := head.value;
      var body := Datagrams.ParseBody(h, head.rest, p.routes[h.alias]);
      if body.Done? {
        DeliverCounting(x, p, body.value, n);
        DeliverCounting(x, Mark(p, body.value.request, h.group, h.id), body.value, n);
      }
    }
  }

  lemma HeldNow(x: Context, p: Plane, d: bytes, alias: u64)
    requires alias !in p.routes && IsFor(d, alias) && RoomFor(x, p, [d], alias)
    ensures DeliverDatagram(x, p, d, true) ==
            p.(datagrams := p.datagrams[alias := Held(p, alias) + [d]], heldBytes := p.heldBytes + |d|)
  {
    hide Emit, DeliverBody, Datagrams.ParseHead, Datagrams.ParseBody, Varint.Take;
    SizeOfOne(d);
  }

  lemma SizeOfOne(d: bytes)
    ensures Size([d]) == |d|
  {
    assert [d][1..] == [] && Size([]) == 0;
  }

  lemma SizeFirst(ds: seq<bytes>)
    requires ds != []
    ensures Size(ds) == |ds[0]| + Size(ds[1..]) && Size([ds[0]]) == |ds[0]|
  {
    SizeOfOne(ds[0]);
  }

  lemma HeldJoin(m: map<u64, seq<bytes>>, alias: u64, list: seq<bytes>, ds: seq<bytes>)
    requires ds != []
    ensures m[alias := list + [ds[0]]][alias := list + [ds[0]] + ds[1..]] == m[alias := list + ds]
  {
    assert list + [ds[0]] + ds[1..] == list + ds;
  }

  /** Without a route they are all held, in order. */
  lemma {:induction false} AllHeld(x: Context, p: Plane, ds: seq<bytes>, alias: u64)
    requires ds != [] && alias !in p.routes && AllFor(ds, alias) && RoomFor(x, p, ds, alias)
    ensures OnDatagrams(x, p, ds) ==
            p.(datagrams := p.datagrams[alias := Held(p, alias) + ds], heldBytes := p.heldBytes + Size(ds))
    decreases |ds|
  {
    hide DeliverDatagram, IsFor, Size;
    SizeFirst(ds);
    assert IsFor(ds[0], alias);
    HeldNow(x, p, ds[0], alias);
    var p1 := DeliverDatagram(x, p, ds[0], true);
    if |ds| == 1 {
      assert ds == [ds[0]] && ds[1..] == [] && OnDatagrams(x, p1, []) == p1;
    } else {
      assert AllFor(ds[1..], alias);
      AllHeld(x, p1, ds[1..], alias);
      HeldJoin(p.datagrams, alias, Held(p, alias), ds);
    }
  }

  /** Claiming the alias takes held datagrams out of the table; only the byte counter still knows of them. */
  lemma ClaimedHeld(p: Plane, alias: u64, request: u64, list: seq<bytes>, n: nat)
    ensures Claimed(p.(datagrams := p.datagrams[alias := list], heldBytes := n), alias, request) ==
            Counting(Claimed(p, alias, request), n)
  {
    assert p.datagrams[alias := list] - {alias} == p.datagrams - {alias};
  }

  lemma {:induction false} ReplayJoin(x: Context, p: Plane, a: seq<bytes>, b: seq<bytes>)
    ensures ReplayDatagrams(x, p, a + b) == ReplayDatagrams(x, ReplayDatagrams(x, p, a), b)
    decreases |a|
  {
    hide DeliverDatagram;
    if a == [] {
      assert a + b == b;
    } else {
      assert (a + b)[0] == a[0] && (a + b)[1..] == a[1..] + b;
      var left := if |a[0]| <= p.heldBytes then p.heldBytes - |a[0]| else 0;
      ReplayJoin(x, DeliverDatagram(x, p.(heldBytes := left), a[0], false), a[1..], b);
    }
  }

  /** Bytes that are counted for later datagrams do not matter to a replay. */
  lemma {:induction false} ReplayCounting(x: Context, p: Plane, ds: seq<bytes>, more: nat)
    requires Size(ds) <= p.heldBytes
    ensures var r := ReplayDatagrams(x, p, ds);
            && r.heldBytes == p.heldBytes - Size(ds)
            && ReplayDatagrams(x, Counting(p, p.heldBytes + more), ds) == Counting(r, r.heldBytes + more)
    decreases |ds|
  {
    hide DeliverDatagram, Size, Table;
    assert Size([]) == 0 by { NothingHeld(); }
    if ds != [] {
      SizeFirst(ds);
      var p1 := Counting(p, p.heldBytes - |ds[0]|);
      var q := DeliverDatagram(x, p1, ds[0], false);
      DatagramEffect(x, p1, ds[0], false);
      DatagramCounting(x, p1, ds[0], p1.heldBytes + more);
      assert Counting(p1, p1.heldBytes + more) == Counting(p, p.heldBytes + more - |ds[0]|);
      ReplayCounting(x, q, ds[1..], more);
    }
  }

  /** With a route it does not matter whether a datagram might have been held. */
  lemma Behind(x: Context, p: Plane, d: bytes, alias: u64)
    requires alias in p.routes && IsFor(d, alias)
    ensures var head := Datagrams.ParseHead(d);
            && head.Done?
            && var body := Datagrams.ParseBody(head.value, head.rest, p.routes[alias]);
               forall allow :: DeliverDatagram(x, p, d, allow) == DeliverBody(x, p, head.value, body)
  {
    hide Emit, DeliverBody, Datagrams.ParseHead, Datagrams.ParseBody, Varint.Take;
  }

  lemma BodySettled(x: Context, p: Plane, h: Datagrams.Head, body: Parse<Object>, alias: u64, request: u64)
    requires Installing(p, alias, request) && Table(p) && !p.stopped
    ensures Settled(DeliverBody(x, p, h, body), alias, request) ==
            DeliverBody(x, Settled(p, alias, request), h, body)
  {
    hide Emit, DataPlanes.Deliver, Settled, Mark, Table;
    match body
    case Done(o, _) =>
      var p1 := if h.flags.endOfGroup then Mark(p, o.request, h.group, h.id) else p;
      MarkSettled(p, o.request, h.group, h.id, alias, request);
      assert Installing(p1, alias, request) && Table(p1) && !p1.stopped by {
        MarkInstalling(p, o.request, h.group, h.id, alias, request);
      }
      DeliverSettled(x, p1, o, alias, request);
    case _ => EmitSettled(x, p, ProtocolError, alias, request);
  }

  lemma MarkInstalling(p: Plane, q: u64, group: u64, id: u64, alias: u64, request: u64)
    requires Installing(p, alias, request) && Table(p)
    ensures var r := Mark(p, q, group, id); Installing(r, alias, request) && Table(r) && r.stopped == p.stopped
  {
    hide Table;
    MarkCalm(p, q, group, id);
  }

  /** A datagram may as well come after the installation, if the request has not been stopped. */
  lemma DatagramSettled(x: Context, p: Plane, d: bytes, alias: u64, request: u64)
    requires Installing(p, alias, request) && Table(p) && !p.stopped && IsFor(d, alias)
    ensures Settled(DeliverDatagram(x, p, d, false), alias, request) ==
            DeliverDatagram(x, Settled(p, alias, request), d, true)
  {
    hide DeliverDatagram, DeliverBody, Settled, Table, IsFor, Datagrams.ParseHead, Datagrams.ParseBody;
    SettledFields(p, alias, request);
    Behind(x, p, d, alias);
    Behind(x, Settled(p, alias, request), d, alias);
    var head := Datagrams.ParseHead(d);
    BodySettled(x, p, head.value, Datagrams.ParseBody(head.value, head.rest, request), alias, request);
  }

  /** Replaying datagrams is receiving them, as long as the alias is routed. */
  lemma {:induction false} ReplayIsFeed(x: Context, p: Plane, ds: seq<bytes>, alias: u64, request: u64)
    requires Installing(p, alias, request) && Table(p)
    requires AllFor(ds, alias) && RoutedFor(x, Settled(p, alias, request), ds, alias)
    ensures Settled(ReplayDatagrams(x, Counting(p, p.heldBytes + Size(ds)), ds), alias, request) ==
            OnDatagrams(x, Settled(p, alias, request), ds)
    decreases |ds|
  {
    hide DeliverDatagram, IsFor, Size, Table, Settled;
    assert Size([]) == 0 by { NothingHeld(); }
    if ds != [] {
      SizeFirst(ds);
      assert IsFor(ds[0], alias);
      SettledFields(p, alias, request);
      DatagramSettled(x, p, ds[0], alias, request);
      DatagramEffect(x, p, ds[0], false);
      var q := DeliverDatagram(x, p, ds[0], false);
      CalmInstalling(p, q, alias, request);
      DatagramCounting(x, p, ds[0], p.heldBytes + Size(ds[1..]));
      assert AllFor(ds[1..], alias);
      ReplayIsFeed(x, q, ds[1..], alias, request);
    }
  }

  lemma {:induction false} ReplayHoldsNothing(x: Context, p: Plane, ds: seq<bytes>)
    ensures ReplayDatagrams(x, p, ds).datagrams == p.datagrams
    decreases |ds|
  {
    hide DeliverDatagram, Table;
    if ds != [] {
      var left := if |ds[0]| <= p.heldBytes then p.heldBytes - |ds[0]| else 0;
      DatagramEffect(x, p.(heldBytes := left), ds[0], false);
      ReplayHoldsNothing(x, DeliverDatagram(x, p.(heldBytes := left), ds[0], false), ds[1..]);
    }
  }

  lemma {:induction false} HeldStays(x: Context, p: Plane, ds: seq<bytes>, alias: u64)
    requires alias in p.datagrams
    ensures alias in OnDatagrams(x, p, ds).datagrams
    decreases |ds|
  {
    hide DeliverDatagram, Table, Emit;
    if ds != [] {
      DatagramEffect(x, p, ds[0], true);
      EmitCalm(x, p, ProtocolError);
      HeldStays(x, DeliverDatagram(x, p, ds[0], true), ds[1..], alias);
    }
  }

  /** A datagram that arrives after its route has been retired is held. */
  lemma {:induction false} UnroutedIsHeld(x: Context, p: Plane, ds: seq<bytes>, alias: u64)
    requires AllFor(ds, alias) && RoomFor(x, p, ds, alias) && !RoutedFor(x, p, ds, alias)
    ensures alias in OnDatagrams(x, p, ds).datagrams
    decreases |ds|
  {
    hide DeliverDatagram, IsFor, Size, Table;
    SizeFirst(ds);
    assert IsFor(ds[0], alias);
    if alias in p.routes {
      Behind(x, p, ds[0], alias);
      DatagramEffect(x, p, ds[0], false);
      assert AllFor(ds[1..], alias);
      UnroutedIsHeld(x, DeliverDatagram(x, p, ds[0], true), ds[1..], alias);
    } else {
      HeldNow(x, p, ds[0], alias);
      HeldStays(x, DeliverDatagram(x, p, ds[0], true), ds[1..], alias);
    }
  }

  lemma PlainInstall(x: Context, p: Plane, alias: u64, request: u64)
    requires alias !in p.routes && Streams(p, alias) == []
    ensures Replay(x, p, alias, request) == ReplayDatagrams(x, Claimed(p, alias, request), Held(p, alias))
    ensures Install(x, p, alias, request) == Settled(Replay(x, p, alias, request), alias, request)
  {
    hide ReplayDatagrams, Claimed, Settled;
  }

  lemma ClaimedFields(p: Plane, alias: u64, request: u64)
    ensures var q := Claimed(p, alias, request);
            && q.heldBytes == p.heldBytes && q.receivers == p.receivers && q.log == p.log && alias !in q.datagrams
            && alias in q.routes && q.routes[alias] == request && q.pendingCount <= p.pendingCount
  {
  }

  /**
   * Early datagrams, however many, within both limits and with no stream parked for their alias:
   * installing the route then leaves the plane as installing it first would, if and only if the alias
   * still has its route when each of them would arrive. Else the replay hands over what direct arrival
   * would hold.
   */
  lemma EarlyDatagramsExact(x: Context, p: Plane, ds: seq<bytes>, alias: u64, request: u64)
    requires Good(x, p) && alias !in p.routes && request !in p.states && Streams(p, alias) == []
    requires AllFor(ds, alias) && RoomFor(x, p, ds, alias)
    ensures Install(x, OnDatagrams(x, p, ds), alias, request) == OnDatagrams(x, Install(x, p, alias, request), ds) <==>
            RoutedFor(x, Install(x, p, alias, request), ds, alias)
  {
    hide Install, Claimed, ReplayDatagrams, DeliverDatagram, IsFor, Size, Good, Settled, RoutedFor, Table, Replay;
    if ds != [] {
      var r := Replay(x, p, alias, request);
      PlainInstall(x, p, alias, request);
      assert Table(p) && p.busy.None? by { GoodTable(x, p); }
      ReplayInstalling(x, p, alias, request);
      SettledFields(r, alias, request);
      EarlyReplay(x, p, ds, alias, request);
      if RoutedFor(x, Settled(r, alias, request), ds, alias) {
        ReplayIsFeed(x, r, ds, alias, request);
      } else {
        ReplayedFields(x, p, alias, request);
        var early := ReplayDatagrams(x, Counting(r, r.heldBytes + Size(ds)), ds);
        ReplayHoldsNothing(x, Counting(r, r.heldBytes + Size(ds)), ds);
        UnroutedIsHeld(x, Settled(r, alias, request), ds, alias);
        assert Settled(early, alias, request).datagrams == early.datagrams by { SettledHolds(early, alias, request); }
      }
    } else {
      assert RoutedFor(x, Install(x, p, alias, request), [], alias) by { NoneToRoute(x, p, alias, request); }
      assert OnDatagrams(x, Install(x, p, alias, request), []) == Install(x, p, alias, request);
    }
  }

  lemma NoneToRoute(x: Context, p: Plane, alias: u64, request: u64)
    ensures RoutedFor(x, Install(x, p, alias, request), [], alias)
  {
  }

  lemma GoodTable(x: Context, p: Plane)
    requires Good(x, p)
    ensures Table(p) && p.busy.None?
  {
  }

  lemma SettledHolds(p: Plane, alias: u64, request: u64)
    ensures Settled(p, alias, request).datagrams == p.datagrams
  {
  }

  /** The installation behind early datagrams replays what was held before, and then them. */
  lemma EarlyReplay(x: Context, p: Plane, ds: seq<bytes>, alias: u64, request: u64)
    requires Good(x, p) && alias !in p.routes && Streams(p, alias) == [] && ds != []
    requires AllFor(ds, alias) && RoomFor(x, p, ds, alias)
    ensures var r := Replay(x, p, alias, request);
            && Replay(x, OnDatagrams(x, p, ds), alias, request) ==
               ReplayDatagrams(x, Counting(r, r.heldBytes + Size(ds)), ds)
            && Install(x, OnDatagrams(x, p, ds), alias, request) ==
               Settled(Replay(x, OnDatagrams(x, p, ds), alias, request), alias, request)
  {
    hide Install, Claimed, ReplayDatagrams, DeliverDatagram, IsFor, Size, Good, Settled, Replay;
    var h, q := Held(p, alias), Claimed(p, alias, request);
    PlainInstall(x, p, alias, request);
    ClaimedFields(p, alias, request);
    ParkedAreKnown(x, p, alias);
    AllHeld(x, p, ds, alias);
    PlainInstall(x, OnDatagrams(x, p, ds), alias, request);
    ClaimedHeld(p, alias, request, h + ds, p.heldBytes + Size(ds));
    ReplayJoin(x, Counting(q, q.heldBytes + Size(ds)), h, ds);
    ReplayCounting(x, q, h, Size(ds));
  }

  /** After the replay nothing is held for the alias, and there is as much room as before it or more. */
  lemma ReplayedFields(x: Context, p: Plane, alias: u64, request: u64)
    requires Good(x, p) && alias !in p.routes && Streams(p, alias) == []
    ensures var r := Replay(x, p, alias, request);
            alias !in r.datagrams && r.heldBytes <= p.heldBytes
  {
    hide Claimed, ReplayDatagrams, Good, Replay;
    PlainInstall(x, p, alias, request);
    ClaimedFields(p, alias, request);
    ParkedAreKnown(x, p, alias);
    ReplayCounting(x, Claimed(p, alias, request), Held(p, alias), 0);
    ReplayHoldsNothing(x, Claimed(p, alias, request), Held(p, alias));
  }

  /** The accounting says that parked streams have receivers, and that the counter covers them. */
  lemma ParkedAreKnown(x: Context, p: Plane, alias: u64)
    requires Good(x, p)
    ensures |Streams(p, alias)| <= p.pendingCount && forall s :: s in Streams(p, alias) ==> s in p.receivers
    ensures Size(Held(p, alias)) <= p.heldBytes
  {
    hide Sum, Sizes, Counts, Size, Table;
    CountsChange(p.pending, alias, []);
    SizesChange(p.datagrams, alias, []);
    assert Size([]) == 0 by { NothingHeld(); }
    if alias in p.pending {
      forall s | s in p.pending[alias] ensures s in p.receivers {
        assert WaitsFor(p.receivers, s, alias);
      }
    }
  }
}

/**
 * A route and the objects delivered to it: which are handed to the handler, and what is recorded
 * as the last object of a group and of the track.
 */
module Delivery {
  import opened Basics
  import opened SubgroupWire

  /** ReceiveRoute, without its handler. */
  datatype Route = Route(request: u64, active: bool, groups: map<u64, u64>, track: Option<Location>)

  datatype Fate = Ignored | Malformed | Handed

  function Fresh(request: u64): Route {
    Route(request, true, map[], None)
  }

  function At(o: Object): Location {
    Location(o.group, o.id)
  }

  /** The location is not behind a recorded end. */
  predicate Admits(r: Route, at: Location) {
    && (at.group in r.groups ==> at.id <= r.groups[at.group])
    && (r.track.Some? ==> !LocationLess(r.track.value, at))
  }

  /** deliver: whether the object is handed over. */
  function FateOf(r: Route, o: Object): Fate {
    if !r.active then Ignored else if !Admits(r, At(o)) then Malformed else Handed
  }

  /** deliver: what it records. */
  function Delivered(r: Route, o: Object): Route {
    if FateOf(r, o) != Handed then r else
    r.(groups := if o.status == Some(STATUS_END_OF_GROUP) then r.groups[o.group := o.id] else r.groups,
       track := if o.status == Some(STATUS_END_OF_TRACK) then Some(At(o)) else r.track)
  }

  /** The unguarded write: a stream's or a datagram's end-of-group bit. */
  function Marked(r: Route, group: u64, id: u64): Route {
    r.(groups := r.groups[group := id])
  }

  datatype Op = Deliver(obj: Object) | Mark(group: u64, id: u64) | Retire

  function Apply(r: Route, op: Op): Route {
    match op
    case Deliver(o) => Delivered(r, o)
    case Mark(group, id) => Marked(r, group, id)
    case Retire => r.(active := false)
  }

  /** The route after the first `n` operations. */
  function After(r: Route, ops: seq<Op>, n: nat): Route
    requires n <= |ops|
  {
    if n == 0 then r else Apply(After(r, ops, n - 1), ops[n - 1])
  }

  /** From `a` to `b` no recorded end is lost or moves up. */
  predicate Falls(a: Route, b: Route) {
    && (forall g :: g in a.groups ==> g in b.groups && b.groups[g] <= a.groups[g])
    && (a.track.Some? ==> b.track.Some? && !LocationLess(a.track.value, b.track.value))
  }

  /** The mark moves the end of its group up. */
  predicate Raises(r: Route, group: u64, id: u64) {
    group in r.groups && r.groups[group] < id
  }

  predicate OpRaises(r: Route, op: Op) {
    op.Mark? && Raises(r, op.group, op.id)
  }

  lemma FallsJoin(a: Route, b: Route, c: Route)
    requires Falls(a, b) && Falls(b, c)
    ensures Falls(a, c)
  {
  }

  lemma FallsAdmits(a: Route, b: Route, at: Location)
    requires Falls(a, b) && Admits(b, at)
    ensures Admits(a, at)
  {
  }

  /** One operation keeps the ends from moving up if and only if it is not a mark above its group's end. */
  lemma StepFalls(r: Route, op: Op)
    ensures Falls(r, Apply(r, op)) <==> !OpRaises(r, op)
  {
    if OpRaises(r, op) {
      assert op.group in r.groups && Apply(r, op).groups[op.group] > r.groups[op.group];
    }
  }

  predicate NoRaise(r: Route, ops: seq<Op>) {
    forall i :: 0 <= i < |ops| ==> !OpRaises(After(r, ops, i), ops[i])
  }

  predicate FallsAt(r: Route, ops: seq<Op>, i: nat)
    requires i < |ops|
  {
    Falls(After(r, ops, i), After(r, ops, i + 1))
  }

  /** Over a whole run the ends move only down, step by step, exactly if no mark is above its group's end. */
  lemma FinalsFallExactly(r: Route, ops: seq<Op>)
    ensures (forall i :: 0 <= i < |ops| ==> FallsAt(r, ops, i)) <==> NoRaise(r, ops)
  {
    forall i | 0 <= i < |ops|
      ensures FallsAt(r, ops, i) <==> !OpRaises(After(r, ops, i), ops[i])
    {
      StepFalls(After(r, ops, i), ops[i]);
    }
    if forall i :: 0 <= i < |ops| ==> FallsAt(r, ops, i) {
      forall i | 0 <= i < |ops| ensures !OpRaises(After(r, ops, i), ops[i]) {
        assert FallsAt(r, ops, i);
      }
    }
  }

  lemma {:induction false} FallsOver(r: Route, ops: seq<Op>, i: nat, j: nat)
    requires i <= j <= |ops| && NoRaise(r, ops)
    ensures Falls(After(r, ops, i), After(r, ops, j))
    decreases j - i
  {
    if i < j {
      FallsOver(r, ops, i, j - 1);
      StepFalls(After(r, ops, j - 1), ops[j - 1]);
      FallsJoin(After(r, ops, i), After(r, ops, j - 1), After(r, ops, j));
    }
  }

  /**
   * Finality: without such marks, recorded ends only move down, and an object that is handed over
   * is at or before every end recorded at any time before it.
   */
  lemma Finality(r: Route, ops: seq<Op>, i: nat, k: nat)
    requires i <= k < |ops| && NoRaise(r, ops)
    ensures Falls(After(r, ops, i), After(r, ops, k))
    ensures ops[k].Deliver? && FateOf(After(r, ops, k), ops[k].obj) == Handed ==>
            Admits(After(r, ops, i), At(ops[k].obj))
  {
    FallsOver(r, ops, i, k);
    if ops[k].Deliver? && FateOf(After(r, ops, k), ops[k].obj) == Handed {
      FallsAdmits(After(r, ops, i), After(r, ops, k), At(ops[k].obj));
    }
  }

  /**
   * Behind the object that ended a group, or the track, nothing is handed over: no later object of
   * that group with a higher ID, and no later object at all behind the end of the track.
   */
  lemma NothingFollowsTheEnd(r: Route, ops: seq<Op>, i: nat, k: nat)
    requires i < k < |ops| && NoRaise(r, ops) && ops[i].Deliver? && ops[k].Deliver?
    requires FateOf(After(r, ops, i), ops[i].obj) == Handed && FateOf(After(r, ops, k), ops[k].obj) == Handed
    ensures ops[i].obj.status == Some(STATUS_END_OF_GROUP) && ops[k].obj.group == ops[i].obj.group ==>
              ops[k].obj.id <= ops[i].obj.id
    ensures ops[i].obj.status == Some(STATUS_END_OF_TRACK) ==> !LocationLess(At(ops[i].obj), At(ops[k].obj))
  {
    hide After, NoRaise, FateOf, Delivered, Falls;
    Finality(r, ops, i + 1, k);
    assert After(r, ops, i + 1) == Delivered(After(r, ops, i), ops[i].obj) by { AfterNext(r, ops, i); }
    EndAdmits(After(r, ops, i), ops[i].obj, At(ops[k].obj));
  }

  lemma AfterNext(r: Route, ops: seq<Op>, i: nat)
    requires i < |ops|
    ensures After(r, ops, i + 1) == Apply(After(r, ops, i), ops[i])
  {
  }

  /** What an object that ends something leaves room for. */
  lemma EndAdmits(r: Route, o: Object, at: Location)
    requires FateOf(r, o) == Handed && Admits(Delivered(r, o), at)
    ensures o.status == Some(STATUS_END_OF_GROUP) && at.group == o.group ==> at.id <= o.id
    ensures o.status == Some(STATUS_END_OF_TRACK) ==> !LocationLess(At(o), at)
  {
  }

  /** The same for an end-of-group bit: no later object of the group is handed over behind it. */
  lemma NothingFollowsTheMark(r: Route, ops: seq<Op>, i: nat, k: nat)
    requires i < k < |ops| && NoRaise(r, ops) && ops[i].Mark? && ops[k].Deliver?
    requires FateOf(After(r, ops, k), ops[k].obj) == Handed && ops[k].obj.group == ops[i].group
    ensures ops[k].obj.id <= ops[i].id
  {
    Finality(r, ops, i + 1, k);
    assert After(r, ops, i + 1) == Marked(After(r, ops, i), ops[i].group, ops[i].id);
  }

  /** Runs of deliver and retire alone have no such marks. */
  lemma DeliveriesNeverRaise(r: Route, ops: seq<Op>)
    requires forall i :: 0 <= i < |ops| ==> !ops[i].Mark?
    ensures NoRaise(r, ops)
  {
  }

  /** What a datagram with the end-of-group bit does: the mark comes before the check. */
  function EndDatagram(o: Object): seq<Op> {
    [Mark(o.group, o.id), Deliver(o)]
  }

  /**
   * A datagram with the end-of-group bit is handed over whatever end its group had; it is at or
   * before the ends recorded before it if and only if it does not raise its group's end.
   */
  lemma EndDatagramExact(r: Route, o: Object)
    requires r.active && (r.track.Some? ==> !LocationLess(r.track.value, At(o)))
    ensures FateOf(After(r, EndDatagram(o), 1), o) == Handed
    ensures Admits(r, At(o)) <==> !Raises(r, o.group, o.id)
  {
    assert After(r, EndDatagram(o), 1) == Apply(After(r, EndDatagram(o), 0), EndDatagram(o)[0]);
  }

  function Sample(id: u64, status: Option<u64>): Object {
    Object(0, 0, 0, None, id, 128, status, [], [], Datagram, 0)
  }

  /** Object 9 is handed over although object 3 had ended the group. */
  lemma LateEndIsHanded()
    ensures var r := Delivered(Fresh(0), Sample(3, Some(STATUS_END_OF_GROUP)));
            var o := Sample(9, None);
            !Admits(r, At(o)) && FateOf(After(r, EndDatagram(o), 1), o) == Handed
  {
    var r := Delivered(Fresh(0), Sample(3, Some(STATUS_END_OF_GROUP)));
    assert r.groups[0] == 3;
    EndDatagramExact(r, Sample(9, None));
  }

  /** A retired route never hands anything over again. */
  lemma {:induction false} RetiredIsSilent(r: Route, ops: seq<Op>, k: nat)
    requires !r.active && k < |ops|
    ensures !After(r, ops, k).active
    ensures ops[k].Deliver? ==> FateOf(After(r, ops, k), ops[k].obj) == Ignored
  {
    if k > 0 {
      RetiredIsSilent(r, ops, k - 1);
    }
  }
}

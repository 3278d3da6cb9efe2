/**
 * The subgroup streams of one subscription: which are open, what has been written on each, and how
 * sending and detaching change them.
 */
module SendStreams {
  import opened Basics
  import opened SubgroupWire
  import opened SubgroupSend
  import opened Reception

  datatype StreamState = Live | Finished | Reset

  /** One data stream as the transport saw it, with the objects that went on it. */
  datatype DataStream = DataStream(group: u64, subgroup: u64, objs: seq<Published>, sent: bytes, state: StreamState)

  /** A stream that can still take objects: its number and the last Object ID on it. */
  datatype OpenStream = OpenStream(index: nat, last: u64)

  /** `count` is the source's stream_count; `wire` is every stream ever opened, in order. */
  datatype Streams = Streams(alias: u64, count: nat, open: map<(u64, u64), OpenStream>, wire: seq<DataStream>)

  function NoStreams(alias: u64): Streams {
    Streams(alias, 0, map[], [])
  }

  /** The key has an open stream; entries of a sound table always point at one. */
  predicate HasStream(s: Streams, key: (u64, u64)) {
    key in s.open && s.open[key].index < |s.wire|
  }

  /** An object that does not follow the open stream of its subgroup resets that stream. */
  function ResetStale(s: Streams, o: Published): Streams {
    var key := (o.group, o.subgroup);
    if HasStream(s, key) && o.id <= s.open[key].last then
      var index := s.open[key].index;
      s.(open := s.open - {key}, wire := s.wire[index := s.wire[index].(state := Reset)])
    else s
  }

  /** send_on_subgroup_stream: opens a stream if none is open, appends the object, ends it if told so. */
  function SendObject(s: Streams, o: Published): Streams {
    Append(ResetStale(s, o), o)
  }

  function Append(s: Streams, o: Published): Streams {
    var key := (o.group, o.subgroup);
    if HasStream(s, key) && s.open[key].last < o.id then
      var index := s.open[key].index;
      var was := s.wire[index];
      var grown := was.(objs := was.objs + [o], sent := was.sent + ObjectBytes(Some(s.open[key].last), o));
      Finish(s.(wire := s.wire[index := grown]), index, o)
    else
      var added := DataStream(o.group, o.subgroup, [o],
                              EncodeHeader(s.alias, o.group, o.subgroup, o.priority) + ObjectBytes(None, o), Live);
      Finish(s.(count := s.count + 1, wire := s.wire + [added]), |s.wire|, o)
  }

  /** The end of send_on_subgroup_stream: the stream stays open for the next object or is finished. */
  function Finish(s: Streams, index: nat, o: Published): Streams
    requires index < |s.wire|
  {
    var key := (o.group, o.subgroup);
    if Closing(o) then s.(open := s.open - {key}, wire := s.wire[index := s.wire[index].(state := Finished)])
    else s.(open := s.open[key := OpenStream(index, o.id)])
  }

  /** detach_subscription: every open stream is finished, or reset on cancellation. */
  function CloseAll(s: Streams, reset: bool): Streams {
    s.(open := map[], wire := seq(|s.wire|, i requires 0 <= i < |s.wire| => Ended(s.wire[i], reset)))
  }

  function Ended(d: DataStream, reset: bool): DataStream {
    if d.state == Live then d.(state := if reset then Reset else Finished) else d
  }

  /** What the bytes of a stream are, in terms of its objects. */
  predicate Faithful(alias: u64, d: DataStream) {
    && d.objs != [] && OneStream(d.group, d.subgroup, d.objs)
    && (d.state == Live ==> !Closing(d.objs[|d.objs| - 1]))
    && d.sent == StreamBytes(alias, d.group, d.subgroup, d.objs)
  }

  /** The open table and the live streams are the same thing. */
  predicate Indexed(s: Streams) {
    && (forall key :: key in s.open ==> Entry(s, key))
    && (forall i :: 0 <= i < |s.wire| && s.wire[i].state == Live ==>
          (s.wire[i].group, s.wire[i].subgroup) in s.open && s.open[(s.wire[i].group, s.wire[i].subgroup)].index == i)
  }

  predicate Entry(s: Streams, key: (u64, u64))
    requires key in s.open
  {
    var e := s.open[key];
    && e.index < |s.wire|
    && var d := s.wire[e.index];
       d.state == Live && (d.group, d.subgroup) == key && d.objs != [] && d.objs[|d.objs| - 1].id == e.last
  }

  predicate Sound(s: Streams) {
    s.count == |s.wire| && Indexed(s) && forall i :: 0 <= i < |s.wire| ==> Faithful(s.alias, s.wire[i])
  }

  lemma ResetStaleSound(s: Streams, o: Published)
    requires Sound(s)
    ensures Sound(ResetStale(s, o))
    ensures var r, key := ResetStale(s, o), (o.group, o.subgroup); key in r.open ==> r.open[key].last < o.id
  {
    hide Closing, StreamBytes, OneStream;
  }

  /** Appending an object at the end of a list of rising IDs. */
  lemma {:induction false} RisingAppend(last: Option<u64>, objs: seq<Published>, o: Published)
    requires Rising(last, objs)
    requires if objs == [] then last.Some? ==> last.value < o.id else objs[|objs| - 1].id < o.id
    ensures Rising(last, objs + [o])
    ensures Body(last, objs + [o]) ==
            Body(last, objs) + ObjectBytes(if objs == [] then last else Some(objs[|objs| - 1].id), o)
    decreases |objs|
  {
    hide ObjectBytes;
    if objs == [] {
      assert [o][1..] == [];
      assert Body(last, [o]) == ObjectBytes(last, o) + [];
      assert objs + [o] == [o];
    } else {
      assert (objs + [o])[1..] == objs[1..] + [o];
      RisingAppend(Some(objs[0].id), objs[1..], o);
      Associative(ObjectBytes(last, objs[0]), Body(Some(objs[0].id), objs[1..]),
          ObjectBytes(Some(objs[|objs| - 1].id), o));
    }
  }

  /** A live stream stays faithful when the next object is appended to it. */
  lemma GrownFaithful(alias: u64, d: DataStream, o: Published)
    requires Faithful(alias, d) && d.state == Live && ValidPublish(o)
    requires d.group == o.group && d.subgroup == o.subgroup && d.objs[|d.objs| - 1].id < o.id
    ensures var grown := d.(objs := d.objs + [o], sent := d.sent + ObjectBytes(Some(d.objs[|d.objs| - 1].id), o));
            Faithful(alias, grown.(state := Finished)) && (!Closing(o) ==> Faithful(alias, grown))
  {
    hide ObjectBytes, Closing, EncodeHeader, ValidPublish;
    RisingAppend(None, d.objs, o);
    var objs := d.objs + [o];
    assert forall i :: 0 <= i < |objs| - 1 ==> objs[i] == d.objs[i];
    Associative(EncodeHeader(alias, d.group, d.subgroup, objs[0].priority), Body(None, d.objs),
                ObjectBytes(Some(d.objs[|d.objs| - 1].id), o));
  }

  lemma FreshFaithful(alias: u64, o: Published)
    requires ValidPublish(o)
    ensures var d := DataStream(o.group, o.subgroup, [o],
                                EncodeHeader(alias, o.group, o.subgroup, o.priority) + ObjectBytes(None, o), Live);
            Faithful(alias, d.(state := Finished)) && (!Closing(o) ==> Faithful(alias, d))
  {
    hide ObjectBytes, Closing, EncodeHeader, ValidPublish;
    RisingAppend(None, [], o);
    assert [] + [o] == [o] && [] + ObjectBytes(None, o) == ObjectBytes(None, o);
  }

  /** Sending keeps the table, the counter and every stream's bytes right. */
  lemma SendObjectSound(s: Streams, o: Published)
    requires Sound(s) && ValidPublish(o)
    ensures Sound(SendObject(s, o))
  {
    hide Faithful, Closing, ValidPublish, EncodeHeader, ObjectBytes;
    ResetStaleSound(s, o);
    AppendSound(ResetStale(s, o), o);
  }

  lemma AppendSound(s: Streams, o: Published)
    requires Sound(s) && ValidPublish(o)
    requires (o.group, o.subgroup) in s.open ==> s.open[(o.group, o.subgroup)].last < o.id
    ensures Sound(Append(s, o))
  {
    hide Sound, Append, ValidPublish;
    if (o.group, o.subgroup) in s.open {
      GrownSound(s, o);
    } else {
      AddedSound(s, o);
    }
  }

  /** The object goes on the stream that is open for its subgroup. */
  lemma GrownSound(s: Streams, o: Published)
    requires Sound(s) && ValidPublish(o)
    requires (o.group, o.subgroup) in s.open && s.open[(o.group, o.subgroup)].last < o.id
    ensures Sound(Append(s, o))
  {
    hide Faithful, Closing, ValidPublish, ObjectBytes, EncodeHeader;
    var key := (o.group, o.subgroup);
    assert Entry(s, key);
    assert Faithful(s.alias, s.wire[s.open[key].index]);
    GrownFaithful(s.alias, s.wire[s.open[key].index], o);
  }

  /** The object opens a stream. */
  lemma AddedSound(s: Streams, o: Published)
    requires Sound(s) && ValidPublish(o) && (o.group, o.subgroup) !in s.open
    ensures Sound(Append(s, o))
  {
    hide Faithful, Closing, ValidPublish, ObjectBytes, EncodeHeader;
    FreshFaithful(s.alias, o);
  }

  /** Detaching finishes the open streams, or resets them on cancellation, and leaves the others as they ended. */
  lemma CloseAllSound(s: Streams, reset: bool)
    requires Sound(s)
    ensures Sound(CloseAll(s, reset))
    ensures forall i :: 0 <= i < |s.wire| ==>
              CloseAll(s, reset).wire[i].state ==
              match s.wire[i].state case Live => (if reset then Reset else Finished) case ended => ended
  {
    hide OneStream, StreamBytes, Closing;
  }

  predicate NoneLive(wire: seq<DataStream>) {
    forall i :: 0 <= i < |wire| ==> wire[i].state != Live
  }

  /** Every object on any of the streams, with its multiplicity. */
  function Carried(wire: seq<DataStream>): multiset<Published> {
    if wire == [] then multiset{} else Carried(wire[..|wire| - 1]) + multiset(wire[|wire| - 1].objs)
  }

  lemma {:induction false} CarriedUpdate(wire: seq<DataStream>, i: nat, d: DataStream)
    requires i < |wire|
    ensures Carried(wire[i := d]) + multiset(wire[i].objs) == Carried(wire) + multiset(d.objs)
  {
    var n := |wire| - 1;
    if i == n {
      assert wire[i := d][..n] == wire[..n];
    } else {
      assert wire[i := d][..n] == wire[..n][i := d] && wire[i := d][n] == wire[n] && wire[..n][i] == wire[i];
      CarriedUpdate(wire[..n], i, d);
      AddToBoth(Carried(wire[..n][i := d]), multiset(wire[i].objs), Carried(wire[..n]), multiset(d.objs),
                multiset(wire[n].objs));
    }
  }

  lemma AddToBoth(a: multiset<Published>, b: multiset<Published>, c: multiset<Published>, d: multiset<Published>,
                  e: multiset<Published>)
    requires a + b == c + d
    ensures a + e + b == c + e + d
  {
    assert a + e + b == (a + b) + e && c + e + d == (c + d) + e;
  }

  lemma TakeFromBoth(a: multiset<Published>, b: multiset<Published>, c: multiset<Published>, d: multiset<Published>)
    requires a + b == c + (b + d)
    ensures a == c + d
  {
    assert a == (a + b) - b && c + d == (c + (b + d)) - b;
  }

  lemma {:induction false} CarriedSame(a: seq<DataStream>, b: seq<DataStream>)
    requires |a| == |b| && forall i :: 0 <= i < |a| ==> a[i].objs == b[i].objs
    ensures Carried(a) == Carried(b)
  {
    if a != [] {
      CarriedSame(a[..|a| - 1], b[..|b| - 1]);
    }
  }

  /** Sending puts the object on exactly one stream and takes none away. */
  lemma SendObjectCarries(s: Streams, o: Published)
    ensures Carried(SendObject(s, o).wire) == Carried(s.wire) + multiset{o}
  {
    hide Append, Carried;
    CarriedSame(ResetStale(s, o).wire, s.wire);
    AppendCarries(ResetStale(s, o), o);
  }

  lemma AppendCarries(s: Streams, o: Published)
    ensures Carried(Append(s, o).wire) == Carried(s.wire) + multiset{o}
  {
    hide EncodeHeader, ObjectBytes, Closing, Carried;
    var w, key := Append(s, o).wire, (o.group, o.subgroup);
    if HasStream(s, key) && s.open[key].last < o.id {
      var i := s.open[key].index;
      assert w == s.wire[i := w[i]] && w[i].objs == s.wire[i].objs + [o];
      CarriedUpdate(s.wire, i, w[i]);
      TakeFromBoth(Carried(w), multiset(s.wire[i].objs), Carried(s.wire), multiset{o});
    } else {
      CarriedGrow(s.wire, w, o);
    }
  }

  lemma CarriedGrow(wire: seq<DataStream>, w: seq<DataStream>, o: Published)
    requires |w| == |wire| + 1 && w[..|wire|] == wire && w[|wire|].objs == [o]
    ensures Carried(w) == Carried(wire) + multiset{o}
  {
  }
}

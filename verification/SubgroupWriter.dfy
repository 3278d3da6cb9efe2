/** Writing on subgroup streams in the form of the source: a buffer that grows, and a table of open streams. */
module SubgroupWriter {
  import opened Basics
  import opened SubgroupWire
  import opened SubgroupSend
  import opened SendStreams
  import Datagrams
  import Varint

  /** encode_subgroup_object. */
  method WriteObject(out: bytes, delta: u64, properties: buffer, status: Option<u64>,
                     payload: buffer) returns (r: bytes)
    ensures r == out + EncodeObject(delta, properties, status, payload)
  {
    hide Varint.Encode;
    var own := Varint.Write([], delta);
    own := Varint.Write(own, |properties|);
    own := own + properties;
    ghost var front := own;
    if status.Some? || payload == [] {
      own := Varint.Write(own, 0);
      own := Varint.Write(own, if status.Some? then status.value else STATUS_NORMAL);
    } else {
      own := Varint.Write(own, |payload|);
      own := own + payload;
    }
    assert [] + Varint.Encode(delta) == Varint.Encode(delta);
    Associative(front, Varint.Encode(0), Varint.Encode(if status.Some? then status.value else STATUS_NORMAL));
    Associative(front, Varint.Encode(|payload|), payload);
    r := out + own;
  }

  /** send_datagram_object and encode_object_datagram. */
  method WriteDatagram(alias: u64, o: Published) returns (r: bytes)
    ensures r == Datagrams.Sent(alias, o)
  {
    hide Varint.Encode, Datagrams.TypeOf, Datagrams.IdBytes, Datagrams.PropertyBytes;
    var status := if o.status.None? && o.payload == [] then Some(STATUS_NORMAL) else o.status;
    var properties := SentProperties(o);
    var flags := Datagrams.Flags(properties != [], status.None? && o.endOfGroup, o.id == 0, false, status.Some?);
    var head := WriteHead(Datagrams.TypeOf(flags), alias, o.group, o.id);
    var body := WriteBody(o.priority, properties, status, o.payload);
    r := head + body;
    FrontFirst(Varint.Encode(Datagrams.TypeOf(flags)), Varint.Encode(alias), Varint.Encode(o.group),
               Datagrams.IdBytes(o.id), body);
  }

  method WriteHead(kind: u64, alias: u64, group: u64, id: u64) returns (r: bytes)
    ensures r == Varint.Encode(kind) + (Varint.Encode(alias) + (Varint.Encode(group) + Datagrams.IdBytes(id)))
  {
    hide Varint.Encode;
    r := Varint.Write([], kind);
    r := Varint.Write(r, alias);
    r := Varint.Write(r, group);
    if id != 0 {
      r := Varint.Write(r, id);
    }
    HeadRegrouped(Varint.Encode(kind), Varint.Encode(alias), Varint.Encode(group), Datagrams.IdBytes(id));
  }

  lemma HeadRegrouped(a: bytes, b: bytes, c: bytes, d: bytes)
    ensures [] + a + b + c + d == a + (b + (c + d)) && [] + a + b + c == a + (b + (c + []))
  {
  }

  method WriteBody(priority: byte, properties: buffer, status: Option<u64>, payload: buffer) returns (r: bytes)
    ensures var rest := if status.Some? then Varint.Encode(status.value) else payload;
            r == [priority] + (Datagrams.PropertyBytes(properties) + rest)
  {
    hide Varint.Encode;
    ghost var rest := if status.Some? then Varint.Encode(status.value) else payload;
    r := [priority];
    if properties != [] {
      r := Varint.Write(r, |properties|);
      r := r + properties;
      Associative([priority], Varint.Encode(|properties|), properties);
    } else {
      assert [priority] + [] == [priority];
    }
    assert r == [priority] + Datagrams.PropertyBytes(properties);
    Associative([priority], Datagrams.PropertyBytes(properties), rest);
    if status.Some? {
      r := Varint.Write(r, status.value);
    } else {
      r := r + payload;
    }
  }

  lemma FrontFirst(a: bytes, b: bytes, c: bytes, d: bytes, e: bytes)
    ensures (a + (b + (c + d))) + e == a + (b + (c + (d + e)))
  {
  }

  /** The object, and the end-of-group object that may follow it. */
  method WriteWithMarker(out: bytes, last: Option<u64>, o: Published) returns (r: bytes)
    requires last.Some? ==> last.value < o.id
    ensures r == out + ObjectBytes(last, o)
  {
    hide EncodeObject;
    var delta := if last.Some? then o.id - last.value - 1 else o.id;
    r := WriteObject(out, delta, SentProperties(o), o.status, o.payload);
    if o.endOfGroup && !NonNormal(o) {
      r := WriteObject(r, 0, [], Some(STATUS_END_OF_GROUP), []);
    }
  }

  /** send_on_subgroup_stream. */
  method SendOnSubgroupStream(s: Streams, o: Published) returns (r: Streams)
    requires Sound(s)
    ensures r == SendObject(s, o)
  {
    hide Faithful, Append;
    ResetStaleSound(s, o);
    var key := (o.group, o.subgroup);
    r := s;
    if key in r.open && o.id <= r.open[key].last {
      assert Entry(s, key);
      var stale := r.open[key].index;
      r := r.(open := r.open - {key}, wire := r.wire[stale := r.wire[stale].(state := Reset)]);
    }
    assert r == ResetStale(s, o);
    r := AppendObject(r, o);
  }

  /** Its second half: the stream is opened if need be, and written on. */
  method AppendObject(s: Streams, o: Published) returns (r: Streams)
    requires Sound(s) && ((o.group, o.subgroup) in s.open ==> s.open[(o.group, o.subgroup)].last < o.id)
    ensures r == Append(s, o)
  {
    hide Faithful, ObjectBytes, EncodeHeader, Append;
    var key := (o.group, o.subgroup);
    r := s;
    assert key in r.open ==> Entry(r, key);
    var buffer := [];
    var last: Option<u64> := None;
    var index := |r.wire|;
    if key !in r.open {
      r := r.(count := r.count + 1, wire := r.wire + [DataStream(o.group, o.subgroup, [], [], Live)]);
      buffer := EncodeHeader(s.alias, o.group, o.subgroup, o.priority);
    } else {
      last := Some(r.open[key].last);
      index := r.open[key].index;
    }
    buffer := WriteWithMarker(buffer, last, o);
    var was := r.wire[index];
    var grown := was.(objs := was.objs + [o], sent := was.sent + buffer);
    if o.endOfSubgroup || o.endOfGroup || NonNormal(o) {
      r := r.(wire := r.wire[index := grown.(state := Finished)], open := r.open - {key});
    } else {
      r := r.(wire := r.wire[index := grown], open := r.open[key := OpenStream(index, o.id)]);
    }
    Appended(s, o, r, buffer, last);
  }

  lemma Appended(s: Streams, o: Published, r: Streams, buffer: bytes, last: Option<u64>)
    requires var key := (o.group, o.subgroup);
             && (key in s.open ==> Entry(s, key) && s.open[key].last < o.id && last == Some(s.open[key].last))
             && (key !in s.open ==> last == None)
             && buffer == (if key in s.open then [] else EncodeHeader(s.alias, o.group, o.subgroup,
                 o.priority)) + ObjectBytes(last, o)
             && var wire := if key in s.open then s.wire else s.wire + [DataStream(o.group, o.subgroup, [], [], Live)];
                var index := if key in s.open then s.open[key].index else |s.wire|;
                var grown := wire[index].(objs := wire[index].objs + [o], sent := wire[index].sent + buffer);
                && r.alias == s.alias && r.count == (if key in s.open then s.count else s.count + 1)
                && r.wire == wire[index := if Closing(o) then grown.(state := Finished) else grown]
                && r.open == if Closing(o) then s.open - {key} else s.open[key := OpenStream(index, o.id)]
    ensures r == Append(s, o)
  {
    hide ObjectBytes, EncodeHeader, Closing;
    var key := (o.group, o.subgroup);
    if key in s.open {
      assert [] + ObjectBytes(last, o) == ObjectBytes(last, o);
    } else {
      assert [] + [o] == [o] && [] + buffer == buffer;
      var n := |s.wire|;
      var added := DataStream(o.group, o.subgroup, [o], buffer, Live);
      assert (s.wire + [DataStream(o.group, o.subgroup, [], [], Live)])[n := added] == s.wire + [added];
    }
    assert r.wire == Append(s, o).wire;
  }
}

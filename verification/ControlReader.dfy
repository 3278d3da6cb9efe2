/**
 * The reader and the writers of control message fields in the form of the source: a cursor that moves and
 * loops that append.
 */
module ControlReaders {
  import opened Basics
  import opened SubgroupWire
  import opened ControlFields
  import opened Parameters
  import Varint

  /** The outcome of a read that throws instead of asking for more. */
  predicate Agrees<T(==)>(p: Parse<T>, r: Option<T>, rest: bytes) {
    if p.Done? then r == Some(p.value) && rest == p.rest else r == None
  }

  /** A list read so far, together with what is still to be read, makes up the whole list. */
  predicate Continues<T(==)>(whole: Parse<seq<T>>, sofar: seq<T>, part: Parse<seq<T>>) {
    if part.Done? then whole == Done(sofar + part.value, part.rest) else !whole.Done?
  }

  class Reader {
    const data: bytes
    var offset: nat

    ghost predicate Valid()
      reads this
    {
      offset <= |data|
    }

    /** The unread bytes. */
    ghost function Rest(): bytes
      requires Valid()
      reads this
    {
      data[offset..]
    }

    constructor (payload: bytes)
      ensures Valid() && Rest() == payload
    {
      data := payload;
      offset := 0;
    }

    method ReadVarint() returns (r: Option<u64>)
      requires Valid()
      modifies this`offset
      ensures Valid() && Agrees(Varint.Take(old(Rest())), r, Rest())
    {
      hide Varint.Decode;
      var parsed := Varint.Read(data, offset);
      if parsed.Incomplete? {
        NothingBehindTheEnd();
        return None;
      }
      assert data[offset..][parsed.length..] == data[offset + parsed.length..];
      offset := offset + parsed.length;
      r := Some(parsed.value);
    }

    method ReadByte() returns (r: Option<byte>)
      requires Valid()
      modifies this`offset
      ensures Valid() && Agrees(TakeByte(old(Rest())), r, Rest())
    {
      if offset == |data| {
        return None;
      }
      r := Some(data[offset]);
      offset := offset + 1;
    }

    method ReadView(size: nat) returns (r: Option<bytes>)
      requires Valid()
      modifies this`offset
      ensures Valid() && Agrees(TakeView(old(Rest()), size), r, Rest())
    {
      if size > |data| - offset {
        return None;
      }
      assert data[offset..][size..] == data[offset + size..] && data[offset..][..size] == data[offset..offset + size];
      r := Some(data[offset..offset + size]);
      offset := offset + size;
    }

    method ReadString(limit: nat) returns (r: Option<bytes>)
      requires Valid()
      modifies this`offset
      ensures Valid() && Agrees(TakeString(old(Rest()), limit), r, Rest())
    {
      hide Varint.Take, TakeView;
      var size := ReadVarint();
      if size.None? || size.value > limit {
        return None;
      }
      r := ReadView(size.value);
    }

    method ReadNamespace() returns (r: Option<seq<bytes>>)
      requires Valid()
      modifies this`offset
      ensures Valid() && Agrees(TakeSpace(old(Rest())), r, Rest())
    {
      hide Varint.Take, TakeString;
      var count := ReadVarint();
      if count.None? || count.value > MAX_FIELDS {
        return None;
      }
      ghost var whole := ControlFields.TakeFields(Rest(), count.value, 0);
      var fields: seq<bytes>, total: nat, i := [], 0, 0;
      assert whole.Done? ==> [] + whole.value == whole.value;
      while i < count.value
        invariant Valid() && i <= count.value
        invariant Continues(whole, fields, ControlFields.TakeFields(Rest(), count.value - i, total))
      {
        var field := ReadString(MAX_NAME);
        if field.None? || field.value == [] || total + |field.value| > MAX_NAME {
          return None;
        }
        ghost var part := ControlFields.TakeFields(Rest(), count.value - i - 1, total + |field.value|);
        assert part.Done? ==> fields + ([field.value] + part.value) == fields + [field.value] + part.value;
        total := total + |field.value|;
        fields := fields + [field.value];
        i := i + 1;
      }
      assert fields + [] == fields;
      r := Some(fields);
    }

    /** The value of a parameter: skipped, then copied from where it began. */
    method ReadValue(e: Encoding) returns (r: Option<bytes>)
      requires Valid()
      modifies this`offset
      ensures Valid() && Agrees(TakeValue(e, old(Rest())), r, Rest())
    {
      hide Varint.Take, TakeString, TakeSpace, TakeByte;
      ghost var was := Rest();
      var start := offset;
      var good := false;
      match e {
        case Uint8 =>
          var b := ReadByte();
          good := b.Some?;
        case Number =>
          var n := ReadVarint();
          good := n.Some?;
        case Pair =>
          var n := ReadVarint();
          if n.Some? {
            var m := ReadVarint();
            good := m.Some?;
          }
        case Prefixed =>
          var v := ReadString(MAX_VALUE);
          good := v.Some?;
        case Space =>
          var v := ReadNamespace();
          good := v.Some?;
      }
      assert good <==> Skip(e, was).Done?;
      if !good {
        return None;
      }
      assert Skip(e, was).rest == Rest();
      assert data[start..offset] == was[..|was| - |Rest()|];
      r := Some(data[start..offset]);
    }

    method ReadParameters() returns (r: Option<seq<Parameter>>)
      requires Valid()
      modifies this`offset
      ensures Valid() && Agrees(Parameters.Take(old(Rest())), r, Rest())
    {
      hide Varint.Take, TakeValue;
      var count := ReadVarint();
      if count.None? {
        return None;
      }
      ghost var whole := TakeList(Rest(), count.value, 0, true);
      var ps: seq<Parameter>, kind: u64, i := [], 0, 0;
      assert whole.Done? ==> [] + whole.value == whole.value;
      while i < count.value
        invariant Valid() && i <= count.value
        invariant Continues(whole, ps, TakeList(Rest(), count.value - i, kind, i == 0))
      {
        var p := ReadParameter(kind, i == 0);
        if p.None? {
          return None;
        }
        kind := p.value.kind;
        ghost var part := TakeList(Rest(), count.value - i - 1, kind, false);
        assert part.Done? ==> ps + ([p.value] + part.value) == ps + [p.value] + part.value;
        ps := ps + [p.value];
        i := i + 1;
      }
      assert ps + [] == ps;
      r := Some(ps);
    }

    method ReadParameter(kind: u64, first: bool) returns (r: Option<Parameter>)
      requires Valid()
      modifies this`offset
      ensures Valid() && Agrees(TakeOne(old(Rest()), kind, first), r, Rest())
    {
      hide Varint.Take, TakeValue;
      var delta := ReadVarint();
      if delta.None? || delta.value > MAX64 - kind || (!first && delta.value == 0) {
        return None;
      }
      var encoding := EncodingOf(kind + delta.value);
      if encoding.None? {
        return None;
      }
      var value := ReadValue(encoding.value);
      if value.None? {
        return None;
      }
      r := Some(Parameter(kind + delta.value, value.value));
    }
  }

  lemma NothingBehindTheEnd()
    ensures Varint.Decode([]) == Varint.Incomplete
  {
  }

  /** A list written so far, together with what is still to be written. */
  predicate Writes(whole: Option<bytes>, sofar: bytes, part: Option<bytes>) {
    whole == match part case Some(tail) => Some(sofar + tail) case None => None
  }

  lemma NothingWritten(whole: Option<bytes>)
    ensures Writes(whole, [], whole)
  {
    if whole.Some? {
      assert [] + whole.value == whole.value;
    }
  }

  lemma WritesMore(whole: Option<bytes>, sofar: bytes, one: bytes, tail: Option<bytes>)
    requires Writes(whole, sofar, match tail case Some(t) => Some(one + t) case None => None)
    ensures Writes(whole, sofar + one, tail)
  {
    if tail.Some? {
      Associative(sofar, one, tail.value);
    }
  }

  /** write_track_namespace. */
  method WriteNamespace(out: bytes, space: seq<bytes>) returns (r: Option<bytes>)
    ensures r == match EncodeSpace(space) case Some(e) => Some(out + e) case None => None
  {
    hide Varint.Encode, EncodeString;
    if |space| > MAX_FIELDS {
      return None;
    }
    var buffer := Varint.Write(out, |space|);
    ghost var head, sofar := buffer, [];
    ghost var whole := EncodeFields(space, 0);
    var total: nat, i := 0, 0;
    assert space[0..] == space && buffer == head + [];
    NothingWritten(whole);
    while i < |space|
      invariant 0 <= i <= |space|
      invariant Writes(whole, sofar, EncodeFields(space[i..], total))
      invariant buffer == head + sofar
    {
      var field := space[i];
      if field == [] || total + |field| > MAX_NAME {
        return None;
      }
      assert space[i..][1..] == space[i + 1..];
      WritesMore(whole, sofar, EncodeString(field), EncodeFields(space[i + 1..], total + |field|));
      buffer := WriteString(buffer, field);
      Associative(head, sofar, EncodeString(field));
      sofar := sofar + EncodeString(field);
      total := total + |field|;
      i := i + 1;
    }
    assert space[|space|..] == [] && sofar + [] == sofar;
    Associative(out, Varint.Encode(|space|), sofar);
    r := Some(buffer);
  }

  method WriteString(out: bytes, v: buffer) returns (r: bytes)
    ensures r == out + EncodeString(v)
  {
    hide Varint.Encode;
    r := Varint.Write(out, |v|);
    Associative(out, Varint.Encode(|v|), v);
    r := r + v;
  }

  /** encode_parameters. */
  method WriteParameters(out: bytes, ps: parameters) returns (r: Option<bytes>)
    ensures r == match Parameters.Encode(ps) case Some(e) => Some(out + e) case None => None
  {
    hide Varint.Encode, Sort, EncodeOne, EncodingOf;
    var sorted := Sort(ps);
    var buffer := Varint.Write(out, |sorted|);
    ghost var head, sofar := buffer, [];
    ghost var whole := EncodeList(sorted, 0);
    var previous: u64, i := 0, 0;
    assert sorted[0..] == sorted && buffer == head + [];
    NothingWritten(whole);
    while i < |sorted|
      invariant 0 <= i <= |sorted|
      invariant Writes(whole, sofar, EncodeList(sorted[i..], previous))
      invariant buffer == head + sofar
    {
      var p := sorted[i];
      if (previous != 0 && p.kind <= previous) || EncodingOf(p.kind).None? {
        return None;
      }
      assert sorted[i..][1..] == sorted[i + 1..];
      WritesMore(whole, sofar, EncodeOne(p, previous), EncodeList(sorted[i + 1..], p.kind));
      buffer := WriteParameter(buffer, p, previous);
      Associative(head, sofar, EncodeOne(p, previous));
      sofar := sofar + EncodeOne(p, previous);
      previous := p.kind;
      i := i + 1;
    }
    assert sorted[|sorted|..] == [] && sofar + [] == sofar;
    Associative(out, Varint.Encode(|sorted|), sofar);
    r := Some(buffer);
  }

  method WriteParameter(out: bytes, p: Parameter, previous: u64) returns (r: bytes)
    requires Follows(p, previous)
    ensures r == out + EncodeOne(p, previous)
  {
    hide Varint.Encode;
    r := Varint.Write(out, p.kind - previous);
    Associative(out, Varint.Encode(p.kind - previous), p.value);
    r := r + p.value;
  }
}

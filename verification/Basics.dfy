/** Value types shared by the whole model. */
module Basics {

  const MAX64: int := 0xFFFF_FFFF_FFFF_FFFF

  /** The source's uint64_t: sums that may wrap are written out with an explicit test or a modulus. */
  type u64 = x: int | 0 <= x <= 0xFFFF_FFFF_FFFF_FFFF

  type byte = b: int | 0 <= b < 256

  type bytes = seq<byte>

  /** A byte vector of the application: its size fits the source's size_t. */
  type buffer = b: bytes | |b| <= 0xFFFF_FFFF_FFFF_FFFF

  datatype Option<+T> = None | Some(value: T)

  /** Outcome of an incremental parse: finished with `rest` unread, undecided so far, or malformed. */
  datatype Parse<+T> = Done(value: T, rest: bytes) | More | Bad {
    predicate IsFailure() { !Done? }

    function PropagateFailure<U>(): Parse<U>
      requires IsFailure()
    {
      if More? then More else Bad
    }

    function Extract(): (T, bytes)
      requires Done?
    {
      (value, rest)
    }

    /** The same verdict with more bytes behind the ones that were there. */
    function Extended(more: bytes): Parse<T> {
      if Done? then Done(value, rest + more) else this
    }
  }

  datatype Location = Location(group: u64, id: u64)

  predicate LocationLess(left: Location, right: Location) {
    left.group < right.group || (left.group == right.group && left.id < right.id)
  }

  datatype DeliveryKind = SubgroupStream | Datagram | FetchStream

  /** An object as it is handed to a subscription's route. */
  datatype Object = Object(request: u64, alias: u64, group: u64, subgroup: Option<u64>, id: u64, priority: byte,
                           status: Option<u64>, properties: bytes, payload: bytes, kind: DeliveryKind, stream: u64)

  /** A track: its namespace fields and its name. */
  datatype TrackKey = TrackKey(space: seq<bytes>, name: bytes)

  /** An object as the application publishes it. */
  datatype Published = Published(track: TrackKey, group: u64, subgroup: u64, id: u64, priority: byte,
                                 properties: buffer, payload: buffer, status: Option<u64>, kind: DeliveryKind,
                                 endOfSubgroup: bool, endOfGroup: bool)

  /** The bytes of a list of buffers, in order. */
  function Concat(chunks: seq<bytes>): bytes {
    if chunks == [] then [] else chunks[0] + Concat(chunks[1..])
  }

  lemma {:induction false} ConcatSplit(a: seq<bytes>, b: seq<bytes>)
    ensures Concat(a + b) == Concat(a) + Concat(b)
  {
    if a == [] {
      assert a + b == b;
    } else {
      assert (a + b)[1..] == a[1..] + b;
      ConcatSplit(a[1..], b);
    }
  }

  lemma Associative(a: bytes, b: bytes, c: bytes)
    ensures a + b + c == a + (b + c)
  {
  }
}

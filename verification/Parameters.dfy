/**
 * Message parameters: written in the order of their types, each type as the difference to the one
 * before, each value in the layout of its type.
 */
module Parameters {
  import opened Basics
  import opened ControlFields
  import Varint

  datatype Parameter = Parameter(kind: u64, value: bytes)

  /** A parameter vector of the application: its size fits the source's size_t. */
  type parameters = p: seq<Parameter> | |p| <= 0xFFFF_FFFF_FFFF_FFFF

  /** Reader::parameters. */
  function Take(s: bytes): (r: Parse<seq<Parameter>>)
    ensures r.Done? ==> |r.rest| < |s| && |r.value| <= MAX64
  {
    var (count, s0) :- Varint.Take(s);
    TakeList(s0, count, 0, true)
  }

  /** Its loop: `count` parameters to go, the last type was `kind`. */
  function TakeList(s: bytes, count: nat, kind: u64, first: bool): (r: Parse<seq<Parameter>>)
    ensures r.Done? ==> |r.rest| <= |s| && |r.value| == count
    decreases count
  {
    if count == 0 then Done([], s) else
    var (p, s0) :- TakeOne(s, kind, first);
    var (ps, s1) :- TakeList(s0, count - 1, p.kind, false);
    Done([p] + ps, s1)
  }

  function TakeOne(s: bytes, kind: u64, first: bool): (r: Parse<Parameter>)
    ensures r.Done? ==> |r.rest| < |s|
  {
    var (delta, s0) :- Varint.Take(s);
    if delta > MAX64 - kind || (!first && delta == 0) then Bad else
    if EncodingOf(kind + delta).None? then Bad else
    var (value, s1) :- TakeValue(EncodingOf(kind + delta).value, s0);
    Done(Parameter(kind + delta, value), s1)
  }

  /** The stable sort of encode_parameters. */
  function Sort(ps: seq<Parameter>): (r: seq<Parameter>)
    ensures |r| == |ps|
  {
    if ps == [] then [] else Insert(ps[0], Sort(ps[1..]))
  }

  function Insert(p: Parameter, ps: seq<Parameter>): (r: seq<Parameter>)
    ensures |r| == |ps| + 1
  {
    if ps == [] || p.kind <= ps[0].kind then [p] + ps else [ps[0]] + Insert(p, ps[1..])
  }

  /** encode_parameters: the bytes appended, or None where it throws. */
  function Encode(ps: parameters): Option<bytes> {
    match EncodeList(Sort(ps), 0)
    case Some(tail) => Some(Varint.Encode(|ps|) + tail)
    case None => None
  }

  function EncodeList(ps: seq<Parameter>, previous: u64): Option<bytes> {
    if ps == [] then Some([])
    else if !Follows(ps[0], previous) then None
    else match EncodeList(ps[1..], ps[0].kind)
      case Some(tail) => Some(EncodeOne(ps[0], previous) + tail)
      case None => None
  }

  predicate Follows(p: Parameter, previous: u64) {
    !(previous != 0 && p.kind <= previous) && EncodingOf(p.kind).Some?
  }

  function EncodeOne(p: Parameter, previous: u64): bytes
    requires Follows(p, previous)
  {
    Varint.Encode(p.kind - previous) + p.value
  }

  predicate Known(p: Parameter) {
    EncodingOf(p.kind).Some?
  }

  /** Each parameter holds one well-formed value of its type. */
  predicate AllWellFormed(ps: seq<Parameter>) {
    forall p :: p in ps ==> Known(p) && WellFormed(EncodingOf(p.kind).value, p.value)
  }

  /** No type occurs twice. */
  predicate Distinct(ps: seq<Parameter>) {
    ps == [] || (Distinct(ps[1..]) && forall q :: q in ps[1..] ==> q.kind != ps[0].kind)
  }

  /** Types strictly rising, all above `previous`. */
  predicate Rising(ps: seq<Parameter>, previous: u64) {
    ps == [] || (previous < ps[0].kind && Rising(ps[1..], ps[0].kind))
  }

  lemma OneRoundTrip(p: Parameter, previous: u64, first: bool, t: bytes)
    requires Follows(p, previous) && first == (previous == 0) && WellFormed(EncodingOf(p.kind).value, p.value)
    ensures TakeOne(EncodeOne(p, previous) + t, previous, first) == Done(p, t)
  {
    hide Varint.Take, Varint.Encode, TakeValue, WellFormed;
    Associative(Varint.Encode(p.kind - previous), p.value, t);
    Varint.TakeEncoded(p.kind - previous, p.value + t);
    ValueRoundTrip(EncodingOf(p.kind).value, p.value, t);
  }

  lemma OneExact(s: bytes, previous: u64, first: bool) returns (f: bytes)
    requires TakeOne(s, previous, first).Done? && first == (previous == 0)
    ensures var r := TakeOne(s, previous, first);
            && s == f + r.rest
            && Follows(r.value, previous) && previous < r.value.kind && |EncodeOne(r.value, previous)| <= |f|
            && WellFormed(EncodingOf(r.value.kind).value, r.value.value)
  {
    hide Varint.Take, Varint.Encode, TakeValue, WellFormed;
    var r := TakeOne(s, previous, first).value;
    var g := VarintExact(s);
    ValueExact(EncodingOf(r.kind).value, Varint.Take(s).rest);
    f := g + r.value;
  }

  lemma {:induction false} ListRoundTrip(ps: seq<Parameter>, previous: u64, first: bool, t: bytes)
    requires EncodeList(ps, previous).Some? && first == (previous == 0) && AllWellFormed(ps)
    ensures TakeList(EncodeList(ps, previous).value + t, |ps|, previous, first) == Done(ps, t)
    decreases |ps|
  {
    hide TakeOne, EncodeOne, WellFormed;
    if ps == [] {
      assert EncodeList(ps, previous).value + t == t;
    } else {
      var p := ps[0];
      var tail := EncodeList(ps[1..], p.kind).value;
      assert p.kind != 0;
      assert p in ps && forall q :: q in ps[1..] ==> q in ps;
      Associative(EncodeOne(p, previous), tail, t);
      OneRoundTrip(p, previous, first, tail + t);
      ListRoundTrip(ps[1..], p.kind, false, t);
      assert [p] + ps[1..] == ps;
    }
  }

  /** An accepted list is well formed, rising, and encoded in no more bytes than it was read from. */
  lemma {:induction false} ListExact(s: bytes, count: nat, previous: u64, first: bool) returns (f: bytes)
    requires TakeList(s, count, previous, first).Done? && first == (previous == 0)
    ensures var r := TakeList(s, count, previous, first);
            && s == f + r.rest
            && Rising(r.value, previous) && AllWellFormed(r.value)
            && EncodeList(r.value, previous).Some? && |EncodeList(r.value, previous).value| <= |f|
    decreases count
  {
    hide TakeOne, EncodeOne, WellFormed;
    if count == 0 {
      f := [];
    } else {
      var r := TakeOne(s, previous, first);
      var p := r.value;
      var g := OneExact(s, previous, first);
      var h := ListExact(r.rest, count - 1, p.kind, false);
      var ps := TakeList(r.rest, count - 1, p.kind, false).value;
      f := g + h;
      assert ([p] + ps)[1..] == ps;
    }
  }

  lemma {:induction false} InsertFacts(p: Parameter, ps: seq<Parameter>)
    requires Ordered(ps)
    ensures Ordered(Insert(p, ps)) && multiset(Insert(p, ps)) == multiset{p} + multiset(ps)
    ensures Insert(p, ps)[0] == p || (ps != [] && Insert(p, ps)[0] == ps[0])
    decreases |ps|
  {
    if ps == [] || p.kind <= ps[0].kind {
      assert ([p] + ps)[1..] == ps;
    } else {
      InsertFacts(p, ps[1..]);
      assert ps == [ps[0]] + ps[1..];
      var r := [ps[0]] + Insert(p, ps[1..]);
      assert r[1..] == Insert(p, ps[1..]);
    }
  }

  predicate Ordered(ps: seq<Parameter>) {
    |ps| <= 1 || (ps[0].kind <= ps[1].kind && Ordered(ps[1..]))
  }

  /** Sorting orders by type and keeps every parameter. */
  lemma {:induction false} SortIsOrderedPermutation(ps: seq<Parameter>)
    ensures Ordered(Sort(ps)) && multiset(Sort(ps)) == multiset(ps)
  {
    hide Ordered, Insert;
    if ps == [] {
      EmptyIsOrdered();
    } else {
      SortIsOrderedPermutation(ps[1..]);
      InsertFacts(ps[0], Sort(ps[1..]));
      assert ps == [ps[0]] + ps[1..];
    }
  }

  lemma EmptyIsOrdered()
    ensures Ordered([])
  {
  }

  /** The parameters of one type, in order. */
  function OfKind(ps: seq<Parameter>, kind: u64): seq<Parameter> {
    if ps == [] then [] else (if ps[0].kind == kind then [ps[0]] else []) + OfKind(ps[1..], kind)
  }

  /** Sorting is stable: parameters of one type stay in the order they were given. */
  lemma {:induction false} SortIsStable(ps: seq<Parameter>, kind: u64)
    ensures OfKind(Sort(ps), kind) == OfKind(ps, kind)
  {
    if ps != [] {
      SortIsStable(ps[1..], kind);
      InsertStable(ps[0], Sort(ps[1..]), kind);
    }
  }

  lemma {:induction false} InsertStable(p: Parameter, ps: seq<Parameter>, kind: u64)
    ensures OfKind(Insert(p, ps), kind) == (if p.kind == kind then [p] else []) + OfKind(ps, kind)
    decreases |ps|
  {
    if ps == [] || p.kind <= ps[0].kind {
      assert ([p] + ps)[1..] == ps;
    } else {
      InsertStable(p, ps[1..], kind);
      var r := [ps[0]] + Insert(p, ps[1..]);
      assert r[1..] == Insert(p, ps[1..]);
      if p.kind == kind {
        assert ps[0].kind != kind;
      }
    }
  }

  lemma {:induction false} SortOfRising(ps: seq<Parameter>, previous: u64)
    requires Rising(ps, previous)
    ensures Sort(ps) == ps
    decreases |ps|
  {
    if ps != [] {
      SortOfRising(ps[1..], ps[0].kind);
      assert [ps[0]] + ps[1..] == ps;
    }
  }

  lemma SortKeepsMembers(ps: seq<Parameter>)
    ensures forall p :: p in Sort(ps) <==> p in ps
  {
    SortIsOrderedPermutation(ps);
    forall p ensures p in Sort(ps) <==> p in ps {
      assert p in multiset(Sort(ps)) <==> p in multiset(ps);
    }
  }

  /**
   * What is written can be read back, in the order of the types, whatever follows, if and only if
   * each value is one well-formed value of its type.
   */
  lemma RoundTrip(ps: parameters, t: bytes)
    requires Encode(ps).Some?
    ensures Take(Encode(ps).value + t) == Done(Sort(ps), t) <==> AllWellFormed(ps)
  {
    hide Varint.Take, Varint.Encode, TakeList, EncodeList, Sort, WellFormed;
    SortKeepsMembers(ps);
    var tail := EncodeList(Sort(ps), 0).value;
    Associative(Varint.Encode(|ps|), tail, t);
    Varint.TakeEncoded(|ps|, tail + t);
    if AllWellFormed(ps) {
      ListRoundTrip(Sort(ps), 0, true, t);
    }
    if TakeList(tail + t, |ps|, 0, true) == Done(Sort(ps), t) {
      var _ := ListExact(tail + t, |ps|, 0, true);
    }
  }

  /** Accepted parameters are already sorted, can be written again, and take no more bytes then. */
  lemma Exact(s: bytes) returns (f: bytes)
    requires Take(s).Done?
    ensures var r := Take(s);
            && s == f + r.rest && AllWellFormed(r.value)
            && Sort(r.value) == r.value && Encode(r.value).Some? && |Encode(r.value).value| <= |f|
  {
    hide Varint.Take, Varint.Encode, TakeList, EncodeList, Sort, WellFormed;
    var count := Varint.Take(s);
    var g := VarintExact(s);
    var h := ListExact(count.rest, count.value, 0, true);
    f := g + h;
    SortOfRising(Take(s).value, 0);
  }

  /** encode_parameters throws exactly on an unknown or a repeated type. */
  lemma Encodable(ps: parameters)
    ensures Encode(ps).Some? <==> Distinct(ps) && forall p :: p in ps ==> Known(p)
  {
    hide Varint.Encode, Sort, EncodeList;
    SortIsOrderedPermutation(ps);
    SortKeepsMembers(ps);
    ListEncodable(Sort(ps), 0);
    assert Distinct(ps) <==> Distinct(Sort(ps)) by { DistinctKept(ps); }
    if EncodeList(Sort(ps), 0).Some? {
      RisingIsDistinct(Sort(ps), 0);
    } else if Distinct(ps) && forall p :: p in ps ==> Known(p) {
      DistinctIsRising(Sort(ps), 0);
    }
  }

  lemma {:induction false} ListEncodable(ps: seq<Parameter>, previous: u64)
    ensures EncodeList(ps, previous).Some? <==>
            && (forall p :: p in ps ==> Known(p))
            && (if previous == 0 && ps != [] then Rising(ps[1..], ps[0].kind) else Rising(ps, previous))
    decreases |ps|
  {
    if ps != [] {
      assert (forall p :: p in ps ==> Known(p)) <==> Known(ps[0]) && (forall p :: p in ps[1..] ==> Known(p)) by {
        assert ps == [ps[0]] + ps[1..];
      }
      if Known(ps[0]) {
        assert ps[0].kind != 0;
        ListEncodable(ps[1..], ps[0].kind);
      }
    }
  }

  lemma {:induction false} RisingIsDistinct(ps: seq<Parameter>, previous: u64)
    requires if previous == 0 && ps != [] then Rising(ps[1..], ps[0].kind) else Rising(ps, previous)
    ensures Distinct(ps)
  {
    if ps != [] {
      RisingAbove(ps[1..], ps[0].kind);
      assert ps == [ps[0]] + ps[1..];
    }
  }

  lemma {:induction false} RisingAbove(ps: seq<Parameter>, previous: u64)
    requires Rising(ps, previous)
    ensures Distinct(ps) && forall p :: p in ps ==> previous < p.kind
    decreases |ps|
  {
    if ps != [] {
      RisingAbove(ps[1..], ps[0].kind);
      assert ps == [ps[0]] + ps[1..];
    }
  }

  lemma {:induction false} DistinctIsRising(ps: seq<Parameter>, previous: u64)
    requires Ordered(ps) && Distinct(ps) && (ps != [] && previous != 0 ==> previous < ps[0].kind)
    ensures if previous == 0 && ps != [] then Rising(ps[1..], ps[0].kind) else Rising(ps, previous)
    decreases |ps|
  {
    if |ps| > 1 {
      assert ps[1] == ps[1..][0];
      DistinctIsRising(ps[1..], ps[0].kind);
    }
  }

  lemma {:induction false} DistinctKept(ps: seq<Parameter>)
    ensures Distinct(Sort(ps)) <==> Distinct(ps)
  {
    if ps != [] {
      DistinctKept(ps[1..]);
      InsertDistinct(ps[0], Sort(ps[1..]));
      SortKeepsMembers(ps[1..]);
    }
  }

  lemma {:induction false} InsertDistinct(p: Parameter, ps: seq<Parameter>)
    ensures Distinct(Insert(p, ps)) <==> Distinct(ps) && forall q :: q in ps ==> q.kind != p.kind
    ensures forall q :: q in Insert(p, ps) <==> q == p || q in ps
    decreases |ps|
  {
    if ps == [] || p.kind <= ps[0].kind {
      assert ([p] + ps)[1..] == ps;
    } else {
      InsertDistinct(p, ps[1..]);
      assert ps == [ps[0]] + ps[1..];
      var r := [ps[0]] + Insert(p, ps[1..]);
      assert r[1..] == Insert(p, ps[1..]);
      assert p in Insert(p, ps[1..]);
    }
  }
}

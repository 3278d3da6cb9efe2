/**
 * The parameters of SUBSCRIBE and REQUEST_UPDATE that a publisher acts on, and what a filter that
 * has been accepted means: its range never wraps around.
 */
module SubscriptionOptions {
  import opened Basics
  import opened SubgroupWire
  import opened ControlFields
  import opened Parameters
  import opened Publishing
  import Varint

  const OBJECT_TIMEOUT: u64 := 0x02
  const SUBGROUP_TIMEOUT: u64 := 0x06
  const FORWARD: u64 := 0x10
  const FILTER: u64 := 0x21
  const GROUP_ORDER: u64 := 0x22

  const NO_OPTIONS := Options(None, None, None, None)

  function KindOfFilter(n: u64): Option<FilterKind> {
    match n
    case 1 => Some(NextGroupStart)
    case 2 => Some(LargestObject)
    case 3 => Some(AbsoluteStart)
    case 4 => Some(AbsoluteRange)
    case _ => None
  }

  function FilterNumber(k: FilterKind): (n: u64)
    ensures KindOfFilter(n) == Some(k)
  {
    match k
    case NextGroupStart => 1
    case LargestObject => 2
    case AbsoluteStart => 3
    case AbsoluteRange => 4
  }

  predicate HasStart(k: FilterKind) {
    k.AbsoluteStart? || k.AbsoluteRange?
  }

  /** The filter behind its length. */
  function TakeFilter(s: bytes): Parse<Filter> {
    var (size, s0) :- Varint.Take(s);
    if size != |s0| then Bad else
    var (number, s1) :- Varint.Take(s0);
    if KindOfFilter(number).None? then Bad else
    var kind := KindOfFilter(number).value;
    var (start, s2) :- TakeStart(s1, kind);
    var (delta, s3) :- TakeDelta(s2, kind);
    if delta > MAX64 - start.group then Bad else Done(Filter(kind, start, delta), s3)
  }

  function TakeStart(s: bytes, kind: FilterKind): Parse<Location> {
    if !HasStart(kind) then Done(Location(0, 0), s) else
    var (group, s0) :- Varint.Take(s);
    var (id, s1) :- Varint.Take(s0);
    Done(Location(group, id), s1)
  }

  function TakeDelta(s: bytes, kind: FilterKind): Parse<u64> {
    if kind.AbsoluteRange? then Varint.Take(s) else Done(0, s)
  }

  /** One parameter: the options after it, or None if its value is invalid. */
  function WithParameter(o: Options, p: Parameter): Option<Options> {
    if p.kind == FORWARD then
      match TakeByte(p.value)
      case Done(b, rest) => if b <= 1 && rest == [] then Some(o.(forward := Some(b == 1))) else None
      case _ => None
    else if p.kind == GROUP_ORDER then
      match TakeByte(p.value)
      case Done(b, rest) => if 1 <= b <= 2 && rest == [] then Some(o) else None
      case _ => None
    else if p.kind == FILTER then
      match TakeFilter(p.value)
      case Done(f, rest) => if rest == [] then Some(o.(filter := Some(f))) else None
      case _ => None
    else if p.kind == SUBGROUP_TIMEOUT then
      match Varint.Take(p.value)
      case Done(n, rest) => if rest == [] then Some(o.(subgroupTimeout := Some(n))) else None
      case _ => None
    else if p.kind == OBJECT_TIMEOUT then
      match Varint.Take(p.value)
      case Done(n, rest) => if rest == [] then Some(o.(objectTimeout := Some(n))) else None
      case _ => None
    else Some(o)
  }

  /** decode_subscription_options. */
  function Decode(ps: seq<Parameter>): Option<Options> {
    if ps == [] then Some(NO_OPTIONS)
    else match Decode(ps[..|ps| - 1])
      case Some(o) => WithParameter(o, ps[|ps| - 1])
      case None => None
  }

  /** The loop of decode_subscription_options. */
  method DecodeOptions(ps: seq<Parameter>) returns (r: Option<Options>)
    ensures r == Decode(ps)
  {
    var o := NO_OPTIONS;
    var i := 0;
    while i < |ps|
      invariant 0 <= i <= |ps|
      invariant Decode(ps[..i]) == Some(o)
    {
      assert ps[..i + 1][..i] == ps[..i];
      var next := WithParameter(o, ps[i]);
      if next.None? {
        DecodeFails(ps, i + 1);
        return None;
      }
      o := next.value;
      i := i + 1;
    }
    assert ps[..|ps|] == ps;
    r := Some(o);
  }

  lemma {:induction false} DecodeFails(ps: seq<Parameter>, n: nat)
    requires n <= |ps| && Decode(ps[..n]).None?
    ensures Decode(ps).None?
    decreases |ps| - n
  {
    if n == |ps| {
      assert ps[..n] == ps;
    } else {
      assert ps[..n + 1][..n] == ps[..n];
      DecodeFails(ps, n + 1);
    }
  }

  /** The range that was asked for does not run past the last group there can be. */
  predicate InBounds(f: Filter) {
    f.start.group + f.endDelta <= MAX64
  }

  lemma {:induction false} DecodedFilter(ps: seq<Parameter>)
    requires Decode(ps).Some? && Decode(ps).value.filter.Some?
    ensures InBounds(Decode(ps).value.filter.value)
  {
    hide TakeFilter, Varint.Take, InBounds;
    if ps != [] {
      var o := Decode(ps[..|ps| - 1]).value;
      if o.filter.Some? {
        DecodedFilter(ps[..|ps| - 1]);
      }
      FilterBounds(ps[|ps| - 1].value);
    }
  }

  lemma FilterBounds(s: bytes)
    ensures TakeFilter(s).Done? ==> InBounds(TakeFilter(s).value)
  {
  }

  /**
   * A decoded range never overflows: it ends `endDelta` groups behind its first group, and so
   * holds exactly the locations from its start on in those groups.
   */
  lemma DecodedRangeExact(ps: seq<Parameter>, largest: Option<Location>, at: Location)
    requires Decode(ps).Some? && Decode(ps).value.filter.Some?
    requires Decode(ps).value.filter.value.kind.AbsoluteRange?
    ensures var f := Decode(ps).value.filter.value;
            && Resolve(f, largest).end == Some(f.start.group + f.endDelta)
            && (InRange(Resolve(f, largest), at) <==>
                !LocationLess(at, f.start) && at.group - f.start.group <= f.endDelta)
  {
    hide Decode;
    DecodedFilter(ps);
  }

  /** The bytes of a filter, as the draft lays them out. */
  function FilterBytes(f: Filter): bytes {
    Varint.Encode(FilterNumber(f.kind)) + (StartBytes(f) + DeltaBytes(f))
  }

  function StartBytes(f: Filter): bytes {
    if HasStart(f.kind) then Varint.Encode(f.start.group) + Varint.Encode(f.start.id) else []
  }

  function DeltaBytes(f: Filter): bytes {
    if f.kind.AbsoluteRange? then Varint.Encode(f.endDelta) else []
  }

  /** The fields that a filter of its kind carries. */
  function Meant(f: Filter): Filter {
    f.(start := if HasStart(f.kind) then f.start else Location(0, 0),
       endDelta := if f.kind.AbsoluteRange? then f.endDelta else 0)
  }

  lemma FilterBytesShort(f: Filter)
    ensures |FilterBytes(f)| <= 36
  {
    hide Varint.Encode;
  }

  /** A filter that is sent as a length-prefixed value is understood if and only if its range does not overflow. */
  lemma FilterRoundTrip(o: Options, f: Filter)
    ensures |FilterBytes(f)| <= 36
    ensures WithParameter(o, Parameter(FILTER, EncodeString(FilterBytes(f)))) ==
            if InBounds(Meant(f)) then Some(o.(filter := Some(Meant(f)))) else None
  {
    hide Varint.Take, Varint.Encode, FilterBytes, KindOfFilter, TakeStart, TakeDelta, StartBytes, DeltaBytes;
    FilterBytesShort(f);
    var s := FilterBytes(f);
    Varint.TakeEncoded(|s|, s);
    assert s == Varint.Encode(FilterNumber(f.kind)) + (StartBytes(f) + DeltaBytes(f)) by { Unfolded(f); }
    Varint.TakeEncoded(FilterNumber(f.kind), StartBytes(f) + DeltaBytes(f));
    StartRoundTrip(f, DeltaBytes(f));
    DeltaRoundTrip(f);
  }

  lemma Unfolded(f: Filter)
    ensures FilterBytes(f) == Varint.Encode(FilterNumber(f.kind)) + (StartBytes(f) + DeltaBytes(f))
  {
  }

  lemma StartRoundTrip(f: Filter, t: bytes)
    ensures TakeStart(StartBytes(f) + t, f.kind) == Done(Meant(f).start, t)
  {
    hide Varint.Take, Varint.Encode;
    if HasStart(f.kind) {
      Associative(Varint.Encode(f.start.group), Varint.Encode(f.start.id), t);
      Varint.TakeEncoded(f.start.group, Varint.Encode(f.start.id) + t);
      Varint.TakeEncoded(f.start.id, t);
    } else {
      assert [] + t == t;
    }
  }

  lemma DeltaRoundTrip(f: Filter)
    ensures TakeDelta(DeltaBytes(f), f.kind) == Done(Meant(f).endDelta, [])
  {
    hide Varint.Take, Varint.Encode;
    assert Varint.Encode(f.endDelta) + [] == Varint.Encode(f.endDelta);
    Varint.TakeEncoded(f.endDelta, []);
  }

  // ----- options as a subscriber states them -----

  function Listed(p: Option<Parameter>): seq<Parameter> {
    match p
    case Some(value) => [value]
    case None => []
  }

  function NumberParameter(kind: u64, n: Option<u64>): Option<Parameter> {
    match n
    case Some(value) => Some(Parameter(kind, Varint.Encode(value)))
    case None => None
  }

  function ForwardParameter(forward: Option<bool>): Option<Parameter> {
    match forward
    case Some(on) => Some(Parameter(FORWARD, [if on then 1 else 0]))
    case None => None
  }

  function FilterParameter(filter: Option<Filter>): Option<Parameter> {
    match filter
    case Some(f) =>
      FilterBytesShort(f);
      Some(Parameter(FILTER, EncodeString(FilterBytes(f))))
    case None => None
  }

  /** The parameters that state the options, built by the constructors for their types. */
  function OptionParameters(o: Options): (ps: seq<Parameter>)
    ensures |ps| <= 4
  {
    Listed(NumberParameter(OBJECT_TIMEOUT, o.objectTimeout))
    + Listed(NumberParameter(SUBGROUP_TIMEOUT, o.subgroupTimeout))
    + Listed(ForwardParameter(o.forward)) + Listed(FilterParameter(o.filter))
  }

  /** The options as they are understood. */
  function Understood(o: Options): Options {
    o.(filter := match o.filter case Some(f) => Some(Meant(f)) case None => None)
  }

  predicate OptionsInBounds(o: Options) {
    o.filter.Some? ==> InBounds(Meant(o.filter.value))
  }

  /** One more parameter, if it is there. */
  function WithListed(o: Option<Options>, p: Option<Parameter>): Option<Options> {
    match p
    case Some(value) => if o.Some? then WithParameter(o.value, value) else None
    case None => o
  }

  lemma DecodeListed(ps: seq<Parameter>, p: Option<Parameter>)
    ensures Decode(ps + Listed(p)) == WithListed(Decode(ps), p)
  {
    hide WithParameter;
    if p.Some? {
      assert (ps + [p.value])[..|ps|] == ps;
    } else {
      assert ps + [] == ps;
    }
  }

  lemma NumberDecodes(o: Options, n: u64)
    ensures WithParameter(o, Parameter(OBJECT_TIMEOUT, Varint.Encode(n))) == Some(o.(objectTimeout := Some(n)))
    ensures WithParameter(o, Parameter(SUBGROUP_TIMEOUT, Varint.Encode(n))) == Some(o.(subgroupTimeout := Some(n)))
  {
    hide Varint.Take, Varint.Encode, TakeFilter;
    assert Varint.Encode(n) + [] == Varint.Encode(n);
    Varint.TakeEncoded(n, []);
  }

  /** Whatever options are stated, the publisher understands exactly those, or none if the range overflows. */
  lemma OptionsRoundTrip(o: Options)
    ensures Decode(OptionParameters(o)) == if OptionsInBounds(o) then Some(Understood(o)) else None
  {
    hide Decode, WithParameter, Varint.Encode, EncodeString, FilterBytes, Meant, InBounds;
    var a, b := NumberParameter(OBJECT_TIMEOUT, o.objectTimeout), NumberParameter(SUBGROUP_TIMEOUT, o.subgroupTimeout);
    var c, d := ForwardParameter(o.forward), FilterParameter(o.filter);
    assert Decode([]) == Some(NO_OPTIONS) by { DecodeNothing(); }
    assert [] + Listed(a) == Listed(a);
    DecodeListed([], a);
    DecodeListed(Listed(a), b);
    DecodeListed(Listed(a) + Listed(b), c);
    DecodeListed(Listed(a) + Listed(b) + Listed(c), d);
    var o1 := NO_OPTIONS.(objectTimeout := o.objectTimeout);
    var o2 := o1.(subgroupTimeout := o.subgroupTimeout);
    var o3 := o2.(forward := o.forward);
    if o.objectTimeout.Some? {
      NumberDecodes(NO_OPTIONS, o.objectTimeout.value);
    }
    if o.subgroupTimeout.Some? {
      NumberDecodes(o1, o.subgroupTimeout.value);
    }
    if o.forward.Some? {
      ForwardDecodes(o2, o.forward.value);
    }
    assert WithListed(Some(o2), c) == Some(o3);
    if o.filter.Some? {
      FilterRoundTrip(o3, o.filter.value);
    }
  }

  lemma DecodeNothing()
    ensures Decode([]) == Some(NO_OPTIONS)
  {
  }

  lemma ForwardDecodes(o: Options, on: bool)
    ensures WithParameter(o, Parameter(FORWARD, [if on then 1 else 0])) == Some(o.(forward := Some(on)))
  {
    hide TakeFilter, Varint.Take;
    var v: bytes := [if on then 1 else 0];
    assert v[1..] == [];
  }

  /** Stated options can be sent: their types rise and their values are well formed. */
  lemma OptionsCanBeSent(o: Options)
    ensures Parameters.Rising(OptionParameters(o), 0) && AllWellFormed(OptionParameters(o))
  {
    hide OptionParameters, EncodingOf, WellFormed, Parameters.Rising;
    OptionsRise(o);
    forall p | p in OptionParameters(o) ensures Known(p) && WellFormed(EncodingOf(p.kind).value, p.value) {
      ListedWellFormed(o, p);
    }
  }

  lemma OptionsRise(o: Options)
    ensures Parameters.Rising(OptionParameters(o), 0)
  {
    hide Varint.Encode, EncodeString, FilterBytes, Listed, Parameters.Rising;
    FourRise(NumberParameter(OBJECT_TIMEOUT, o.objectTimeout), NumberParameter(SUBGROUP_TIMEOUT, o.subgroupTimeout),
             ForwardParameter(o.forward), FilterParameter(o.filter));
  }

  lemma FourRise(a: Option<Parameter>, b: Option<Parameter>, c: Option<Parameter>, d: Option<Parameter>)
    requires HasKind(a, OBJECT_TIMEOUT) && HasKind(b, SUBGROUP_TIMEOUT) && HasKind(c, FORWARD) && HasKind(d, FILTER)
    ensures Parameters.Rising(Listed(a) + Listed(b) + Listed(c) + Listed(d), 0)
  {
    hide Listed, HasKind, Parameters.Rising;
    assert Listed(d) + [] == Listed(d);
    assert Parameters.Rising([], FILTER) by { NothingRises(); }
    RisingListed(d, FILTER, [], FORWARD);
    RisingListed(c, FORWARD, Listed(d), SUBGROUP_TIMEOUT);
    RisingListed(b, SUBGROUP_TIMEOUT, Listed(c) + Listed(d), OBJECT_TIMEOUT);
    RisingListed(a, OBJECT_TIMEOUT, Listed(b) + (Listed(c) + Listed(d)), 0);
    Regrouped(Listed(a), Listed(b), Listed(c), Listed(d));
  }

  lemma NothingRises()
    ensures Parameters.Rising([], FILTER)
  {
  }

  lemma Regrouped(a: seq<Parameter>, b: seq<Parameter>, c: seq<Parameter>, d: seq<Parameter>)
    ensures a + b + c + d == a + (b + (c + d))
  {
  }

  predicate HasKind(p: Option<Parameter>, kind: u64) {
    p.Some? ==> p.value.kind == kind
  }

  lemma RisingListed(p: Option<Parameter>, kind: u64, rest: seq<Parameter>, previous: u64)
    requires HasKind(p, kind) && previous < kind && Parameters.Rising(rest, kind)
    ensures Parameters.Rising(Listed(p) + rest, previous)
  {
    if p.Some? {
      assert ([p.value] + rest)[1..] == rest;
    } else {
      assert [] + rest == rest;
    }
  }

  lemma ListedWellFormed(o: Options, p: Parameter)
    requires p in OptionParameters(o)
    ensures Known(p) && WellFormed(EncodingOf(p.kind).value, p.value)
  {
    hide Varint.Encode, EncodeString, FilterBytes, WellFormed;
    if o.objectTimeout.Some? && p == Parameter(OBJECT_TIMEOUT, Varint.Encode(o.objectTimeout.value)) {
      ConstructorsWellFormed(0, o.objectTimeout.value, 0, [], []);
    } else if o.subgroupTimeout.Some? && p == Parameter(SUBGROUP_TIMEOUT, Varint.Encode(o.subgroupTimeout.value)) {
      ConstructorsWellFormed(0, o.subgroupTimeout.value, 0, [], []);
    } else if o.forward.Some? && p.kind == FORWARD {
      ConstructorsWellFormed(if o.forward.value then 1 else 0, 0, 0, [], []);
    } else {
      FilterBytesShort(o.filter.value);
      ConstructorsWellFormed(0, 0, 0, FilterBytes(o.filter.value), []);
    }
  }
}

/** SETUP: a list of options, types as differences, odd types with a length-prefixed value. */
module Setup {
  import opened Basics
  import opened SubgroupWire
  import opened ControlFields
  import ControlFrames
  import Varint

  const MESSAGE: u64 := 0x2f00
  const PATH: u64 := 0x01
  const AUTHORITY: u64 := 0x05
  const IMPLEMENTATION: u64 := 0x07
  /** "kota-moqtopus" */
  const NAME: bytes := [107, 111, 116, 97, 45, 109, 111, 113, 116, 111, 112, 117, 115]

  datatype SetupOption = SetupOption(kind: u64, value: buffer)

  /** The options that encode_setup writes: the empty ones are left out. */
  function Offered(authority: buffer, path: buffer): seq<SetupOption> {
    NonEmpty(SetupOption(PATH, path))
    + (NonEmpty(SetupOption(AUTHORITY, authority)) + [SetupOption(IMPLEMENTATION, NAME)])
  }

  function NonEmpty(o: SetupOption): seq<SetupOption> {
    if o.value == [] then [] else [o]
  }

  predicate Rising(options: seq<SetupOption>, previous: u64) {
    options == [] || (previous <= options[0].kind && Rising(options[1..], options[0].kind))
  }

  function EncodeOptions(options: seq<SetupOption>, previous: u64): bytes
    requires Rising(options, previous)
  {
    if options == [] then []
    else Varint.Encode(options[0].kind - previous)
         + (EncodeString(options[0].value) + EncodeOptions(options[1..], options[0].kind))
  }

  /** Odd types carry a length. */
  predicate HasLength(kind: u64) {
    kind % 2 == 1
  }

  /** One option; its value is not kept. */
  function TakeOption(s: bytes, kind: u64): (r: Parse<u64>)
    ensures r.Done? ==> |r.rest| < |s|
  {
    var (delta, s0) :- Varint.Take(s);
    if delta > MAX64 - kind then Bad
    else if HasLength(kind + delta) then
      var (_, s1) :- TakeString(s0, MAX_VALUE);
      Done(kind + delta, s1)
    else
      var (_, s1) :- Varint.Take(s0);
      Done(kind + delta, s1)
  }

  /** decode_setup: only whether the list is well formed matters. */
  predicate Accepts(s: bytes, kind: u64)
    decreases |s|
  {
    s == [] ||
    match TakeOption(s, kind)
    case Done(next, rest) => Accepts(rest, next)
    case _ => false
  }

  lemma RisingFrom(o: SetupOption, rest: seq<SetupOption>, previous: u64)
    requires previous <= o.kind && Rising(rest, o.kind)
    ensures Rising(NonEmpty(o) + rest, previous)
  {
    var all := NonEmpty(o) + rest;
    assert o.value != [] ==> all[1..] == rest;
    assert o.value == [] ==> all == rest;
  }

  lemma OfferedRises(authority: buffer, path: buffer)
    ensures Rising(Offered(authority, path), 0)
  {
    var last := SetupOption(IMPLEMENTATION, NAME);
    RisingFrom(last, [], AUTHORITY);
    assert NonEmpty(last) + [] == [last];
    RisingFrom(SetupOption(AUTHORITY, authority), [last], PATH);
    RisingFrom(SetupOption(PATH, path), NonEmpty(SetupOption(AUTHORITY, authority)) + [last], 0);
  }

  lemma OfferedMembers(authority: buffer, path: buffer)
    ensures forall o :: o in Offered(authority, path) ==> HasLength(o.kind)
    ensures forall o :: o in Offered(authority, path) ==> o.value == path || o.value == authority || o.value == NAME
    ensures path != [] ==> SetupOption(PATH, path) in Offered(authority, path)
    ensures authority != [] ==> SetupOption(AUTHORITY, authority) in Offered(authority, path)
  {
  }

  predicate Within(options: seq<SetupOption>) {
    forall o :: o in options ==> |o.value| <= MAX_VALUE
  }

  lemma WithinFirst(options: seq<SetupOption>)
    requires options != []
    ensures Within(options) <==> |options[0].value| <= MAX_VALUE && Within(options[1..])
    ensures options[0] in options && forall o :: o in options[1..] ==> o in options
  {
    assert options == [options[0]] + options[1..];
  }

  lemma TakeFirst(o: SetupOption, previous: u64, rest: bytes)
    requires previous <= o.kind && HasLength(o.kind)
    ensures TakeOption(Varint.Encode(o.kind - previous) + (EncodeString(o.value) + rest), previous) ==
            if |o.value| <= MAX_VALUE then Done(o.kind, rest) else Bad
  {
    hide Varint.Take, Varint.Encode, TakeString, EncodeString, HasLength, TakeOption;
    var s0 := EncodeString(o.value) + rest;
    Varint.TakeEncoded(o.kind - previous, s0);
    StringRoundTrip(o.value, MAX_VALUE, rest);
    TakeLong(Varint.Encode(o.kind - previous) + s0, previous, o.kind - previous, s0);
  }

  lemma TakeLong(s: bytes, kind: u64, delta: u64, s0: bytes)
    requires Varint.Take(s) == Done(delta, s0) && kind + delta <= MAX64 && HasLength(kind + delta)
    ensures TakeOption(s, kind) == match TakeString(s0, MAX_VALUE)
                                   case Done(_, s1) => Done(kind + delta, s1)
                                   case More => More
                                   case Bad => Bad
  {
    hide Varint.Take, TakeString, HasLength;
  }

  /** A list of odd options is accepted if and only if no value is over the limit. */
  lemma {:induction false} OptionsAccepted(options: seq<SetupOption>, previous: u64)
    requires Rising(options, previous) && forall o :: o in options ==> HasLength(o.kind)
    ensures Accepts(EncodeOptions(options, previous), previous) <==> Within(options)
    decreases |options|
  {
    hide Varint.Encode, EncodeString, Within, TakeOption, HasLength;
    if options == [] {
      assert Within(options) by { NoneWithin(); }
    } else {
      WithinFirst(options);
      TakeFirst(options[0], previous, EncodeOptions(options[1..], options[0].kind));
      OptionsAccepted(options[1..], options[0].kind);
    }
  }

  lemma NoneWithin()
    ensures Within([])
  {
  }

  /** The SETUP of one side is accepted by the other exactly when authority and path are within the limit. */
  lemma SetupAccepted(authority: buffer, path: buffer)
    ensures Rising(Offered(authority, path), 0)
    ensures Accepts(EncodeOptions(Offered(authority, path), 0), 0) <==> |authority| <= MAX_VALUE && |path| <= MAX_VALUE
  {
    hide Accepts, EncodeOptions, Offered, Rising;
    OfferedRises(authority, path);
    OfferedMembers(authority, path);
    OptionsAccepted(Offered(authority, path), 0);
  }

  /** encode_setup: the framed message, or None where it throws because the options do not fit. */
  function EncodeSetup(authority: buffer, path: buffer): Option<bytes> {
    OfferedRises(authority, path);
    ControlFrames.Encode(ControlFrames.Message(MESSAGE, EncodeOptions(Offered(authority, path), 0)))
  }

  lemma {:induction false} ValuesFit(options: seq<SetupOption>, previous: u64)
    requires Rising(options, previous)
    ensures forall o :: o in options ==> |o.value| <= |EncodeOptions(options, previous)|
    decreases |options|
  {
    hide Varint.Encode;
    if options != [] {
      ValuesFit(options[1..], options[0].kind);
      assert options == [options[0]] + options[1..];
    }
  }

  /**
   * From encoder to decoder: whenever encode_setup does not throw, which is exactly when the options
   * take at most 65535 bytes, the SETUP is read off the stream and accepted.
   */
  lemma SetupArrives(authority: buffer, path: buffer, tail: bytes)
    ensures Rising(Offered(authority, path), 0)
    ensures EncodeSetup(authority, path).Some? <==> |EncodeOptions(Offered(authority, path), 0)| <= MAX_VALUE
    ensures EncodeSetup(authority, path).Some? ==>
              var r := ControlFrames.Read(EncodeSetup(authority, path).value + tail);
              r.Done? && r.rest == tail && r.value.kind == MESSAGE && Accepts(r.value.payload, 0)
  {
    hide Accepts, EncodeOptions, Offered, Rising, ControlFrames.Read;
    OfferedRises(authority, path);
    var options := Offered(authority, path);
    var payload := EncodeOptions(options, 0);
    if |payload| <= MAX_VALUE {
      ValuesFit(options, 0);
      OfferedMembers(authority, path);
      SetupAccepted(authority, path);
      ControlFrames.FrameRoundTrip(ControlFrames.Message(MESSAGE, payload), tail);
    }
  }

  /** The loop of decode_setup. */
  method Decode(payload: bytes) returns (r: bool)
    ensures r == Accepts(payload, 0)
  {
    hide TakeOption;
    var s := payload;
    var kind: u64 := 0;
    while s != []
      invariant Accepts(s, kind) == Accepts(payload, 0)
      decreases |s|
    {
      var option := TakeOption(s, kind);
      if !option.Done? {
        return false;
      }
      kind := option.value;
      s := option.rest;
    }
    r := true;
  }
}

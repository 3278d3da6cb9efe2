/** What the control decoders make of what a peer may write and this implementation does not. */
module CodecForms {
  import opened Basics
  import opened SubgroupWire
  import opened ControlFields
  import opened ControlMessages
  import opened Parameters
  import ControlFrames
  import Setup
  import SubscriptionOptions
  import Varint

  // ----- SETUP options -----

  /** An option of SETUP: an odd type has a string, an even one a number. */
  datatype Setting = Text(kind: u64, value: buffer) | Number(kind: u64, number: u64)

  predicate Fitting(s: Setting) {
    s.Text? <==> s.kind % 2 == 1
  }

  /** Types rise, or repeat, and have the parity of what they carry. */
  predicate Listable(settings: seq<Setting>, previous: u64) {
    settings == [] ||
    (previous <= settings[0].kind && Fitting(settings[0]) && Listable(settings[1..], settings[0].kind))
  }

  function SettingBytes(settings: seq<Setting>, previous: u64): bytes
    requires Listable(settings, previous)
  {
    if settings == [] then [] else
    Varint.Encode(settings[0].kind - previous) + (ValueBytes(settings[0])
    + SettingBytes(settings[1..], settings[0].kind))
  }

  function ValueBytes(s: Setting): bytes {
    match s
    case Text(_, value) => EncodeString(value)
    case Number(_, value) => Varint.Encode(value)
  }

  /** No string is longer than 65535 bytes. */
  predicate Short(settings: seq<Setting>) {
    forall i :: 0 <= i < |settings| && settings[i].Text? ==> |settings[i].value| <= 65535
  }

  /** One option in front of others. */
  lemma OneSetting(s: Setting, previous: u64, tail: bytes)
    requires previous <= s.kind && Fitting(s)
    ensures Setup.TakeOption(Varint.Encode(s.kind - previous) + (ValueBytes(s) + tail), previous) ==
            if s.Text? && |s.value| > 65535 then Bad else Done(s.kind, tail)
  {
    hide Varint.Encode, Varint.Take, TakeString, Setup.TakeOption, Setup.HasLength, ValueBytes, Fitting;
    var delta: u64 := s.kind - previous;
    var rest := ValueBytes(s) + tail;
    Varint.TakeEncoded(delta, rest);
    Parity(s);
    ValueTaken(s, tail);
    OptionTaken(Varint.Encode(delta) + rest, previous, delta, rest);
  }

  lemma OptionTaken(b: bytes, kind: u64, delta: u64, rest: bytes)
    requires Varint.Take(b) == Done(delta, rest) && kind + delta <= MAX64
    ensures var text, number := TakeString(rest, MAX_VALUE), Varint.Take(rest);
            Setup.TakeOption(b, kind) ==
            if Setup.HasLength(kind + delta) then
              (match text case Done(_, left) => Done(kind + delta, left) case More => More case Bad => Bad)
            else (match number case Done(_, left) => Done(kind + delta, left) case More => More case Bad => Bad)
  {
    hide Varint.Take, TakeString, Setup.HasLength;
  }

  lemma ValueTaken(s: Setting, tail: bytes)
    ensures s.Text? ==> TakeString(ValueBytes(s) + tail, MAX_VALUE) ==
                        if |s.value| <= 65535 then Done(s.value, tail) else Bad
    ensures s.Number? ==> Varint.Take(ValueBytes(s) + tail) == Done(s.number, tail)
  {
    hide Varint.Encode, Varint.Take, TakeString, EncodeString;
    match s {
      case Text(_, value) => StringExact(value, tail);
      case Number(_, number) => Varint.TakeEncoded(number, tail);
    }
  }

  lemma Parity(s: Setting)
    requires Fitting(s)
    ensures Setup.HasLength(s.kind) <==> s.Text?
  {
  }

  lemma AcceptsOne(s: bytes, kind: u64)
    requires s != []
    ensures Setup.Accepts(s, kind) <==>
            Setup.TakeOption(s, kind).Done?
            && Setup.Accepts(Setup.TakeOption(s, kind).rest, Setup.TakeOption(s, kind).value)
  {
    hide Setup.TakeOption;
  }

  /** A SETUP with any options, known or not, is accepted if and only if its strings are short enough. */
  lemma {:induction false} SettingsAccepted(settings: seq<Setting>, previous: u64)
    requires Listable(settings, previous)
    ensures Setup.Accepts(SettingBytes(settings, previous), previous) <==> Short(settings)
    decreases |settings|
  {
    hide Varint.Encode, Setup.TakeOption, ValueBytes, Short, Setup.Accepts, Listable, SettingBytes, Fitting;
    FirstSetting(settings, previous);
    if settings == [] {
      assert Short([]) && Setup.Accepts([], previous) by { NoneLong(previous); }
    } else {
      var s, rest := settings[0], settings[1..];
      var tail := SettingBytes(rest, s.kind);
      OneSetting(s, previous, tail);
      NotNothing(s.kind - previous, ValueBytes(s) + tail);
      AcceptsOne(SettingBytes(settings, previous), previous);
      SettingsAccepted(rest, s.kind);
      FirstShort(settings);
    }
  }

  lemma FirstSetting(settings: seq<Setting>, previous: u64)
    requires Listable(settings, previous)
    ensures settings == [] ==> SettingBytes(settings, previous) == []
    ensures settings != [] ==>
              var s := settings[0];
              && previous <= s.kind && Fitting(s) && Listable(settings[1..], s.kind)
              && SettingBytes(settings, previous) ==
                 Varint.Encode(s.kind - previous) + (ValueBytes(s) + SettingBytes(settings[1..], s.kind))
  {
    hide Varint.Encode, ValueBytes;
  }

  lemma NoneLong(kind: u64)
    ensures Short([]) && Setup.Accepts([], kind)
  {
  }

  lemma NotNothing(n: u64, tail: bytes)
    ensures Varint.Encode(n) + tail != []
  {
    assert |Varint.Encode(n)| >= 1;
  }

  lemma FirstShort(settings: seq<Setting>)
    requires settings != []
    ensures Short(settings) <==> (settings[0].Text? ==> |settings[0].value| <= 65535) && Short(settings[1..])
  {
    assert forall i :: 0 <= i < |settings| - 1 ==> settings[1..][i] == settings[i + 1];
    assert forall i :: 1 <= i < |settings| ==> settings[i] == settings[1..][i - 1];
  }

  lemma StringExact(value: buffer, tail: bytes)
    ensures TakeString(EncodeString(value) + tail, MAX_VALUE) ==
            if |value| <= 65535 then Done(value, tail) else Bad
  {
    hide Varint.Encode, Varint.Take, TakeView;
    Associative(Varint.Encode(|value|), value, tail);
    Varint.TakeEncoded(|value|, value + tail);
    TakeViewFront(value, tail);
  }

  // ----- parameters -----

  /** The parameter types of the protocol and what each carries; any other is refused. */
  lemma ParameterTypes(kind: u64)
    ensures EncodingOf(kind) ==
            if kind in {0x02, 0x04, 0x06, 0x08, 0x0a, 0x32} then Some(Encoding.Number)
            else if kind in {0x03, 0x21} then Some(Prefixed)
            else if kind in {0x10, 0x20, 0x22} then Some(Uint8)
            else if kind == 0x09 then Some(Pair)
            else if kind == 0x34 then Some(Space)
            else None
  {
  }

  /** Parameters that are no options of a subscription are ignored. */
  lemma OtherParametersIgnored(ps: seq<Parameter>, p: Parameter)
    requires p.kind !in {0x02, 0x06, 0x10, 0x21, 0x22}
    ensures SubscriptionOptions.Decode(ps + [p]) == SubscriptionOptions.Decode(ps)
  {
    assert (ps + [p])[..|ps|] == ps;
  }

  /** A filter whose length does not say where it ends is refused. */
  lemma FilterLengthCounts(n: u64, value: bytes)
    requires n != |value|
    ensures SubscriptionOptions.Decode([Parameter(0x21, Varint.Encode(n) + value)]).None?
  {
    hide Varint.Encode, Varint.Take;
    var p := Parameter(0x21, Varint.Encode(n) + value);
    Varint.TakeEncoded(n, value);
    assert [p][..0] == [];
    assert SubscriptionOptions.Decode([]) == Some(SubscriptionOptions.NO_OPTIONS);
  }

  /** So is a filter with bytes behind it, or of an unknown kind. */
  lemma FilterKinds(t: u64, tail: buffer)
    requires t !in {1, 2, 3, 4} && |tail| <= 1000
    ensures |Varint.Encode(t) + tail| <= MAX64
    ensures SubscriptionOptions.Decode([Parameter(0x21, EncodeString(Varint.Encode(t) + tail))]).None?
  {
    hide Varint.Encode, Varint.Take;
    var f := Varint.Encode(t) + tail;
    var p := Parameter(0x21, EncodeString(f));
    Varint.TakeEncoded(|f|, f);
    Varint.TakeEncoded(t, tail);
    assert [p][..0] == [];
    assert SubscriptionOptions.Decode([]) == Some(SubscriptionOptions.NO_OPTIONS);
  }

  // ----- REQUEST_ERROR -----

  /** Only a redirect may carry more than code, interval and reason. */
  lemma RedirectsCarryMore(code: u64, retry: u64, reason: buffer, more: bytes)
    requires |reason| <= 1024 && more != []
    ensures var payload := Varint.Encode(code) + (Varint.Encode(retry) + (EncodeString(reason) + more));
            Decode(ControlFrames.Message(0x05, payload)) ==
            if code == 0x34 then Some(RequestError(code, retry, reason)) else None
  {
    hide Varint.Encode, Varint.Take, TakeString, EncodeString;
    Varint.TakeEncoded(code, Varint.Encode(retry) + (EncodeString(reason) + more));
    Varint.TakeEncoded(retry, EncodeString(reason) + more);
    ReasonExact(reason, more);
  }

  lemma ReasonExact(reason: buffer, tail: bytes)
    requires |reason| <= 1024
    ensures TakeString(EncodeString(reason) + tail, MAX_REASON) == Done(reason, tail)
  {
    hide Varint.Encode, Varint.Take, TakeView;
    Associative(Varint.Encode(|reason|), reason, tail);
    Varint.TakeEncoded(|reason|, reason + tail);
    TakeViewFront(reason, tail);
  }
}

/**
 * The control messages that both sides of a subscription exchange: their payloads, encoded and
 * decoded field by field.
 */
module ControlMessages {
  import opened Basics
  import opened ControlFields
  import opened Parameters
  import opened ControlFrames
  import Varint

  const REQUEST_UPDATE: u64 := 0x02
  const SUBSCRIBE: u64 := 0x03
  const SUBSCRIBE_OK: u64 := 0x04
  const REQUEST_ERROR: u64 := 0x05
  const REQUEST_OK: u64 := 0x07
  const PUBLISH_DONE: u64 := 0x0b
  const REDIRECT: u64 := 0x34

  datatype Control =
    | Subscribe(id: u64, space: seq<bytes>, name: buffer, params: parameters)
    | RequestUpdate(id: u64, params: parameters)
    | SubscribeOk(alias: u64, params: parameters, properties: bytes)
    | RequestOk(params: parameters, properties: bytes)
    | RequestError(code: u64, retry: u64, reason: buffer)
    | PublishDone(status: u64, count: u64, reason: buffer)

  function KindOf(c: Control): u64 {
    match c
    case Subscribe(_, _, _, _) => SUBSCRIBE
    case RequestUpdate(_, _) => REQUEST_UPDATE
    case SubscribeOk(_, _, _) => SUBSCRIBE_OK
    case RequestOk(_, _) => REQUEST_OK
    case RequestError(_, _, _) => REQUEST_ERROR
    case PublishDone(_, _, _) => PUBLISH_DONE
  }

  /** The payload, or None where the encoder throws. The encoder of REQUEST_OK writes no properties. */
  function Payload(c: Control): Option<bytes> {
    match c
    case Subscribe(id, space, name, params) =>
      var s, p := EncodeSpace(space), Parameters.Encode(params);
      if s.None? || p.None? then None
      else Some(Varint.Encode(id) + (s.value + (EncodeString(name) + p.value)))
    case RequestUpdate(id, params) =>
      var p := Parameters.Encode(params);
      if p.None? then None else Some(Varint.Encode(id) + p.value)
    case SubscribeOk(alias, params, properties) =>
      var p := Parameters.Encode(params);
      if p.None? then None else Some(Varint.Encode(alias) + (p.value + properties))
    case RequestOk(params, _) => Parameters.Encode(params)
    case RequestError(code, retry, reason) => Some(Varint.Encode(code) + (Varint.Encode(retry) + EncodeString(reason)))
    case PublishDone(status, count, reason) =>
      Some(Varint.Encode(status) + (Varint.Encode(count) + EncodeString(reason)))
  }

  /** A message as it goes out on a request stream. */
  function EncodeMessage(c: Control): Option<bytes> {
    match Payload(c)
    case Some(p) => ControlFrames.Encode(Message(KindOf(c), p))
    case None => None
  }

  function TakeSubscribe(s: bytes): Parse<Control> {
    var (id, s0) :- Varint.Take(s);
    var (space, s1) :- TakeSpace(s0);
    var (name, s2) :- TakeString(s1, MAX_NAME);
    var (params, s3) :- Parameters.Take(s2);
    Done(Subscribe(id, space, name, params), s3)
  }

  function TakeRequestUpdate(s: bytes): Parse<Control> {
    var (id, s0) :- Varint.Take(s);
    var (params, s1) :- Parameters.Take(s0);
    Done(RequestUpdate(id, params), s1)
  }

  function TakeSubscribeOk(s: bytes): Parse<Control> {
    var (alias, s0) :- Varint.Take(s);
    var (params, s1) :- Parameters.Take(s0);
    Done(SubscribeOk(alias, params, s1), [])
  }

  function TakeRequestOk(s: bytes): Parse<Control> {
    var (params, s0) :- Parameters.Take(s);
    Done(RequestOk(params, s0), [])
  }

  /** The fields behind the reason of a redirect are skipped. */
  function TakeRequestError(s: bytes): Parse<Control> {
    var (code, s0) :- Varint.Take(s);
    var (retry, s1) :- Varint.Take(s0);
    var (reason, s2) :- TakeString(s1, MAX_REASON);
    Done(RequestError(code, retry, reason), if code == REDIRECT then [] else s2)
  }

  function TakePublishDone(s: bytes): Parse<Control> {
    var (status, s0) :- Varint.Take(s);
    var (count, s1) :- Varint.Take(s0);
    var (reason, s2) :- TakeString(s1, MAX_REASON);
    Done(PublishDone(status, count, reason), s2)
  }

  function TakeFields(kind: u64, s: bytes): Parse<Control> {
    if kind == SUBSCRIBE then TakeSubscribe(s)
    else if kind == REQUEST_UPDATE then TakeRequestUpdate(s)
    else if kind == SUBSCRIBE_OK then TakeSubscribeOk(s)
    else if kind == REQUEST_OK then TakeRequestOk(s)
    else if kind == REQUEST_ERROR then TakeRequestError(s)
    else if kind == PUBLISH_DONE then TakePublishDone(s)
    else Bad
  }

  /** The decoder of the message's type, which takes the whole payload or nothing. */
  function Decode(m: Message): Option<Control> {
    match TakeFields(m.kind, m.payload)
    case Done(c, rest) => if rest == [] then Some(c) else None
    case _ => None
  }

  /** What the peer makes of a message: parameters in the order of their types. */
  function Canonical(c: Control): Control {
    match c
    case Subscribe(id, space, name, params) => Subscribe(id, space, name, Sort(params))
    case RequestUpdate(id, params) => RequestUpdate(id, Sort(params))
    case SubscribeOk(alias, params, properties) => SubscribeOk(alias, Sort(params), properties)
    case RequestOk(params, _) => RequestOk(Sort(params), [])
    case _ => c
  }

  /** The limits that only the decoder checks. */
  predicate Receivable(c: Control) {
    match c
    case Subscribe(_, _, name, params) => |name| <= MAX_NAME && AllWellFormed(params)
    case RequestUpdate(_, params) => AllWellFormed(params)
    case SubscribeOk(_, params, _) => AllWellFormed(params)
    case RequestOk(params, _) => AllWellFormed(params)
    case RequestError(_, _, reason) => |reason| <= MAX_REASON
    case PublishDone(_, _, reason) => |reason| <= MAX_REASON
  }

  lemma SubscribeRoundTrip(c: Control)
    requires c.Subscribe? && Payload(c).Some?
    ensures TakeSubscribe(Payload(c).value) == Done(Canonical(c), []) <==> Receivable(c)
  {
    hide Varint.Take, Varint.Encode, TakeSpace, EncodeSpace, TakeString, EncodeString, Parameters.Take,
         Parameters.Encode, AllWellFormed, Sort;
    var s, p := EncodeSpace(c.space).value, Parameters.Encode(c.params).value;
    Varint.TakeEncoded(c.id, s + (EncodeString(c.name) + p));
    SpaceRoundTrip(c.space, EncodeString(c.name) + p);
    StringRoundTrip(c.name, MAX_NAME, p);
    assert p + [] == p;
    Parameters.RoundTrip(c.params, []);
  }

  lemma RequestUpdateRoundTrip(c: Control)
    requires c.RequestUpdate? && Payload(c).Some?
    ensures TakeRequestUpdate(Payload(c).value) == Done(Canonical(c), []) <==> Receivable(c)
  {
    hide Varint.Take, Varint.Encode, Parameters.Take, Parameters.Encode, AllWellFormed, Sort;
    var p := Parameters.Encode(c.params).value;
    Varint.TakeEncoded(c.id, p);
    assert p + [] == p;
    Parameters.RoundTrip(c.params, []);
  }

  lemma SubscribeOkRoundTrip(c: Control)
    requires c.SubscribeOk? && Payload(c).Some?
    ensures TakeSubscribeOk(Payload(c).value) == Done(Canonical(c), []) <==> Receivable(c)
  {
    hide Varint.Take, Varint.Encode, Parameters.Take, Parameters.Encode, AllWellFormed, Sort;
    var p := Parameters.Encode(c.params).value;
    Varint.TakeEncoded(c.alias, p + c.properties);
    Parameters.RoundTrip(c.params, c.properties);
  }

  lemma RequestOkRoundTrip(c: Control)
    requires c.RequestOk? && Payload(c).Some?
    ensures TakeRequestOk(Payload(c).value) == Done(Canonical(c), []) <==> Receivable(c)
  {
    hide Parameters.Take, Parameters.Encode, AllWellFormed, Sort;
    var p := Parameters.Encode(c.params).value;
    assert p + [] == p;
    Parameters.RoundTrip(c.params, []);
  }

  lemma RequestErrorRoundTrip(c: Control)
    requires c.RequestError?
    ensures TakeRequestError(Payload(c).value) == Done(Canonical(c), []) <==> Receivable(c)
  {
    hide Varint.Take, Varint.Encode, TakeString, EncodeString;
    Varint.TakeEncoded(c.code, Varint.Encode(c.retry) + EncodeString(c.reason));
    Varint.TakeEncoded(c.retry, EncodeString(c.reason));
    assert EncodeString(c.reason) + [] == EncodeString(c.reason);
    StringRoundTrip(c.reason, MAX_REASON, []);
  }

  lemma PublishDoneRoundTrip(c: Control)
    requires c.PublishDone?
    ensures TakePublishDone(Payload(c).value) == Done(Canonical(c), []) <==> Receivable(c)
  {
    hide Varint.Take, Varint.Encode, TakeString, EncodeString;
    Varint.TakeEncoded(c.status, Varint.Encode(c.count) + EncodeString(c.reason));
    Varint.TakeEncoded(c.count, EncodeString(c.reason));
    assert EncodeString(c.reason) + [] == EncodeString(c.reason);
    StringRoundTrip(c.reason, MAX_REASON, []);
  }

  lemma PayloadRoundTrip(c: Control)
    requires Payload(c).Some?
    ensures Decode(Message(KindOf(c), Payload(c).value)) == Some(Canonical(c)) <==> Receivable(c)
  {
    hide TakeSubscribe, TakeRequestUpdate, TakeSubscribeOk, TakeRequestOk, TakeRequestError, TakePublishDone;
    hide Payload, Canonical, Receivable;
    match c
    case Subscribe(_, _, _, _) => SubscribeRoundTrip(c);
    case RequestUpdate(_, _) => RequestUpdateRoundTrip(c);
    case SubscribeOk(_, _, _) => SubscribeOkRoundTrip(c);
    case RequestOk(_, _) => RequestOkRoundTrip(c);
    case RequestError(_, _, _) => RequestErrorRoundTrip(c);
    case PublishDone(_, _, _) => PublishDoneRoundTrip(c);
  }

  /**
   * Encode, frame, unframe, decode: whatever follows on the stream, the message comes out of its
   * frame, and it is understood as it was meant if and only if it keeps the decoder's limits.
   */
  lemma ControlRoundTrip(c: Control, tail: bytes)
    requires EncodeMessage(c).Some?
    ensures var r := ControlFrames.Read(EncodeMessage(c).value + tail);
            r.Done? && r.rest == tail && (Decode(r.value) == Some(Canonical(c)) <==> Receivable(c))
  {
    hide Payload, Decode, ControlFrames.Read, Canonical, Receivable;
    FrameRoundTrip(Message(KindOf(c), Payload(c).value), tail);
    PayloadRoundTrip(c);
  }

  /** What the encoders can say of a decoded message: REQUEST_OK goes out without track properties. */
  function Sayable(c: Control): Control {
    if c.RequestOk? then c.(properties := []) else c
  }

  /** A message that can be said again, in at most `size` bytes, and is then understood as it is. */
  predicate Normal(c: Control, size: nat) {
    && Payload(c).Some? && |Payload(c).value| <= size
    && Canonical(c) == Sayable(c) && Receivable(c)
  }

  lemma SubscribeExact(s: bytes)
    requires TakeSubscribe(s).Done?
    ensures TakeSubscribe(s).value.Subscribe? && Normal(TakeSubscribe(s).value, |s|)
  {
    hide Varint.Take, Varint.Encode, TakeSpace, EncodeSpace, TakeString, EncodeString, Parameters.Take,
         Parameters.Encode, AllWellFormed, Sort;
    var _ := VarintExact(s);
    var s0 := Varint.Take(s).rest;
    var _ := SpaceExact(s0);
    var s1 := TakeSpace(s0).rest;
    var _ := StringExact(s1, MAX_NAME);
    var _ := Parameters.Exact(TakeString(s1, MAX_NAME).rest);
  }

  lemma RequestUpdateExact(s: bytes)
    requires TakeRequestUpdate(s).Done?
    ensures TakeRequestUpdate(s).value.RequestUpdate? && Normal(TakeRequestUpdate(s).value, |s|)
  {
    hide Varint.Take, Varint.Encode, Parameters.Take, Parameters.Encode, AllWellFormed, Sort;
    var _ := VarintExact(s);
    var _ := Parameters.Exact(Varint.Take(s).rest);
  }

  lemma SubscribeOkExact(s: bytes)
    requires TakeSubscribeOk(s).Done?
    ensures TakeSubscribeOk(s).value.SubscribeOk? && Normal(TakeSubscribeOk(s).value, |s|)
  {
    hide Varint.Take, Varint.Encode, Parameters.Take, Parameters.Encode, AllWellFormed, Sort;
    var _ := VarintExact(s);
    var _ := Parameters.Exact(Varint.Take(s).rest);
  }

  lemma RequestOkExact(s: bytes)
    requires TakeRequestOk(s).Done?
    ensures TakeRequestOk(s).value.RequestOk? && Normal(TakeRequestOk(s).value, |s|)
  {
    hide Parameters.Take, Parameters.Encode, AllWellFormed, Sort;
    var _ := Parameters.Exact(s);
  }

  lemma RequestErrorExact(s: bytes)
    requires TakeRequestError(s).Done?
    ensures TakeRequestError(s).value.RequestError? && Normal(TakeRequestError(s).value, |s|)
  {
    hide Varint.Take, Varint.Encode, TakeString, EncodeString;
    var _ := VarintExact(s);
    var s0 := Varint.Take(s).rest;
    var _ := VarintExact(s0);
    var _ := StringExact(Varint.Take(s0).rest, MAX_REASON);
  }

  lemma PublishDoneExact(s: bytes)
    requires TakePublishDone(s).Done?
    ensures TakePublishDone(s).value.PublishDone? && Normal(TakePublishDone(s).value, |s|)
  {
    hide Varint.Take, Varint.Encode, TakeString, EncodeString;
    var _ := VarintExact(s);
    var s0 := Varint.Take(s).rest;
    var _ := VarintExact(s0);
    var _ := StringExact(Varint.Take(s0).rest, MAX_REASON);
  }

  lemma DecodedIsNormal(m: Message)
    requires Decode(m).Some?
    ensures KindOf(Decode(m).value) == m.kind && Normal(Decode(m).value, |m.payload|)
  {
    hide TakeSubscribe, TakeRequestUpdate, TakeSubscribeOk, TakeRequestOk, TakeRequestError, TakePublishDone, Normal;
    var s := m.payload;
    if m.kind == SUBSCRIBE {
      SubscribeExact(s);
    } else if m.kind == REQUEST_UPDATE {
      RequestUpdateExact(s);
    } else if m.kind == SUBSCRIBE_OK {
      SubscribeOkExact(s);
    } else if m.kind == REQUEST_OK {
      RequestOkExact(s);
    } else if m.kind == REQUEST_ERROR {
      RequestErrorExact(s);
    } else {
      PublishDoneExact(s);
    }
  }

  /**
   * Normalisation: an accepted payload can be encoded again, in no more bytes, and what is then
   * decoded is the same message.
   */
  lemma Normalisation(m: Message)
    requires |m.payload| <= MAX_PAYLOAD && Decode(m).Some?
    ensures var c := Decode(m).value;
            && Payload(c).Some? && |Payload(c).value| <= |m.payload| && EncodeMessage(c).Some?
            && Decode(Message(m.kind, Payload(c).value)) == Some(Sayable(c))
  {
    hide Payload, Decode, Canonical, Receivable;
    var c := Decode(m).value;
    DecodedIsNormal(m);
    PayloadRoundTrip(c);
  }
}

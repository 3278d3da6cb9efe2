/** Control messages on a stream: a type, a 16-bit length and a payload. */
module ControlFrames {
  import opened Basics
  import opened SubgroupWire
  import Varint

  const MAX_PAYLOAD: nat := 65535

  datatype Message = Message(kind: u64, payload: bytes)

  /** encode_control_message throws on a payload that does not fit the length field. */
  function Encode(m: Message): Option<bytes> {
    if |m.payload| > MAX_PAYLOAD then None
    else Some(Varint.Encode(m.kind) + ([|m.payload| / 256, |m.payload| % 256] + m.payload))
  }

  /** The 16-bit length field. */
  function Size(s: bytes): nat
    requires |s| >= 2
  {
    var high: int := s[0];
    high * 256 + s[1]
  }

  /** read_control_message. */
  function Read(s: bytes): (r: Parse<Message>)
    ensures r.Done? ==> |r.rest| < |s| && |r.value.payload| <= MAX_PAYLOAD
    ensures !r.Bad?
  {
    var (kind, s0) :- Varint.Take(s);
    if |s0| < 2 then More else
    var (payload, rest) :- TakeView(s0[2..], Size(s0));
    Done(Message(kind, payload), rest)
  }

  /** A message comes out of its frame as it went in, whatever follows. */
  lemma FrameRoundTrip(m: Message, tail: bytes)
    requires |m.payload| <= MAX_PAYLOAD
    ensures Read(Encode(m).value + tail) == Done(m, tail)
  {
    hide Varint.Encode, Varint.Take, TakeView;
    var n := |m.payload|;
    var size := [n / 256, n % 256];
    var s0 := size + (m.payload + tail);
    Associative(size, m.payload, tail);
    Associative(Varint.Encode(m.kind), size + m.payload, tail);
    Varint.TakeEncoded(m.kind, s0);
    assert s0[2..] == m.payload + tail && Size(s0) == n;
    assert TakeView(m.payload + tail, n) == Done(m.payload, tail) by { TakeViewFront(m.payload, tail); }
  }

  lemma ReadStable(s: bytes, t: bytes)
    requires Read(s).Done?
    ensures Read(s + t) == Read(s).Extended(t)
  {
    hide Varint.Take, TakeView;
    Varint.TakeStable(s, t);
    var s0 := Varint.Take(s).rest;
    assert (s0 + t)[2..] == s0[2..] + t;
    TakeViewStable(s0[2..], t, Size(s0));
  }
}

/** The wire format in plain numbers: the layout of integers, and messages byte by byte. */
module WireVectors {
  import opened Basics
  import opened SubgroupWire
  import opened ControlFields
  import opened ControlMessages
  import opened Parameters
  import ControlFrames
  import Publishing
  import SubgroupSend
  import Datagrams
  import Setup
  import SubscriptionOptions
  import Varint

  // ----- integers -----

  /** The largest value of each length, and the bits that announce it. */
  const LIMITS: seq<nat> :=
    [0x7F, 0x3FFF, 0x1F_FFFF, 0xFFF_FFFF, 0x7_FFFF_FFFF, 0x3FF_FFFF_FFFF, 0x1_FFFF_FFFF_FFFF, 0xFF_FFFF_FFFF_FFFF,
     0xFFFF_FFFF_FFFF_FFFF]
  const PREFIXES: seq<nat> := [0x00, 0x80, 0xC0, 0xE0, 0xF0, 0xF8, 0xFC, 0xFE, 0xFF]

  /**
   * The layout of an integer: as few bytes as its value allows by the table, the announcing bits and the
   * highest digit in the first, and then the other digits, highest first.
   */
  lemma Layout(value: u64, length: nat)
    requires 1 <= length <= 9 && value <= LIMITS[length - 1] && (length > 1 ==> value > LIMITS[length - 2])
    ensures var s := Varint.Encode(value);
            && |s| == length
            && (length < 9 ==> s[0] == PREFIXES[length - 1] + Varint.Shift(value, length - 1))
            && (length == 9 ==> s[0] == 0xFF)
            && forall i :: 1 <= i < length ==> s[i] == Varint.Shift(value, length - 1 - i) % 256
  {
    hide Varint.Capacity;
    Varint.Capacities();
    assert Varint.LengthOf(value) == length by { LengthExact(value, length); }
    var digits := Varint.BigEndian(length, value);
    forall i | 0 <= i < length
      ensures digits[i] == Varint.Shift(value, length - 1 - i) % 256
    {
      Varint.BigEndianAt(length, value, i);
    }
    EncodedDigits(value, length);
    FirstByte(value, length);
  }

  lemma EncodedDigits(value: u64, length: nat)
    requires Varint.LengthOf(value) == length && 1 <= length <= 9 && value < Varint.Capacity(length)
    ensures var digits := Varint.BigEndian(length, value);
            digits[0] < Varint.Room(length) && Varint.Encode(value) == Varint.Marked(digits, length)
  {
    Varint.FirstDigit(length, value, Varint.Room(length));
  }

  lemma LengthExact(value: u64, length: nat)
    requires 1 <= length <= 9 && value <= LIMITS[length - 1] && (length > 1 ==> value > LIMITS[length - 2])
    ensures Varint.LengthOf(value) == length && value < Varint.Capacity(length)
  {
    hide Varint.Capacity;
    Varint.Capacities();
  }

  lemma FirstByte(value: u64, length: nat)
    requires 1 <= length <= 9 && value < Varint.Capacity(length)
    ensures Varint.Shift(value, length - 1) < Varint.Room(length)
    ensures PREFIXES[length - 1] == Varint.Lead(length) && (length == 9 ==> Varint.Shift(value, 8) == 0)
  {
    hide Varint.Scale;
    Varint.ShiftBelow(value, length, Varint.Room(length));
  }

  /** Values below 128 are one byte. */
  lemma Small(value: u64)
    requires value < 0x80
    ensures Varint.Encode(value) == [value]
  {
    Layout(value, 1);
  }

  /** The largest value is nine bytes of ones. */
  lemma Largest()
    ensures Varint.Encode(MAX64) == [255, 255, 255, 255, 255, 255, 255, 255, 255]
  {
    Layout(MAX64, 9);
    var s := Varint.Encode(MAX64);
    forall i | 0 <= i < 9
      ensures s[i] == 255
    {
      if i > 0 {
        AllOnes(0, 8 - i);
      }
    }
  }

  const ONES: seq<nat> := [0xFFFF_FFFF_FFFF_FFFF, 0xFF_FFFF_FFFF_FFFF, 0xFFFF_FFFF_FFFF, 0xFF_FFFF_FFFF, 0xFFFF_FFFF,
                           0xFF_FFFF, 0xFFFF, 0xFF]

  lemma {:induction false} AllOnes(i: nat, n: nat)
    requires i + n < 8
    ensures Varint.Shift(ONES[i], n) == ONES[i + n] && ONES[i + n] % 256 == 255
    decreases n
  {
    if n > 0 {
      assert ONES[i] / 256 == ONES[i + 1];
      AllOnes(i + 1, n - 1);
    }
  }

  // ----- messages -----

  /** Integers below 128 and in front of other bytes. */
  lemma SmallTake(value: u64, tail: bytes)
    requires value < 0x80
    ensures Varint.Take([value] + tail) == Done(value, tail)
  {
    Small(value);
    Varint.TakeEncoded(value, tail);
  }

  lemma NoParameters()
    ensures Parameters.Encode([]) == Some([0])
  {
    hide Varint.Encode;
    Small(0);
    assert Sort([]) == [] && EncodeList([], 0) == Some([]) && [0] + [] == [0];
  }

  /** A frame: the type, two bytes of length, and the payload. */
  lemma Framed(kind: u64, payload: bytes)
    requires kind < 0x80 && |payload| < 0x100
    ensures ControlFrames.Encode(ControlFrames.Message(kind, payload)) == Some([kind, 0, |payload|] + payload)
  {
    hide Varint.Encode;
    Small(kind);
    assert [kind] + ([0, |payload|] + payload) == [kind, 0, |payload|] + payload;
  }

  lemma SubscribeVector()
    ensures EncodeMessage(Subscribe(0, [[97]], [98], [])) == Some([3, 0, 7, 0, 1, 1, 97, 1, 98, 0])
  {
    hide Varint.Encode, Parameters.Encode;
    NoParameters();
    Small(0);
    Small(1);
    var space: seq<bytes> := [[97]];
    assert space[1..] == [] && EncodeFields([], 1) == Some([]);
    assert EncodeFields(space, 0) == Some([1] + [97] + []);
    assert [1] + ([1] + [97] + []) == [1, 1, 97];
    assert EncodeSpace(space) == Some([1, 1, 97]);
    var payload := [0, 1, 1, 97, 1, 98, 0];
    assert [0] + ([1, 1, 97] + ([1] + [98] + [0])) == payload;
    Framed(3, payload);
    assert [3, 0, 7] + payload == [3, 0, 7, 0, 1, 1, 97, 1, 98, 0];
  }

  lemma RequestVectors()
    ensures EncodeMessage(RequestUpdate(2, [])) == Some([2, 0, 2, 2, 0])
    ensures EncodeMessage(RequestOk([], [])) == Some([7, 0, 1, 0])
    ensures EncodeMessage(SubscribeOk(5, [], [])) == Some([4, 0, 2, 5, 0])
  {
    hide Varint.Encode, Parameters.Encode;
    NoParameters();
    Small(2);
    Small(5);
    assert [2] + [0] == [2, 0] && [5] + ([0] + []) == [5, 0];
    Framed(2, [2, 0]);
    Framed(7, [0]);
    Framed(4, [5, 0]);
    assert [2, 0, 2] + [2, 0] == [2, 0, 2, 2, 0] && [7, 0, 1] + [0] == [7, 0, 1, 0];
    assert [4, 0, 2] + [5, 0] == [4, 0, 2, 5, 0];
  }

  lemma EndingVectors()
    ensures EncodeMessage(PublishDone(1, 2, [120])) == Some([11, 0, 4, 1, 2, 1, 120])
    ensures EncodeMessage(RequestError(3, 0, [110, 111])) == Some([5, 0, 5, 3, 0, 2, 110, 111])
  {
    hide Varint.Encode;
    Small(0);
    Small(1);
    Small(2);
    Small(3);
    assert [1] + ([2] + ([1] + [120])) == [1, 2, 1, 120];
    assert [3] + ([0] + ([2] + [110, 111])) == [3, 0, 2, 110, 111];
    Framed(11, [1, 2, 1, 120]);
    Framed(5, [3, 0, 2, 110, 111]);
    assert [11, 0, 4] + [1, 2, 1, 120] == [11, 0, 4, 1, 2, 1, 120];
    assert [5, 0, 5] + [3, 0, 2, 110, 111] == [5, 0, 5, 3, 0, 2, 110, 111];
  }

  /** The codes that replies carry: of every reason for a refusal, and of every way to end. */
  lemma CodeVectors(end: Publishing.Ending, count: nat)
    ensures forall reason :: Publishing.ControlOf(Publishing.Rejected(reason)).code ==
              match reason
              case NotSupported => 0x3
              case ExcessiveLoad => 0x9
              case InvalidRange => 0x11
              case Unregistered => 0x10
              case NotEstablished => 0x10
              case ReservedSpace => 0x10
              case NotPublished => 0x10
    ensures Publishing.ControlOf(Publishing.PublishDone(end, count)).status ==
            match end.code
            case TrackEnded => 0x2
            case SubscriptionEnded => 0x3
            case UpdateFailed => 0x8
            case OtherCode(code) => code
    ensures var done := Publishing.ControlOf(Publishing.PublishDone(end, count));
            done.count == count % 0x1_0000_0000_0000_0000 && done.reason == end.reason
  {
  }

  /** Stream headers of both kinds that are written, an object, and a datagram. */
  lemma DataVectors()
    ensures SubgroupSend.EncodeHeader(7, 2, 0, 128) == [0x11, 7, 2, 128]
    ensures SubgroupSend.EncodeHeader(7, 2, 5, 128) == [0x15, 7, 2, 5, 128]
    ensures SubgroupSend.EncodeObject(2, [], None, [3, 4]) == [2, 0, 2, 3, 4]
    ensures SubgroupSend.EncodeObject(0, [], Some(3), []) == [0, 0, 0, 3]
    ensures Datagrams.Encode(7, 0, 0, 128, [], None, [42], false) == [4, 7, 0, 128, 42]
    ensures Datagrams.Encode(7, 1, 2, 128, [9], Some(0), [], true) == [0x21, 7, 1, 2, 128, 1, 9, 0]
  {
    hide Varint.Encode;
    Small(0);
    Small(1);
    Small(2);
    Small(3);
    Small(4);
    Small(5);
    Small(7);
    Small(0x11);
    Small(0x15);
    Small(0x21);
  }

  // ----- what is refused -----

  /** A namespace of 33 fields, a reason that is cut off, data behind the parameters. */
  lemma RefusedMessages()
    ensures Decode(ControlFrames.Message(SUBSCRIBE, [0, 33])).None?
    ensures Decode(ControlFrames.Message(PUBLISH_DONE, [1, 2, 2, 120])).None?
    ensures Decode(ControlFrames.Message(REQUEST_UPDATE, [0, 0, 0])).None?
    ensures Decode(ControlFrames.Message(REQUEST_UPDATE, [0, 1, 0x33, 0])).None?
  {
    hide Varint.Take, TakeView;
    assert [0, 33] == [0] + ([33] + []);
    SmallTake(0, [33] + []);
    SmallTake(33, []);
    assert [1, 2, 2, 120] == [1] + ([2] + ([2] + [120]));
    SmallTake(1, [2] + ([2] + [120]));
    SmallTake(2, [2] + [120]);
    SmallTake(2, [120]);
    ShortView([120], 2);
    assert [0, 0, 0] == [0] + ([0] + [0]);
    SmallTake(0, [0] + [0]);
    SmallTake(0, [0]);
    assert [0, 1, 0x33, 0] == [0] + ([1] + ([0x33] + [0]));
    SmallTake(0, [1] + ([0x33] + [0]));
    SmallTake(1, [0x33] + [0]);
    SmallTake(0x33, [0]);
  }

  lemma ShortView(s: bytes, size: nat)
    requires size > |s|
    ensures TakeView(s, size).More?
  {
  }

  /** The same parameter twice. */
  lemma RefusedRepetition()
    ensures Decode(ControlFrames.Message(REQUEST_UPDATE, [0, 2, 16, 1, 0, 1])).None?
  {
    hide Varint.Take;
    var payload: bytes := [0, 2, 16, 1, 0, 1];
    assert payload == [0] + ([2] + ([16] + [1, 0, 1]));
    SmallTake(0, [2] + ([16] + [1, 0, 1]));
    SmallTake(2, [16] + [1, 0, 1]);
    SmallTake(16, [1, 0, 1]);
    assert [1, 0, 1][1..] == [0] + [1];
    SmallTake(0, [1]);
    assert Parameters.TakeOne([16] + [1, 0, 1], 0, true).Done?;
  }

  /** A SETUP option that is cut off. */
  lemma RefusedSetup()
    ensures !Setup.Accepts([1, 2, 120], 0)
  {
    hide Varint.Take, TakeView;
    assert [1, 2, 120] == [1] + ([2] + [120]);
    SmallTake(1, [2] + [120]);
    SmallTake(2, [120]);
    ShortView([120], 2);
  }

  /** FORWARD is 0 or 1, GROUP_ORDER 1 or 2, and a message payload at most 65535 bytes. */
  lemma RefusedValues(payload: bytes)
    requires |payload| == 65536
    ensures SubscriptionOptions.Decode([Parameter(0x10, [2])]).None?
    ensures SubscriptionOptions.Decode([Parameter(0x22, [0])]).None?
    ensures ControlFrames.Encode(ControlFrames.Message(3, payload)).None?
  {
    var forward, order := [Parameter(0x10, [2])], [Parameter(0x22, [0])];
    assert forward[..0] == [] && order[..0] == [];
    assert SubscriptionOptions.Decode([]) == Some(SubscriptionOptions.NO_OPTIONS);
  }
}

/**
 * The variable-length integers of MOQT: lengths 1..8 carry a unary length prefix in the first
 * byte, length 9 is the byte 0xff followed by all 64 bits. Masks and shifts of the source act on
 * disjoint bit ranges, so they are written as `/`, `%` and `+` on non-negative integers.
 */
module Varint {
  import opened Basics

  /** What read_varint returns: a value and its length in bytes, or the need for more data. */
  datatype Decoded = Value(value: u64, length: nat) | Incomplete

  /** 2^(8-length): how many first bytes announce that length, and the bit tested for it. */
  function Room(length: nat): (r: nat)
    requires 1 <= length <= 9
    ensures 1 <= r <= 128
  {
    match length
    case 1 => 128
    case 2 => 64
    case 3 => 32
    case 4 => 16
    case 5 => 8
    case 6 => 4
    case 7 => 2
    case _ => 1
  }

  /** The smallest first byte that announces the length. */
  function Lead(length: nat): (r: nat)
    requires 1 <= length <= 9
    ensures r + Room(length) <= 256
  {
    if length == 9 then 255 else 256 - 2 * Room(length)
  }

  /** `high` followed by n-1 zero bytes, as a number. */
  function Scale(high: nat, n: nat): nat
    requires n >= 1
  {
    if n == 1 then high else 256 * Scale(high, n - 1)
  }

  /** One more than the largest value of the length. */
  function Capacity(length: nat): nat
    requires 1 <= length <= 9
  {
    Scale(Room(length), length)
  }

  /** The number of bytes the writer uses: the first length whose capacity exceeds the value. */
  function LengthOf(value: u64, from: nat := 1): (length: nat)
    requires 1 <= from <= 9
    ensures from <= length <= 9 && value < Capacity(length)
    ensures from == length || Capacity(length - 1) <= value
    decreases 9 - from
  {
    Capacities();
    if from == 9 || value < Capacity(from) then from else LengthOf(value, from + 1)
  }

  /** The length that a first byte announces. */
  function Announced(first: byte, from: nat := 1): (length: nat)
    requires 1 <= from <= 9 && Lead(from) <= first
    ensures from <= length <= 9
    ensures Lead(length) <= first < Lead(length) + Room(length)
    decreases 9 - from
  {
    if from == 9 || first < Lead(from) + Room(from) then from else Announced(first, from + 1)
  }

  /** The low `n` bytes of a value, most significant first. */
  function BigEndian(n: nat, value: nat): (s: bytes)
    ensures |s| == n
  {
    if n == 0 then [] else BigEndian(n - 1, value / 256) + [value % 256]
  }

  function FromBigEndian(s: bytes): nat {
    if s == [] then 0 else FromBigEndian(s[..|s| - 1]) * 256 + s[|s| - 1]
  }

  /** The value shifted right by `n` bytes. */
  function Shift(value: nat, n: nat): nat {
    if n == 0 then value else Shift(value / 256, n - 1)
  }

  /** The bytes that write_varint appends: the value's bytes, the first one marked with the length. */
  function Encode(value: u64): (s: bytes)
    ensures 1 <= |s| <= 9
    ensures |s| == LengthOf(value)
  {
    var length := LengthOf(value);
    var digits := BigEndian(length, value);
    FirstDigit(length, value, Room(length));
    Marked(digits, length)
  }

  /** The bytes of a value with the length mark put on the first. */
  function Marked(digits: bytes, length: nat): (s: bytes)
    requires 1 <= length <= 9 && |digits| == length && digits[0] < Room(length)
    ensures |s| == length && Lead(length) <= s[0] < Lead(length) + Room(length)
  {
    [Lead(length) + digits[0]] + digits[1..]
  }

  /** The result of read_varint at the start of `s`. */
  function Decode(s: bytes): (r: Decoded)
    ensures r.Value? ==> 1 <= r.length <= |s| && r.length <= 9
    ensures r.Value? || r.Incomplete?
  {
    if s == [] then Incomplete else
    var length := Announced(s[0]);
    if length > |s| then Incomplete else
    DecodedInRange(s, length);
    Value(FromBigEndian(Digits(s, length)), length)
  }

  /** The bytes of an encoding without the length mark. */
  function Digits(s: bytes, length: nat): (digits: bytes)
    requires 1 <= length <= |s| && length <= 9 && Lead(length) <= s[0]
    ensures |digits| == length
  {
    [s[0] - Lead(length)] + s[1..length]
  }

  lemma Capacities()
    ensures Capacity(1) == 0x80 && Capacity(2) == 0x4000 && Capacity(3) == 0x20_0000
    ensures Capacity(4) == 0x1000_0000 && Capacity(5) == 0x8_0000_0000 && Capacity(6) == 0x400_0000_0000
    ensures Capacity(7) == 0x2_0000_0000_0000 && Capacity(8) == 0x100_0000_0000_0000 && Capacity(9) == MAX64 + 1
  {
    assert Scale(8, 4) == 0x800_0000 && Scale(4, 4) == 0x400_0000 && Scale(4, 5) == 0x4_0000_0000;
    assert Scale(2, 4) == 0x200_0000 && Scale(2, 6) == 0x200_0000_0000;
    assert Scale(1, 4) == 0x100_0000 && Scale(1, 6) == 0x100_0000_0000 && Scale(1, 7) == 0x1_0000_0000_0000;
  }

  lemma {:induction false} FirstDigit(n: nat, value: nat, high: nat)
    requires n >= 1 && value < Scale(high, n) && high <= 256
    ensures BigEndian(n, value)[0] < high
  {
    if n > 1 {
      FirstDigit(n - 1, value / 256, high);
    }
  }

  lemma {:induction false} FromBigEndianBound(s: bytes, high: nat)
    requires s != [] && s[0] < high
    ensures FromBigEndian(s) < Scale(high, |s|)
  {
    if |s| > 1 {
      FromBigEndianBound(s[..|s| - 1], high);
    } else {
      assert FromBigEndian(s[..0]) == 0;
    }
  }

  lemma DecodedInRange(s: bytes, length: nat)
    requires s != [] && length == Announced(s[0]) && length <= |s|
    ensures FromBigEndian(Digits(s, length)) < Capacity(length) <= MAX64 + 1
  {
    FromBigEndianBound(Digits(s, length), Room(length));
    Capacities();
  }

  lemma {:induction false} BigEndianInverse(n: nat, value: nat, high: nat)
    requires n >= 1 && value < Scale(high, n) && high <= 256
    ensures FromBigEndian(BigEndian(n, value)) == value
  {
    var s := BigEndian(n, value);
    assert s[..|s| - 1] == BigEndian(n - 1, value / 256);
    if n > 1 {
      BigEndianInverse(n - 1, value / 256, high);
    }
  }

  /** Reading what was written gives the value back, with its exact length, whatever follows. */
  lemma RoundTrip(value: u64, tail: bytes)
    ensures Decode(Encode(value) + tail) == Value(value, |Encode(value)|)
  {
    var length := LengthOf(value);
    FirstDigit(length, value, Room(length));
    DecodeMarked(BigEndian(length, value), length, tail);
    BigEndianInverse(length, value, Room(length));
  }

  lemma DecodeMarked(digits: bytes, length: nat, tail: bytes)
    requires 1 <= length <= 9 && |digits| == length && digits[0] < Room(length)
    ensures var r := Decode(Marked(digits, length) + tail);
            r.Value? && r.value == FromBigEndian(digits) && r.length == length
  {
    var s := Marked(digits, length) + tail;
    AnnouncedUnique(s[0], length);
    assert Digits(s, length) == digits;
  }

  lemma {:induction false} AnnouncedUnique(first: byte, length: nat, from: nat := 1)
    requires 1 <= from <= length <= 9
    requires Lead(length) <= first < Lead(length) + Room(length)
    ensures Lead(from) <= first && Announced(first, from) == length
    decreases 9 - from
  {
    if from < length {
      AnnouncedUnique(first, length, from + 1);
    }
  }

  /** Every strict prefix of an encoding asks for more data. */
  lemma StrictPrefix(value: u64, k: nat)
    requires k < |Encode(value)|
    ensures Decode(Encode(value)[..k]) == Incomplete
  {
    if k > 0 {
      FirstDigit(LengthOf(value), value, Room(LengthOf(value)));
      AnnouncedUnique(Encode(value)[0], LengthOf(value));
    }
  }

  /** A finished read does not depend on the bytes behind it. */
  lemma Stable(s: bytes, t: bytes)
    requires Decode(s).Value?
    ensures Decode(s + t) == Decode(s)
  {
    assert Digits(s + t, Decode(s).length) == Digits(s, Decode(s).length);
  }

  /** No accepted encoding of a value is shorter than the one the writer chooses. */
  lemma Minimal(s: bytes)
    requires Decode(s).Value?
    ensures |Encode(Decode(s).value)| <= Decode(s).length
  {
    DecodedInRange(s, Decode(s).length);
    var wanted := LengthOf(Decode(s).value);
    if wanted > Decode(s).length {
      CapacityGrows(Decode(s).length, wanted - 1);
    }
  }

  lemma CapacityGrows(a: nat, b: nat)
    requires 1 <= a <= b <= 9
    ensures Capacity(a) <= Capacity(b)
  {
    Capacities();
  }

  /** The cursor's read: the integer in front of `s` and what is behind it. */
  function Take(s: bytes): (r: Parse<u64>)
    ensures r.Done? ==> |r.rest| < |s|
    ensures !r.Bad?
  {
    match Decode(s)
    case Value(v, n) => Done(v, s[n..])
    case Incomplete => More
  }

  lemma TakeEncoded(value: u64, tail: bytes)
    ensures Take(Encode(value) + tail) == Done(value, tail)
  {
    hide Encode, Decode;
    RoundTrip(value, tail);
  }

  lemma TakeStable(s: bytes, t: bytes)
    requires Take(s).Done?
    ensures Take(s + t) == Take(s).Extended(t)
  {
    hide Decode;
    Stable(s, t);
  }

  /** write_varint: appends the encoding of `value` to `out`. */
  method Write(out: bytes, value: u64) returns (r: bytes)
    ensures r == out + Encode(value)
  {
    var length := 1;
    var max := 0x7f;
    Capacities();
    while length < 9 && value > max
      invariant 1 <= length <= 9
      invariant length < 9 ==> max == Capacity(length) - 1
      invariant LengthOf(value, length) == LengthOf(value)
    {
      max := max * 128 + 0x7f;
      length := length + 1;
    }
    assert length == LengthOf(value);
    r := WriteBytes(out, value, length);
  }

  /** The writing half of write_varint: the marked first byte, then the remaining ones. */
  method WriteBytes(out: bytes, value: u64, length: nat) returns (r: bytes)
    requires 1 <= length <= 9 && value < Capacity(length)
    ensures BigEndian(length, value)[0] < Room(length)
    ensures r == out + Marked(BigEndian(length, value), length)
  {
    ghost var digits := BigEndian(length, value);
    FirstDigit(length, value, Room(length));
    BigEndianAt(length, value, 0);
    ShiftBelow(value, length, Room(length));
    r := out + [if length == 9 then 0xff else Lead(length) + Shift(value, length - 1)];
    var index := 1;
    while index < length
      invariant 1 <= index <= length
      invariant r == out + Marked(digits, length)[..index]
    {
      BigEndianAt(length, value, index);
      r := r + [Shift(value, length - 1 - index) % 256];
      index := index + 1;
    }
  }

  /** The byte at `index` is the value shifted right by the bytes behind it. */
  lemma {:induction false} BigEndianAt(n: nat, value: nat, index: nat)
    requires index < n
    ensures BigEndian(n, value)[index] == Shift(value, n - 1 - index) % 256
  {
    if index < n - 1 {
      BigEndianAt(n - 1, value / 256, index);
    }
  }

  lemma {:induction false} ShiftBelow(value: nat, n: nat, high: nat)
    requires n >= 1 && value < Scale(high, n)
    ensures Shift(value, n - 1) < high
  {
    if n > 1 {
      ShiftBelow(value / 256, n - 1, high);
    }
  }

  /** read_varint: reads one integer of `data` at `offset`. */
  method Read(data: bytes, offset: nat) returns (r: Decoded)
    ensures r == if offset >= |data| then Incomplete else Decode(data[offset..])
  {
    if offset >= |data| {
      return Incomplete;
    }
    var first := data[offset];
    var length := ReadLength(first);
    ghost var s := data[offset..];
    if length > |data| - offset {
      return Incomplete;
    }
    var own := data[offset..offset + length];
    var value := ReadDigits(own, length);
    assert own == s[..length] && own[1..length] == s[1..length];
    DecodedInRange(s, length);
    r := Value(value, length);
  }

  /** The accumulating loop of read_varint: masks the first byte, then shifts the others in. */
  method ReadDigits(s: bytes, length: nat) returns (value: nat)
    requires 1 <= length <= 9 && |s| == length && Lead(length) <= s[0] < Lead(length) + Room(length)
    ensures value == FromBigEndian(Digits(s, length))
  {
    ghost var digits := Digits(s, length);
    TestedBit(s[0], length);
    value := if length == 9 then 0 else s[0] % Room(length);
    assert FromBigEndian(digits[..1][..0]) == 0;
    var index := 1;
    while index < length
      invariant 1 <= index <= length
      invariant value == FromBigEndian(digits[..index])
    {
      assert digits[..index + 1][..index] == digits[..index] && digits[index] == s[index];
      value := value * 256 + s[index];
      index := index + 1;
    }
    assert digits[..length] == digits;
  }

  /** The scan of read_varint for the first clear bit. */
  method ReadLength(first: byte) returns (length: nat)
    ensures length == Announced(first)
  {
    length := 1;
    while length < 9 && first % (2 * Room(length)) >= Room(length)
      invariant 1 <= length <= 9 && Lead(length) <= first
      invariant Announced(first) == Announced(first, length)
      decreases 9 - length
    {
      TestedBit(first, length);
      length := length + 1;
    }
    TestedBit(first, length);
  }

  /** The bit that the scan tests says whether the byte announces a longer length. */
  lemma TestedBit(first: byte, length: nat)
    requires 1 <= length <= 9 && Lead(length) <= first
    ensures length < 9 ==> (first % (2 * Room(length)) >= Room(length) <==> first >= Lead(length) + Room(length))
    ensures length < 9 ==> Lead(length) + Room(length) == Lead(length + 1)
    ensures length < 9 && first < Lead(length) + Room(length) ==> first % Room(length) == first - Lead(length)
  {
    if length < 9 {
      var above := [0, 1, 3, 7, 15, 31, 63, 127][length - 1];
      assert 2 * above * Room(length) == Lead(length);
      LowBits(first, 2 * Room(length), above);
      if first < Lead(length) + Room(length) {
        LowBits(first, Room(length), 2 * above);
      }
    }
  }

  lemma LowBits(f: nat, b: nat, k: nat)
    requires b > 0 && 0 <= f - k * b < b
    ensures f % b == f - k * b
  {
    if f / b != k {
      ProductsApart(f / b, k, b);
    }
  }

  lemma ProductsApart(p: nat, q: nat, b: nat)
    requires p != q
    ensures p * b >= q * b + b || q * b >= p * b + b
  {
    assert p > q ==> p * b >= (q + 1) * b;
    assert p < q ==> q * b >= (p + 1) * b;
  }
}

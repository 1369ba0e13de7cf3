/** CRC-32 as in section 8 of RFC 1952, continued piece by piece. */
module Crc32 {
  import opened Words

  const ONES: bv32 := 0xffff_ffff

  function Xor(a: bv32, b: bv32): bv32 {
    a ^ b
  }

  function Halved(c: bv32): bv32 {
    c >> 1
  }

  predicate Odd(c: bv32) {
    c & 1 == 1
  }

  /** Shifts out one bit. */
  function Round(c: bv32): bv32 {
    if Odd(c) then Xor(0xedb8_8320, Halved(c)) else Halved(c)
  }

  function Rounds(c: bv32, n: nat): bv32 {
    if n == 0 then c else Round(Rounds(c, n - 1))
  }

  /** One byte through the table, whose entries are eight rounds each. */
  function TableStep(c: bv32, b: bv32): bv32 {
    Xor(Rounds(LowByte(Xor(c, b)), 8), ByteShift(c))
  }

  function LowByte(c: bv32): bv32 {
    c & 0xff
  }

  function ByteShift(c: bv32): bv32 {
    c >> 8
  }

  function ByteStep(c: bv32, b: byte): bv32 {
    TableStep(c, b as bv32)
  }

  function Register(c: bv32, data: seq<byte>): bv32 {
    if data == [] then c else ByteStep(Register(c, data[..|data| - 1]), data[|data| - 1])
  }

  /** A stored checksum. */
  function Bits(w: u32): bv32 {
    w as bv32
  }

  function Flip(c: bv32): bv32 {
    Xor(c, ONES)
  }

  /** Continues `crc` over `data`; the register is complemented before and after. */
  function Update(crc: bv32, data: seq<byte>): bv32 {
    Flip(Register(Flip(crc), data))
  }

  /** The checksum of a whole string. */
  function Crc(data: seq<byte>): bv32 {
    Update(0, data)
  }

  lemma {:induction false} RegisterAppend(c: bv32, a: seq<byte>, b: seq<byte>)
    ensures Register(c, a + b) == Register(Register(c, a), b)
    decreases |b|
  {
    hide ByteStep;
    if b == [] {
      assert a + b == a;
    } else {
      assert (a + b)[..|a + b| - 1] == a + b[..|b| - 1];
      RegisterAppend(c, a, b[..|b| - 1]);
    }
  }

  lemma Complement(c: bv32)
    ensures Flip(Flip(c)) == c
  {}

  /** Continuing the checksum of a prefix over the rest gives the checksum of the whole. */
  lemma Piecewise(a: seq<byte>, b: seq<byte>)
    ensures Update(Crc(a), b) == Crc(a + b)
  {
    hide Register, Flip;
    RegisterAppend(Flip(0), a, b);
    Complement(Register(Flip(0), a));
  }

  lemma CrcEmpty()
    ensures Crc([]) == 0
  {
    hide Flip;
    Complement(0);
  }

  // ---------------------------------------------------------------- the table against the polynomial

  /** Divides by the reflected polynomial of CRC-32, one message bit at a time, least significant first. */
  function BitStep(c: bv32, bit: bv32): bv32 {
    if (c ^ bit) & 1 == 1 then (c >> 1) ^ 0xedb8_8320 else c >> 1
  }

  function Serial(c: bv32, b: bv32, k: nat): bv32
    requires k <= 8
  {
    if k == 0 then c else BitStep(Serial(c, b, k - 1), Shifted(b, k - 1))
  }

  function Shifted(b: bv32, k: nat): bv32 {
    if k == 0 then b else Halved(Shifted(b, k - 1))
  }

  lemma HalvedXor(a: bv32, b: bv32)
    ensures Halved(Xor(a, b)) == Xor(Halved(a), Halved(b))
  {}

  lemma OddXor(a: bv32, b: bv32)
    ensures Odd(Xor(a, b)) <==> Odd(a) != Odd(b)
  {}

  lemma XorSwap(a: bv32, b: bv32)
    ensures Xor(a, b) == Xor(b, a)
  {}

  lemma XorAssoc(a: bv32, b: bv32, c: bv32)
    ensures Xor(Xor(a, b), c) == Xor(a, Xor(b, c))
  {}

  lemma XorCancel(p: bv32, x: bv32, y: bv32)
    ensures Xor(Xor(p, x), Xor(p, y)) == Xor(x, y)
  {
    hide Xor;
    XorSwap(p, x);
    XorAssoc(x, p, Xor(p, y));
    XorAssoc(p, p, y);
    XorSelf(p, y);
  }

  lemma XorSelf(p: bv32, y: bv32)
    ensures Xor(Xor(p, p), y) == y
  {}

  lemma RoundLinear(a: bv32, b: bv32)
    ensures Round(Xor(a, b)) == Xor(Round(a), Round(b))
  {
    hide Xor, Halved, Odd;
    var x, y := Halved(a), Halved(b);
    HalvedXor(a, b);
    OddXor(a, b);
    XorCancel(0xedb8_8320, x, y);
    XorAssoc(0xedb8_8320, x, y);
    XorAssoc(0xedb8_8320, y, x);
    XorSwap(x, y);
    XorSwap(x, Xor(0xedb8_8320, y));
  }

  lemma {:induction false} RoundsLinear(a: bv32, b: bv32, n: nat)
    ensures Rounds(Xor(a, b), n) == Xor(Rounds(a, n), Rounds(b, n))
  {
    hide Xor, Round;
    if n > 0 {
      RoundsLinear(a, b, n - 1);
      RoundLinear(Rounds(a, n - 1), Rounds(b, n - 1));
    }
  }

  /** Low bits that are zero are shifted out without feedback. */
  lemma EvenBits(c: bv32)
    requires c & 0xff == 0
    ensures !Odd(c) && !Odd(c >> 1) && !Odd(c >> 2) && !Odd(c >> 3) && !Odd(c >> 4) && !Odd(c >> 5) && !Odd(c >> 6) && !Odd(c >> 7)
    ensures Halved(c) == c >> 1 && Halved(c >> 1) == c >> 2 && Halved(c >> 2) == c >> 3 && Halved(c >> 3) == c >> 4
    ensures Halved(c >> 4) == c >> 5 && Halved(c >> 5) == c >> 6 && Halved(c >> 6) == c >> 7 && Halved(c >> 7) == c >> 8
  {}

  lemma ShiftedOut(c: bv32)
    requires c & 0xff == 0
    ensures Rounds(c, 8) == ByteShift(c)
  {
    hide Odd, Halved;
    EvenBits(c);
    assert Rounds(c, 0) == c;
    assert Rounds(c, 1) == c >> 1;
    assert Rounds(c, 2) == c >> 2;
    assert Rounds(c, 3) == c >> 3;
    assert Rounds(c, 4) == c >> 4;
    assert Rounds(c, 5) == c >> 5;
    assert Rounds(c, 6) == c >> 6;
    assert Rounds(c, 7) == c >> 7;
  }

  function HighBytes(c: bv32): bv32 {
    c & 0xffff_ff00
  }

  lemma LowAndHigh(x: bv32)
    ensures x == Xor(LowByte(x), HighBytes(x)) && HighBytes(x) & 0xff == 0
  {}

  lemma HighUnchanged(c: bv32, b: bv32)
    requires b <= 0xff
    ensures ByteShift(HighBytes(Xor(c, b))) == ByteShift(c)
  {}

  /** Looking up the low byte is the same as eight rounds on the whole register. */
  lemma TableIsRounds(c: bv32, b: bv32)
    requires b <= 0xff
    ensures TableStep(c, b) == Rounds(Xor(c, b), 8)
  {
    hide Xor, Rounds, LowByte, HighBytes, ByteShift;
    var x := Xor(c, b);
    LowAndHigh(x);
    RoundsLinear(LowByte(x), HighBytes(x), 8);
    ShiftedOut(HighBytes(x));
    HighUnchanged(c, b);
  }

  lemma FeedBit(s: bv32, t: bv32)
    ensures Round(Xor(s, t)) == Xor(BitStep(s, t), Halved(t))
  {
    hide Xor, Halved;
    HalvedXor(s, t);
    StepParts(s, t);
    XorAssoc(0xedb8_8320, Halved(s), Halved(t));
  }

  lemma StepParts(s: bv32, t: bv32)
    ensures BitStep(s, t) == if Odd(Xor(s, t)) then Xor(0xedb8_8320, Halved(s)) else Halved(s)
  {}

  lemma {:induction false} RoundsAreSerial(c: bv32, b: bv32, k: nat)
    requires k <= 8
    ensures Rounds(Xor(c, b), k) == Xor(Serial(c, b, k), Shifted(b, k))
  {
    hide Xor, Round, BitStep, Halved;
    if k > 0 {
      RoundsAreSerial(c, b, k - 1);
      FeedBit(Serial(c, b, k - 1), Shifted(b, k - 1));
    }
  }

  lemma AllShifted(b: bv32)
    requires b <= 0xff
    ensures Shifted(b, 8) == 0
  {
    assert Shifted(b, 0) == b;
    assert Shifted(b, 1) == b >> 1;
    assert Shifted(b, 2) == b >> 2;
    assert Shifted(b, 3) == b >> 3;
    assert Shifted(b, 4) == b >> 4;
    assert Shifted(b, 5) == b >> 5;
    assert Shifted(b, 6) == b >> 6;
    assert Shifted(b, 7) == b >> 7;
  }

  lemma XorZero(a: bv32)
    ensures Xor(a, 0) == a
  {}

  lemma ByteRange(b: byte)
    ensures b as bv32 <= 0xff
  {}

  /** Each table step divides the register by the polynomial, over the eight bits of the byte. */
  lemma TableDivides(c: bv32, b: byte)
    ensures ByteStep(c, b) == Serial(c, b as bv32, 8)
  {
    hide Xor, Rounds, Serial, Shifted, TableStep;
    ByteRange(b);
    TableIsRounds(c, b as bv32);
    RoundsAreSerial(c, b as bv32, 8);
    AllShifted(b as bv32);
    XorZero(Serial(c, b as bv32, 8));
  }

  /** The remainder register after all bits of a string. */
  function Divide(c: bv32, data: seq<byte>): bv32 {
    if data == [] then c else Serial(Divide(c, data[..|data| - 1]), data[|data| - 1] as bv32, 8)
  }

  lemma {:induction false} RegisterDivides(c: bv32, data: seq<byte>)
    ensures Register(c, data) == Divide(c, data)
  {
    hide ByteStep, Serial;
    if data != [] {
      RegisterDivides(c, data[..|data| - 1]);
      TableDivides(Divide(c, data[..|data| - 1]), data[|data| - 1]);
    }
  }

  /** The checksum is the bit-serial remainder, started from and complemented with all ones. */
  lemma CrcIsRemainder(data: seq<byte>)
    ensures Crc(data) == Divide(0xffff_ffff, data) ^ 0xffff_ffff
  {
    hide Register, Divide;
    AllOnes();
    RegisterDivides(0xffff_ffff, data);
  }

  lemma AllOnes()
    ensures Flip(0) == 0xffff_ffff
  {}
}

/** Machine words, little-endian byte images and the bitwise OR used for packing. */
module Words {

  type byte = b: int | 0 <= b < 256
  type u32 = w: int | 0 <= w < 0x1_0000_0000
  type u64 = w: int | 0 <= w < 0x1_0000_0000_0000_0000

  /** DMA addresses have 34 bits. */
  const DMA_LIMIT := 0x4_0000_0000

  datatype Option<+T> = None | Some(value: T)

  // ---------------------------------------------------------------- bytes

  function At(b: seq<byte>, i: int): byte {
    if 0 <= i < |b| then b[i] else 0
  }

  /** The little-endian 32-bit word at offset `at`. */
  function Word(b: seq<byte>, at: int): u32 {
    At(b, at) + 0x100 * At(b, at + 1) + 0x1_0000 * At(b, at + 2) + 0x100_0000 * At(b, at + 3)
  }

  function WordBytes(v: u32): (b: seq<byte>)
    ensures |b| == 4
  {
    var v1 := v / 0x100;
    var v2 := v1 / 0x100;
    [v % 0x100, v1 % 0x100, v2 % 0x100, v2 / 0x100]
  }

  lemma WordOfBytes(b: seq<byte>, at: nat, v: u32)
    requires at + 4 <= |b| && b[at..at + 4] == WordBytes(v)
    ensures Word(b, at) == v
  {
    forall k | 0 <= k < 4 ensures b[at + k] == WordBytes(v)[k] {
      assert b[at..at + 4][k] == b[at + k];
    }
    assert b[at] == WordBytes(v)[0] && b[at + 1] == WordBytes(v)[1];
    assert b[at + 2] == WordBytes(v)[2] && b[at + 3] == WordBytes(v)[3];
  }

  lemma BytesOfWord(b: seq<byte>, at: nat)
    requires at + 4 <= |b|
    ensures WordBytes(Word(b, at)) == b[at..at + 4]
  {
    WordParts(b[at], b[at + 1], b[at + 2], b[at + 3]);
  }

  lemma WordParts(b0: byte, b1: byte, b2: byte, b3: byte)
    ensures WordBytes(b0 + 0x100 * b1 + 0x1_0000 * b2 + 0x100_0000 * b3) == [b0, b1, b2, b3]
  {
    var v: int := b0 + 0x100 * b1 + 0x1_0000 * b2 + 0x100_0000 * b3;
    assert v / 0x100 == b1 + 0x100 * b2 + 0x1_0000 * b3;
    assert v / 0x100 / 0x100 == b2 + 0x100 * b3;
  }

  /** Little-endian 16-bit words. */
  function HalfBytes(v: nat): (b: seq<byte>)
    requires v < 0x1_0000
    ensures |b| == 2
  {
    [v % 0x100, v / 0x100]
  }

  function HalfWord(b: seq<byte>, at: nat): (v: nat)
    requires at + 2 <= |b|
    ensures v < 0x1_0000
  {
    var low: int, high: int := b[at], b[at + 1];
    low + 0x100 * high
  }

  lemma HalfOfBytes(b: seq<byte>, at: nat, v: nat)
    requires v < 0x1_0000 && at + 2 <= |b| && b[at..at + 2] == HalfBytes(v)
    ensures HalfWord(b, at) == v
  {
    assert b[at] == b[at..at + 2][0] && b[at + 1] == b[at..at + 2][1];
  }

  lemma BytesOfHalf(b: seq<byte>, at: nat)
    requires at + 2 <= |b|
    ensures HalfBytes(HalfWord(b, at)) == b[at..at + 2]
  {
    HalfParts(b[at], b[at + 1]);
  }

  lemma HalfParts(low: int, high: int)
    requires 0 <= low < 256 && 0 <= high < 256
    ensures (low + 0x100 * high) % 0x100 == low && (low + 0x100 * high) / 0x100 == high
  {}

  function Zeros(n: nat): (z: seq<byte>)
    ensures |z| == n
  {
    seq(n, _ => 0)
  }

  lemma SliceOfSlice(s: seq<byte>, at: nat, n: nat, i: nat, j: nat)
    requires i <= j <= n && at + n <= |s|
    ensures s[at..at + n][i..j] == s[at + i..at + j]
  {
    var a, b := s[at..at + n][i..j], s[at + i..at + j];
    assert |a| == |b|;
    forall k | 0 <= k < |a| ensures a[k] == b[k] {
      assert a[k] == s[at..at + n][i + k] == s[at + i + k] == b[k];
    }
  }

  lemma WordShift(data: seq<byte>, at: nat, n: nat, i: nat)
    requires at + n <= |data| && i + 4 <= n
    ensures Word(data[at..at + n], i) == Word(data, at + i)
  {}

  lemma HalfShift(data: seq<byte>, at: nat, n: nat, i: nat)
    requires at + n <= |data| && i + 2 <= n
    ensures HalfWord(data[at..at + n], i) == HalfWord(data, at + i)
  {}

  ghost predicate Agree(b: seq<byte>, c: seq<byte>, lo: int, hi: int) {
    |b| == |c| && forall i | 0 <= i < |b| && lo <= i < hi :: b[i] == c[i]
  }

  /** Stores `v` at `p[at..at + 4]`, least significant byte first. */
  method Put32(p: array<byte>, at: nat, v: u32)
    requires at + 4 <= p.Length
    modifies p
    ensures Word(p[..], at) == v
    ensures forall i | 0 <= i < p.Length && !(at <= i < at + 4) :: p[i] == old(p[i])
  {
    var v1 := v / 0x100;
    var v2 := v1 / 0x100;
    p[at] := v % 0x100;
    p[at + 1] := v1 % 0x100;
    p[at + 2] := v2 % 0x100;
    p[at + 3] := v2 / 0x100;
  }

  /** Stores the 64-bit `v` as two little-endian words. */
  method Put64(p: array<byte>, at: nat, v: u64)
    requires at + 8 <= p.Length
    modifies p
    ensures Word(p[..], at) == v % 0x1_0000_0000
    ensures Word(p[..], at + 4) == v / 0x1_0000_0000
    ensures forall i | 0 <= i < p.Length && !(at <= i < at + 8) :: p[i] == old(p[i])
  {
    Put32(p, at, v % 0x1_0000_0000);
    ghost var low := p[..];
    Put32(p, at + 4, v / 0x1_0000_0000);
    assert Word(p[..], at) == Word(low, at);
  }

  // ---------------------------------------------------------------- address ranges

  /** `[a, a + aSize)` and `[b, b + bSize)` as the source compares pointers. */
  predicate VaOverlap(a: nat, aSize: nat, b: nat, bSize: nat) {
    if a <= b then b - a < aSize else a - b < bSize
  }

  function One(b: bool): nat {
    if b then 1 else 0
  }

  // ---------------------------------------------------------------- shifts and bitwise OR

  function Shl(a: nat, k: nat): (r: nat)
    ensures r >= a
  {
    if k == 0 then a else 2 * Shl(a, k - 1)
  }

  function Or(a: nat, b: nat): nat {
    if a == 0 && b == 0 then 0
    else (if a % 2 == 1 || b % 2 == 1 then 1 else 0) + 2 * Or(a / 2, b / 2)
  }

  function And(a: nat, b: nat): (r: nat)
    ensures r <= a && r <= b
  {
    if a == 0 || b == 0 then 0
    else (if a % 2 == 1 && b % 2 == 1 then 1 else 0) + 2 * And(a / 2, b / 2)
  }

  /** The complement of a 32-bit word. */
  function Not(a: u32): u32 {
    0xffff_ffff - a
  }

  /** Binary digit `i`. */
  function Bit(a: nat, i: nat): nat {
    if i == 0 then a % 2 else Bit(a / 2, i - 1)
  }

  lemma {:induction false} ZeroBit(i: nat)
    ensures Bit(0, i) == 0
  {
    if i > 0 {
      ZeroBit(i - 1);
    }
  }

  lemma {:induction false} AndBit(a: nat, b: nat, i: nat)
    ensures Bit(And(a, b), i) == if Bit(a, i) == 1 && Bit(b, i) == 1 then 1 else 0
    decreases i
  {
    ZeroBit(i);
    if i > 0 {
      AndBit(a / 2, b / 2, i - 1);
      if a != 0 && b != 0 {
        assert And(a, b) / 2 == And(a / 2, b / 2);
      } else {
        ZeroBit(i - 1);
      }
    }
  }

  lemma {:induction false} OrBit(a: nat, b: nat, i: nat)
    ensures Bit(Or(a, b), i) == if Bit(a, i) == 1 || Bit(b, i) == 1 then 1 else 0
    decreases i
  {
    ZeroBit(i);
    if i > 0 {
      OrBit(a / 2, b / 2, i - 1);
      if a != 0 || b != 0 {
        assert Or(a, b) / 2 == Or(a / 2, b / 2);
      }
    }
  }

  lemma {:induction false} ComplementBit(a: nat, k: nat, i: nat)
    requires a < Shl(1, k) && i < k
    ensures Bit(Shl(1, k) - 1 - a, i) == 1 - Bit(a, i)
  {
    assert Shl(1, k) == 2 * Shl(1, k - 1);
    if i > 0 {
      ComplementBit(a / 2, k - 1, i - 1);
      assert (Shl(1, k) - 1 - a) / 2 == Shl(1, k - 1) - 1 - a / 2;
    }
  }

  lemma NotBit(a: u32, i: nat)
    requires i < 32
    ensures Bit(Not(a), i) == 1 - Bit(a, i)
  {
    hide Bit;
    WordRange();
    ComplementBit(a, 32, i);
  }

  lemma WordRange()
    ensures Shl(1, 32) == 0x1_0000_0000
  {
    CommandShifts(0x1_0000);
    CommandShifts(1);
    ShlTwice(1, 16, 16);
  }

  lemma {:induction false} ShlTwice(a: nat, j: nat, k: nat)
    ensures Shl(Shl(a, j), k) == Shl(a, j + k)
    decreases k
  {
    if k > 0 {
      ShlTwice(a, j, k - 1);
    }
  }

  lemma {:induction false} OrBound(a: nat, b: nat, k: nat)
    requires a < Shl(1, k) && b < Shl(1, k)
    ensures Or(a, b) < Shl(1, k)
    decreases k
  {
    if k > 0 {
      OrBound(a / 2, b / 2, k - 1);
    }
  }

  lemma OrWord(a: u32, b: u32)
    ensures Or(a, b) < 0x1_0000_0000
  {
    hide Or;
    WordRange();
    OrBound(a, b, 32);
  }

  /** A test of one bit. */
  lemma {:induction false} AndOneBit(a: nat, k: nat)
    ensures And(a, Shl(1, k)) != 0 <==> Bit(a, k) == 1
    decreases k
  {
    if a == 0 {
      ZeroBit(k);
    } else if k == 0 {
      assert And(a, 1) == a % 2 + 2 * And(a / 2, 0);
    } else {
      AndOneBit(a / 2, k - 1);
      assert Shl(1, k) / 2 == Shl(1, k - 1) && Shl(1, k) % 2 == 0;
      ShlPositive(k);
    }
  }

  lemma {:induction false} ShlPositive(k: nat)
    ensures Shl(1, k) > 0
  {
    if k > 0 {
      ShlPositive(k - 1);
    }
  }

  /** A word and its complement share no bit. */
  lemma {:induction false} AndComplement(a: nat, b: nat, k: nat)
    requires a + b == Shl(1, k) - 1
    ensures And(a, b) == 0
    decreases k
  {
    if k > 0 {
      AndComplement(a / 2, b / 2, k - 1);
    }
  }

  lemma AndTwice(a: nat, b: nat)
    ensures And(2 * a, b) == 2 * And(a, b / 2)
  {}

  lemma AndFour(a: nat, b: nat)
    ensures And(4 * a, b) == 4 * And(a, b / 4)
  {
    hide And;
    AndTwice(2 * a, b);
    AndTwice(a, b / 2);
  }

  lemma AndSixteen(a: nat, b: nat)
    ensures And(16 * a, b) == 16 * And(a, b / 16)
  {
    hide And;
    AndFour(4 * a, b);
    AndFour(a, b / 4);
  }

  /** Low bits and a word shifted past them share none. */
  lemma {:induction false} AndLow(a: nat, b: nat, k: nat)
    requires a < Shl(1, k)
    ensures And(a, Shl(b, k)) == 0
    decreases k
  {
    hide And;
    AndNothing(Shl(b, k));
    if k > 0 {
      AndLowBit(a, Shl(b, k - 1));
      AndLow(a / 2, b, k - 1);
    }
  }

  lemma AndLowBit(a: nat, b: nat)
    ensures And(a, 2 * b) == 2 * And(a / 2, b)
  {
    if a > 0 && b > 0 {
      Doubled(b);
      assert And(a, 2 * b) == (if a % 2 == 1 && 2 * b % 2 == 1 then 1 else 0) + 2 * And(a / 2, 2 * b / 2);
    }
  }

  lemma Doubled(b: nat)
    ensures 2 * b % 2 == 0 && 2 * b / 2 == b
  {}

  lemma AndNothing(b: nat)
    ensures And(0, b) == 0
  {}

  lemma AndShifted(a: nat, b: nat)
    ensures And(0x100 * a, b) == 0x100 * And(a, b / 0x100)
  {
    hide And;
    AndSixteen(16 * a, b);
    AndSixteen(a, b / 16);
  }

  lemma {:induction false} OrZero(a: nat)
    ensures Or(a, 0) == a && Or(0, a) == a
  {
    if a > 0 {
      OrZero(a / 2);
    }
  }

  lemma OrDouble(p: nat, q: nat, a: nat, b: nat)
    requires p <= 1 && q <= 1
    ensures Or(p + 2 * a, q + 2 * b) == (if p == 1 || q == 1 then 1 else 0) + 2 * Or(a, b)
  {
    assert (p + 2 * a) / 2 == a && (q + 2 * b) / 2 == b;
    assert (p + 2 * a) % 2 == p && (q + 2 * b) % 2 == q;
  }

  /** OR distributes over a split into low bits and shifted high parts. */
  lemma {:induction false} OrSplit(low: nat, a: nat, b: nat, k: nat)
    requires low < Shl(1, k)
    ensures Or(low + Shl(a, k), Shl(b, k)) == low + Shl(Or(a, b), k)
    ensures Or(Shl(b, k), low + Shl(a, k)) == low + Shl(Or(b, a), k)
    decreases k
  {
    hide Or;
    if k > 0 {
      assert low == low % 2 + 2 * (low / 2);
      OrSplit(low / 2, a, b, k - 1);
      OrDouble(low % 2, 0, low / 2 + Shl(a, k - 1), Shl(b, k - 1));
      OrDouble(0, low % 2, Shl(b, k - 1), low / 2 + Shl(a, k - 1));
    }
  }

  lemma {:induction false} ShlByteWise(a: nat, k: nat)
    requires k >= 8
    ensures Shl(a, k) == 0x100 * Shl(a, k - 8)
  {
    assert Shl(a, k) == 4 * Shl(a, k - 2) == 16 * Shl(a, k - 4);
    assert Shl(a, k - 4) == 4 * Shl(a, k - 6) == 16 * Shl(a, k - 8);
  }

  /** The three shifts that the command word needs, as multiplications. */
  lemma CommandShifts(a: nat)
    ensures Shl(a, 16) == 0x1_0000 * a && Shl(a, 27) == 0x800_0000 * a && Shl(a, 11) == 0x800 * a
  {
    ShlByteWise(a, 8);
    ShlByteWise(a, 16);
    ShlByteWise(a, 11);
    ShlByteWise(a, 19);
    ShlByteWise(a, 27);
    assert Shl(a, 3) == 4 * Shl(a, 1) == 8 * a;
  }
}

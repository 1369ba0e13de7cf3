/**
 * The camera command queue: a two-ended in-place encoder.  12-byte descriptors
 * grow up from the start of the buffer, 32-bit values grow down from its end.
 * The decoder is what the hardware does: it follows descriptors up to END.
 */
module CommandQueue {
  import opened Errno
  import opened Words

  const REG_BASE := 0x1a00_0000
  const REG_SIZE := 0x0020_0000
  const DESC_BYTES := 12
  const MAX_WORDS := 511
  const END := 0x0600_0000

  datatype RegWrite = RegWrite(address: u32, value: u32)

  /** Where an argument lives: a C automatic object, or a caller's address. */
  datatype Origin = Automatic | Address(at: nat)

  // ---------------------------------------------------------------- command words

  /** Low 16 register bits, register bits 16..20 at bit 27, word count less one at bit 16. */
  function CommandBits(reg: u32, n: nat): nat
    requires n >= 1
  {
    Or(Or(reg % 0x1_0000, Shl(reg / 0x1_0000 % 32, 27)), Shl(n - 1, 16))
  }

  function Command(reg: u32, n: nat): u32
    requires 1 <= n <= MAX_WORDS
  {
    CommandSum(reg, n);
    CommandBits(reg, n)
  }

  function RegisterOf(command: u32): nat {
    REG_BASE + command % 0x1_0000 + command / 0x800_0000 * 0x1_0000
  }

  function CountOf(command: u32): nat {
    command / 0x1_0000 % 512 + 1
  }

  /** Bits 25 and 26 are zero in every data command and set in END. */
  predicate IsData(command: u32) {
    command / 0x200_0000 % 4 == 0
  }

  lemma CommandSum(reg: u32, n: nat)
    requires 1 <= n <= MAX_WORDS
    ensures CommandBits(reg, n) == reg % 0x1_0000 + 0x1_0000 * (n - 1) + 0x800_0000 * (reg / 0x1_0000 % 32)
  {
    hide Or, Shl;
    var low, hi := reg % 0x1_0000, reg / 0x1_0000 % 32;
    CommandShifts(0); CommandShifts(1); CommandShifts(hi); CommandShifts(n - 1);
    OrZero(hi);
    OrSplit(low, 0, hi, 27);
    CommandShifts(Shl(hi, 11));
    OrSplit(low, Shl(hi, 11), n - 1, 16);
    OrSplit(n - 1, 0, hi, 11);
    CommandShifts(n - 1 + Shl(hi, 11));
  }

  lemma CommandFields(c: u32, low: nat, m: nat, hi: nat)
    requires low < 0x1_0000 && m < 512 && hi < 32
    requires c == low + 0x1_0000 * m + 0x800_0000 * hi
    ensures RegisterOf(c) == REG_BASE + low + 0x1_0000 * hi && CountOf(c) == m + 1 && IsData(c) && c != END
  {
    assert c / 0x1_0000 == m + 0x800 * hi;
    assert (m + 0x800 * hi) % 512 == m;
    assert c / 0x800_0000 == hi;
    assert c / 0x200_0000 == 4 * hi;
  }

  /** A packed command gives back its register and count, and is never END. */
  lemma CommandRoundTrip(reg: u32, n: nat)
    requires REG_BASE <= reg < REG_BASE + REG_SIZE && 1 <= n <= MAX_WORDS
    ensures RegisterOf(Command(reg, n)) == reg
    ensures CountOf(Command(reg, n)) == n
    ensures IsData(Command(reg, n)) && Command(reg, n) != END
  {
    hide CommandBits, CountOf, RegisterOf, IsData;
    CommandSum(reg, n);
    var low, hi := reg % 0x1_0000, reg / 0x1_0000 % 32;
    CommandFields(Command(reg, n), low, n - 1, hi);
    assert reg / 0x1_0000 == 0x1a00 + hi;
  }

  // ---------------------------------------------------------------- decoding

  function Pointer(b: seq<byte>, at: int): u64 {
    Word(b, at + 4) + 0x1_0000_0000 * Word(b, at + 8)
  }

  /** The register writes of one descriptor: consecutive words to registers 4 apart. */
  function DescriptorWrites(b: seq<byte>, iova: u64, at: int): seq<RegWrite> {
    var reg, values := RegisterOf(Word(b, at)), Pointer(b, at) - iova;
    seq(CountOf(Word(b, at)), k requires k >= 0 => RegWrite((reg + 4 * k) % 0x1_0000_0000, Word(b, values + 4 * k)))
  }

  /** The value words of the descriptor at `at` lie inside `b[from..]`. */
  predicate ValuesInside(b: seq<byte>, iova: u64, at: int, from: int) {
    iova + from <= Pointer(b, at) && Pointer(b, at) + 4 * CountOf(Word(b, at)) <= iova + |b|
  }

  /**
   * The hardware's reading of a queue image: descriptors from `at` up to END,
   * inside the first `length` bytes; None when it runs off or a pointer leaves the image.
   */
  function Decode(b: seq<byte>, iova: u64, at: nat, length: nat): (r: Option<seq<RegWrite>>)
    decreases length - at
  {
    if at + DESC_BYTES > length || length > |b| then None
    else if Word(b, at) == END then Some([])
    else if !ValuesInside(b, iova, at, 0) then None
    else
      match Decode(b, iova, at + DESC_BYTES, length)
      case None => None
      case Some(rest) => Some(DescriptorWrites(b, iova, at) + rest)
  }

  // ---------------------------------------------------------------- partially built images

  /** The first `n` descriptors are data descriptors whose values lie at or above `tail`. */
  ghost predicate DataDescriptors(b: seq<byte>, iova: u64, n: nat, tail: int) {
    forall i | 0 <= i < n :: DataAt(b, iova, i, tail)
  }

  predicate DataAt(b: seq<byte>, iova: u64, i: int, tail: int) {
    IsData(Word(b, DESC_BYTES * i)) && ValuesInside(b, iova, DESC_BYTES * i, tail)
  }

  function Prefix(b: seq<byte>, iova: u64, n: nat): seq<RegWrite> {
    if n == 0 then [] else Prefix(b, iova, n - 1) + DescriptorWrites(b, iova, DESC_BYTES * (n - 1))
  }

  lemma WordsAgree(b: seq<byte>, c: seq<byte>, lo: nat, hi: nat)
    requires Agree(b, c, lo, hi) && hi <= |b|
    ensures forall at | lo <= at && at + 4 <= hi :: Word(b, at) == Word(c, at)
  {}

  lemma DescriptorFrame(b: seq<byte>, c: seq<byte>, iova: u64, i: nat, n: nat, tail: nat)
    requires i < n && DESC_BYTES * n <= tail <= |b|
    requires DataDescriptors(b, iova, n, tail)
    requires Agree(b, c, 0, DESC_BYTES * n) && Agree(b, c, tail, |b|)
    ensures DataAt(c, iova, i, tail)
    ensures DescriptorWrites(c, iova, DESC_BYTES * i) == DescriptorWrites(b, iova, DESC_BYTES * i)
  {
    assert DataAt(b, iova, i, tail);
    var at := DESC_BYTES * i;
    assert Word(c, at) == Word(b, at) && Pointer(c, at) == Pointer(b, at);
    var values, m := Pointer(b, at) - iova, CountOf(Word(b, at));
    forall k | 0 <= k < m ensures Word(c, values + 4 * k) == Word(b, values + 4 * k) {
      assert tail <= values + 4 * k && values + 4 * k + 4 <= |b|;
    }
  }

  /** Bytes between the descriptors and the values do not matter. */
  lemma {:induction false} PrefixFrame(b: seq<byte>, c: seq<byte>, iova: u64, n: nat, m: nat, tail: nat)
    requires m <= n && DESC_BYTES * n <= tail <= |b|
    requires DataDescriptors(b, iova, n, tail)
    requires Agree(b, c, 0, DESC_BYTES * n) && Agree(b, c, tail, |b|)
    ensures DataDescriptors(c, iova, m, tail)
    ensures Prefix(c, iova, m) == Prefix(b, iova, m)
  {
    hide Word, DescriptorWrites, DataAt, Agree;
    if m > 0 {
      PrefixFrame(b, c, iova, n, m - 1, tail);
      DescriptorFrame(b, c, iova, m - 1, n, tail);
    }
  }

  /** Decoding a finished image from descriptor `m` yields what the builder recorded after it. */
  lemma {:induction false} DecodeFinished(b: seq<byte>, iova: u64, n: nat, m: nat, tail: nat)
    requires m <= n && DESC_BYTES * n + DESC_BYTES <= tail <= |b|
    requires DataDescriptors(b, iova, n, tail) && Word(b, DESC_BYTES * n) == END
    ensures Decode(b, iova, DESC_BYTES * m, DESC_BYTES * n + DESC_BYTES).Some?
    ensures Prefix(b, iova, m) + Decode(b, iova, DESC_BYTES * m, DESC_BYTES * n + DESC_BYTES).value
         == Prefix(b, iova, n)
    decreases n - m
  {
    hide Word, Pointer, CountOf, RegisterOf, DescriptorWrites;
    if m < n {
      var at, length := DESC_BYTES * m, DESC_BYTES * n + DESC_BYTES;
      assert DataAt(b, iova, m, tail);
      DecodeFinished(b, iova, n, m + 1, tail);
      var own, rest := DescriptorWrites(b, iova, at), Decode(b, iova, at + DESC_BYTES, length).value;
      assert Decode(b, iova, at, length) == Some(own + rest);
      assert Prefix(b, iova, m + 1) == Prefix(b, iova, m) + own;
      assert Prefix(b, iova, m) + (own + rest) == Prefix(b, iova, m) + own + rest;
    }
  }

  lemma LowerTail(b: seq<byte>, iova: u64, n: nat, tail: nat, lower: nat)
    requires DataDescriptors(b, iova, n, tail) && lower <= tail
    ensures DataDescriptors(b, iova, n, lower)
  {
    forall i | 0 <= i < n ensures DataAt(b, iova, i, lower) {
      assert DataAt(b, iova, i, tail);
    }
  }

  /** Writing descriptor `n` below the tail adds its writes and keeps the earlier ones. */
  lemma AppendDescriptor(b: seq<byte>, c: seq<byte>, iova: u64, n: nat, tail: nat, reg: u32, count: nat, values: nat)
    requires DESC_BYTES * n + DESC_BYTES <= tail <= values && values + 4 * count <= |b|
    requires DataDescriptors(b, iova, n, tail)
    requires Agree(b, c, 0, DESC_BYTES * n) && Agree(b, c, tail, |b|)
    requires REG_BASE <= reg < REG_BASE + REG_SIZE && 1 <= count <= MAX_WORDS
    requires Word(c, DESC_BYTES * n) == Command(reg, count) && Pointer(c, DESC_BYTES * n) == iova + values
    ensures DataDescriptors(c, iova, n + 1, tail)
    ensures Prefix(c, iova, n + 1) == Prefix(b, iova, n) + WordsAt(b, reg, count, values)
  {
    CommandRoundTrip(reg, count);
    PrefixFrame(b, c, iova, n, n, tail);
    assert DataAt(c, iova, n, tail);
    forall k | 0 <= k < count ensures Word(c, values + 4 * k) == Word(b, values + 4 * k) {
      assert tail <= values + 4 * k && values + 4 * k + 4 <= |b|;
    }
    assert DescriptorWrites(c, iova, DESC_BYTES * n) == WordsAt(b, reg, count, values);
  }

  function WordsAt(b: seq<byte>, reg: u32, count: nat, values: nat): seq<RegWrite> {
    seq(count, k requires 0 <= k < count => RegWrite((reg + 4 * k) % 0x1_0000_0000, Word(b, values + 4 * k)))
  }

  /** Writing END below the tail makes the image decode to the recorded writes. */
  lemma Seal(b: seq<byte>, c: seq<byte>, iova: u64, n: nat, tail: nat)
    requires DESC_BYTES * n + DESC_BYTES <= tail <= |b|
    requires DataDescriptors(b, iova, n, tail)
    requires Agree(b, c, 0, DESC_BYTES * n) && Agree(b, c, tail, |b|)
    requires Word(c, DESC_BYTES * n) == END
    ensures DataDescriptors(c, iova, n, tail) && Prefix(c, iova, n) == Prefix(b, iova, n)
    ensures Decode(c, iova, 0, DESC_BYTES * n + DESC_BYTES) == Some(Prefix(b, iova, n))
  {
    hide Word, Pointer, CountOf, RegisterOf, DescriptorWrites;
    PrefixFrame(b, c, iova, n, n, tail);
    DecodeFinished(c, iova, n, 0, tail);
    var decoded := Decode(c, iova, 0, DESC_BYTES * n + DESC_BYTES);
    assert Prefix(c, iova, 0) + decoded.value == decoded.value;
  }

  // ---------------------------------------------------------------- the builder

  /** The writes that appending `values` at `reg` asks for. */
  function Run(reg: u32, values: seq<u32>): seq<RegWrite> {
    seq(|values|, k requires 0 <= k < |values| => RegWrite((reg + 4 * k) % 0x1_0000_0000, values[k]))
  }

  function Descriptors(count: nat): nat {
    (count + MAX_WORDS - 1) / MAX_WORDS
  }

  /** One descriptor for every 511 words begun. */
  lemma DescriptorsAre(count: nat)
    ensures count <= 511 * Descriptors(count) && (count == 0 ==> Descriptors(count) == 0)
    ensures count > 0 ==> 511 * (Descriptors(count) - 1) < count
  {}

  lemma ChunkCount(left: nat)
    ensures Descriptors(0) == 0
    ensures left > 0 ==> Descriptors(left) == Descriptors(if left > MAX_WORDS then left - MAX_WORDS else 0) + 1
  {}

  predicate InitArguments(capacity: u32, iova: u64, regBase: u32, regSize: u32) {
    && capacity >= 28 && capacity % 4 == 0
    && iova % 16 == 0 && iova < DMA_LIMIT && capacity <= DMA_LIMIT - iova
    && REG_BASE <= regBase && regBase % 4 == 0
    && regSize > 0 && regSize % 4 == 0 && regSize <= REG_SIZE
    && regBase - REG_BASE <= REG_SIZE - regSize
  }

  class Queue {
    const buffer: array<byte>
    const start: nat
    const address: nat
    const iova: u64
    const capacity: u32
    const regBase: u32
    const regSize: u32
    var head: u32
    var tail: u32
    var finished: bool
    var firstError: int
    ghost var entries: nat  // data descriptors written
    ghost var stored: nat   // value words written

    ghost function Bytes(): (b: seq<byte>)
      reads buffer
      ensures start + capacity <= buffer.Length ==> |b| == capacity
    {
      if start + capacity <= buffer.Length then buffer[start..start + capacity] else []
    }

    /** The rest of the buffer that the queue is a slice of. */
    ghost function Outside(): seq<byte>
      reads buffer
    {
      if start + capacity <= buffer.Length then buffer[..start] + buffer[start + capacity..] else []
    }

    /**
     * One END always still fits, and the descriptor length stays a 16-bit number.
     * Every data descriptor points into the value tail.
     */
    ghost predicate Valid()
      reads this, buffer
    {
      && InitArguments(capacity, iova, regBase, regSize)
      && start + capacity <= buffer.Length
      && firstError <= 0
      && tail == capacity - 4 * stored
      && (if finished then
            && entries > 0 && head == DESC_BYTES * entries + DESC_BYTES <= tail && head <= 0xffff
            && Word(Bytes(), DESC_BYTES * entries) == END
          else head == DESC_BYTES * entries && head + DESC_BYTES <= tail && head + DESC_BYTES <= 0xffff)
      && DataDescriptors(Bytes(), iova, entries, tail)
    }

    /** What the image built so far asks the hardware to do. */
    ghost function Writes(): seq<RegWrite>
      requires Valid()
      reads this, buffer
    {
      Prefix(Bytes(), iova, entries)
    }

    /** The buffer, the two cursors and the finished flag. */
    twostate predicate Untouched()
      reads this, buffer
    {
      buffer[..] == old(buffer[..]) && head == old(head) && tail == old(tail) && finished == old(finished)
    }

    /** An invalid aperture, mapping or capacity is refused; a queue exists only on success. */
    static method Init(buffer: array<byte>, start: nat, address: nat, capacity: u32, iova: u64, regBase: u32, regSize: u32)
      returns (ret: int, q: Queue?)
      requires start + capacity <= buffer.Length
      ensures ret == (if InitArguments(capacity, iova, regBase, regSize) then 0 else EINVAL) && (ret == 0 <==> q != null)
      ensures ret == 0 ==> fresh(q) && q.Valid() && q.Writes() == [] && q.Fresh() && q.buffer == buffer && q.start == start
                           && q.capacity == capacity && q.iova == iova && q.regBase == regBase && q.regSize == regSize
    {
      if !InitArguments(capacity, iova, regBase, regSize) {
        return EINVAL, null;
      }
      q := new Queue.Prepared(buffer, start, address, capacity, iova, regBase, regSize);
      ret := 0;
    }

    constructor Prepared(buffer: array<byte>, start: nat, address: nat, capacity: u32, iova: u64, regBase: u32, regSize: u32)
      requires start + capacity <= buffer.Length
      requires InitArguments(capacity, iova, regBase, regSize)
      ensures Valid() && Writes() == [] && Fresh()
      ensures this.buffer == buffer && this.start == start && this.address == address && this.iova == iova
      ensures this.capacity == capacity && this.regBase == regBase && this.regSize == regSize
    {
      this.buffer, this.start, this.address, this.iova := buffer, start, address, iova;
      this.capacity, this.regBase, this.regSize := capacity, regBase, regSize;
      head, tail, finished, firstError := 0, capacity, false, 0;
      entries, stored := 0, 0;
    }

    predicate Fresh()
      reads this
    {
      head == 0 && tail == capacity && !finished && firstError == 0
    }

    /**
     * What every reachable queue keeps: whole descriptors and whole words, room for END
     * while unfinished, a 16-bit length, and value addresses inside the 34-bit mapping.
     */
    lemma Space()
      requires Valid()
      ensures head % DESC_BYTES == 0 && tail % 4 == 0 && head <= tail <= capacity && head <= 0xffff
      ensures !finished ==> tail - head >= DESC_BYTES && head + DESC_BYTES <= 0xffff
      ensures forall i | 0 <= i < entries :: DataAt(Bytes(), iova, i, tail)
      ensures iova + capacity <= DMA_LIMIT
    {
      hide DataAt, Word;
      assert (capacity - 4 * stored) % 4 == 0;
    }

    /** Latches the first error and returns the latched one. */
    method Fail(error: int) returns (ret: int)
      requires error < 0
      modifies this`firstError
      ensures firstError == (if old(firstError) == 0 then error else old(firstError)) && ret == firstError
    {
      if firstError == 0 {
        firstError := error;
      }
      return firstError;
    }

    /** The up-front checks of an append; 0 means that the append goes through. */
    function AppendCode(reg: u32, count: nat, origin: Origin): int
      reads this
    {
      if firstError != 0 then firstError
      else if finished then EALREADY
      else if count == 0 || reg % 4 != 0 || reg < regBase || reg - regBase >= regSize
              || count > (regSize - (reg - regBase)) / 4 then ERANGE
      else if head > tail || 4 * count > tail - head
              || Descriptors(count) * DESC_BYTES + DESC_BYTES > tail - head - 4 * count
              || head + Descriptors(count) * DESC_BYTES + DESC_BYTES > 65535 then ENOSPC
      else if origin.Address? && VaOverlap(address, capacity, origin.at, 4 * count) then EINVAL
      else 0
    }

    lemma Aperture()
      requires Valid()
      ensures REG_BASE <= regBase && regBase + regSize <= REG_BASE + REG_SIZE && |Bytes()| == capacity
    {}

    lemma FreshIsEmpty()
      requires Valid() && Fresh()
      ensures Writes() == []
    {}

    lemma OneWordFits(reg: u32)
      requires Valid() && !finished && firstError == 0
      requires reg % 4 == 0 && regBase <= reg < regBase + regSize
      requires head + 2 * DESC_BYTES + 4 <= tail && head + 2 * DESC_BYTES <= 65535
      ensures AppendCode(reg, 1, Automatic) == 0 && Descriptors(1) == 1
    {
      hide DataDescriptors, Word;
      assert regSize - (reg - regBase) >= 4;
    }

    /** A failing append latches its error and changes nothing; a good one appends exactly its run. */
    method Values(reg: u32, values: seq<u32>, origin: Origin) returns (ret: int)
      requires Valid()
      modifies this`head, this`tail, this`firstError, this`entries, this`stored, buffer
      ensures Valid() && Outside() == old(Outside())
      ensures ret == old(AppendCode(reg, |values|, origin))
      ensures ret != 0 ==> Untouched() && ret < 0 && Writes() == old(Writes())
                           && firstError == (if old(firstError == 0 && !finished) then ret else old(firstError))
      ensures ret == 0 ==> firstError == 0 && !finished
                           && head == old(head) + DESC_BYTES * Descriptors(|values|)
                           && tail == old(tail) - 4 * |values|
                           && Writes() == old(Writes()) + Run(reg, values)
    {
      if firstError != 0 {
        return firstError;
      }
      if finished {
        return EALREADY;
      }
      var count := |values|;
      if count == 0 || reg % 4 != 0 || reg < regBase || reg - regBase >= regSize
         || count > (regSize - (reg - regBase)) / 4 {
        ret := Fail(ERANGE);
        return;
      }
      if head > tail || 4 * count > tail - head
         || Descriptors(count) * DESC_BYTES + DESC_BYTES > tail - head - 4 * count
         || head + Descriptors(count) * DESC_BYTES + DESC_BYTES > 65535 {
        ret := Fail(ENOSPC);
        return;
      }
      if origin.Address? && VaOverlap(address, capacity, origin.at, 4 * count) {
        ret := Fail(EINVAL);
        return;
      }
      PutValues(values);
      PutDescriptors(reg, values);
      return 0;
    }

    ghost predicate ValuesBelow(values: seq<u32>)
      reads this, buffer
    {
      forall j | 0 <= j < |values| :: Word(Bytes(), tail - 4 * |values| + 4 * j) == values[j]
    }

    /** Copies the values to just below the tail, leaving the image's meaning alone. */
    method PutValues(values: seq<u32>)
      requires Valid() && !finished && head + DESC_BYTES + 4 * |values| <= tail
      modifies buffer
      ensures Valid() && Outside() == old(Outside()) && Writes() == old(Writes())
      ensures ValuesBelow(values)
    {
      hide Word, DataDescriptors, Prefix, ValuesBelow, Bytes, Outside;
      Aperture();
      CopyValues(values);
      PrefixFrame(old(Bytes()), Bytes(), iova, entries, entries, tail);
    }

    method CopyValues(values: seq<u32>)
      requires start + capacity <= buffer.Length && 4 * |values| <= tail <= capacity
      modifies buffer
      ensures ValuesBelow(values) && Outside() == old(Outside())
      ensures Agree(old(Bytes()), Bytes(), 0, tail - 4 * |values|) && Agree(old(Bytes()), Bytes(), tail, capacity)
    {
      hide Word, ValuesBelow;
      StoreValues(values);
    }

    method StoreValues(values: seq<u32>)
      requires start + capacity <= buffer.Length && 4 * |values| <= tail <= capacity
      modifies buffer
      ensures ValuesBelow(values)
      ensures forall i | 0 <= i < buffer.Length && !(start + tail - 4 * |values| <= i < start + tail) :: buffer[i] == old(buffer[i])
    {
      hide Word;
      var offset := tail - 4 * |values|;
      for j := 0 to |values|
        invariant forall i | 0 <= i < buffer.Length && !(start + offset <= i < start + tail) :: buffer[i] == old(buffer[i])
        invariant forall i | 0 <= i < j :: Word(Bytes(), offset + 4 * i) == values[i]
      {
        ghost var before := Bytes();
        Put32(buffer, start + offset + 4 * j, values[j]);
        WordInSlice(offset + 4 * j);
        WordsAgree(before, Bytes(), 0, offset + 4 * j);
      }
    }

    lemma WordInSlice(at: nat)
      requires start + capacity <= buffer.Length && at + 4 <= capacity
      ensures Word(Bytes(), at) == Word(buffer[..], start + at)
    {}

    /** Emits descriptors of at most 511 words each and moves the tail below the values. */
    method PutDescriptors(reg: u32, values: seq<u32>)
      requires Valid() && !finished && values != []
      requires regBase <= reg && reg + 4 * |values| <= regBase + regSize
      requires head + DESC_BYTES * Descriptors(|values|) + DESC_BYTES + 4 * |values| <= tail
      requires head + DESC_BYTES * Descriptors(|values|) + DESC_BYTES <= 65535
      requires ValuesBelow(values)
      modifies buffer, this`head, this`tail, this`entries, this`stored
      ensures Valid() && Outside() == old(Outside())
      ensures head == old(head) + DESC_BYTES * Descriptors(|values|) && tail == old(tail) - 4 * |values|
      ensures Writes() == old(Writes()) + Run(reg, values)
    {
      hide Word, DataDescriptors, WordsAt, Prefix, Run, Descriptors;
      ChunkCount(0);
      LowerTail(Bytes(), iova, entries, tail, tail - 4 * |values|);
      tail := tail - 4 * |values|;
      stored := stored + |values|;
      RunEmpty(reg, values);
      var sent := 0;
      while sent < |values|
        invariant 0 <= sent <= |values|
        invariant Valid() && Outside() == old(Outside()) && tail == old(tail) - 4 * |values|
        invariant ValuesAtTail(values)
        invariant head == old(head) + DESC_BYTES * (Descriptors(|values|) - Descriptors(|values| - sent))
        invariant Writes() == old(Writes()) + Run(reg, values[..sent])
      {
        var n := if |values| - sent > MAX_WORDS then MAX_WORDS else |values| - sent;
        ChunkCount(|values| - sent);
        PutChunk(reg, values, sent, n, old(Writes()));
        sent := sent + n;
      }
      assert values[..sent] == values;
    }

    ghost predicate ValuesAtTail(values: seq<u32>)
      reads this, buffer
    {
      forall j | 0 <= j < |values| :: Word(Bytes(), tail + 4 * j) == values[j]
    }

    /** One descriptor for `values[sent..sent + n]`, which already lie at the tail. */
    method PutChunk(reg: u32, values: seq<u32>, sent: nat, n: nat, ghost before: seq<RegWrite>)
      requires Valid() && !finished && head + 2 * DESC_BYTES <= tail && head + 2 * DESC_BYTES <= 65535
      requires 1 <= n <= MAX_WORDS && sent + n <= |values| && tail + 4 * |values| <= capacity
      requires regBase <= reg && reg + 4 * |values| <= regBase + regSize
      requires ValuesAtTail(values) && Writes() == before + Run(reg, values[..sent])
      modifies buffer, this`head, this`entries
      ensures Valid() && Outside() == old(Outside()) && head == old(head) + DESC_BYTES
      ensures ValuesAtTail(values) && Writes() == before + Run(reg, values[..sent + n])
    {
      hide Valid, Writes, Bytes, Outside, Word, WordsAt, Run;
      ghost var image := Bytes();
      Aperture();
      RunSplit(image, reg, values, tail, sent, n);
      PutDescriptor(reg + 4 * sent, n, tail + 4 * sent);
      WordsAgree(image, Bytes(), tail, capacity);
    }

    /** Stores one 12-byte entry at the head. */
    method PutEntry(command: u32, pointer: u64)
      requires start + capacity <= buffer.Length && head + DESC_BYTES <= capacity
      modifies buffer
      ensures Word(Bytes(), head) == command && Pointer(Bytes(), head) == pointer
      ensures forall i | 0 <= i < buffer.Length && !(start + head <= i < start + head + DESC_BYTES) :: buffer[i] == old(buffer[i])
    {
      hide Word;
      Put32(buffer, start + head, command);
      ghost var mid := buffer[..];
      Put64(buffer, start + head + 4, pointer);
      WordsAgree(mid, buffer[..], 0, start + head + 4);
      WordInSlice(head); WordInSlice(head + 4); WordInSlice(head + 8);
    }

    method PutDescriptor(reg: u32, n: nat, values: nat)
      requires Valid() && !finished && head + 2 * DESC_BYTES <= tail && head + 2 * DESC_BYTES <= 65535
      requires regBase <= reg < regBase + regSize && 1 <= n <= MAX_WORDS
      requires tail <= values && values + 4 * n <= capacity
      modifies buffer, this`head, this`entries
      ensures Valid() && head == old(head) + DESC_BYTES
      ensures Outside() == old(Outside()) && Agree(old(Bytes()), Bytes(), tail, capacity)
      ensures Writes() == old(Writes()) + WordsAt(old(Bytes()), reg, n, values)
    {
      hide Word, DataDescriptors, WordsAt, Prefix, Command;
      ghost var before := Bytes();
      PutEntry(Command(reg, n), iova + values);
      assert Agree(before, Bytes(), 0, head) && Agree(before, Bytes(), tail, |before|);
      AppendDescriptor(before, Bytes(), iova, entries, tail, reg, n, values);
      head := head + DESC_BYTES;
      entries := entries + 1;
    }

    method PutCookies(central: u32, cookie: u32)
      requires Valid() && !finished && firstError == 0 && central % 4 == 0
      requires regBase <= central && central + 0x740 <= regBase + regSize
      requires head + 8 * (DESC_BYTES + 4) + DESC_BYTES <= tail && head + 9 * DESC_BYTES <= 65535
      modifies this`head, this`tail, this`firstError, this`entries, this`stored, buffer
      ensures Valid() && Outside() == old(Outside()) && !finished && firstError == 0
      ensures Writes() == old(Writes()) + CookieWrites(central, cookie, 8)
    {
      hide Valid, Writes, Bytes, Outside, Run, AppendCode;
      Aperture();
      for tag := 0 to 8
        invariant Valid() && Outside() == old(Outside()) && firstError == 0 && !finished
        invariant head == old(head) + DESC_BYTES * tag && tail == old(tail) - 4 * tag
        invariant Writes() == old(Writes()) + CookieWrites(central, cookie, tag)
      {
        var reg := central + 0x57c + 0x40 * tag;
        assert reg % 4 == 0;
        OneWordFits(reg);
        var ret := Values(reg, [cookie], Automatic);
        assert ret == 0;
        RunOne(reg, cookie);
        assert CookieWrites(central, cookie, tag + 1) == CookieWrites(central, cookie, tag) + [RegWrite(reg, cookie)];
      }
    }

    function CookieCode(central: u32, session: u32, cookie: u32): int
      reads this
    {
      if firstError != 0 then firstError
      else if finished then EALREADY
      else if session > 3 || cookie / 0x100_0000 != session || central < regBase || central % 4 != 0
              || central - regBase >= regSize || regSize - (central - regBase) < 0x740 then ERANGE
      else if head > tail || tail - head < 8 * (DESC_BYTES + 4) + DESC_BYTES || head + 9 * DESC_BYTES > 65535 then ENOSPC
      else 0
    }

    /** Writes the frame cookie to all eight FH_SPARE registers, or changes nothing. */
    method FrameCookie(central: u32, session: u32, cookie: u32) returns (ret: int)
      requires Valid()
      modifies this`head, this`tail, this`firstError, this`entries, this`stored, buffer
      ensures Valid() && Outside() == old(Outside())
      ensures ret == old(CookieCode(central, session, cookie))
      ensures ret != 0 ==> Untouched() && ret < 0
                           && firstError == (if old(firstError == 0 && !finished) then ret else old(firstError))
      ensures ret == 0 ==> firstError == 0 && !finished && Writes() == old(Writes()) + CookieWrites(central, cookie, 8)
    {
      if firstError != 0 {
        return firstError;
      }
      if finished {
        return EALREADY;
      }
      if session > 3 || cookie / 0x100_0000 != session || central < regBase || central % 4 != 0
         || central - regBase >= regSize || regSize - (central - regBase) < 0x740 {
        ret := Fail(ERANGE);
        return;
      }
      if head > tail || tail - head < 8 * (DESC_BYTES + 4) + DESC_BYTES || head + 9 * DESC_BYTES > 65535 {
        ret := Fail(ENOSPC);
        return;
      }
      PutCookies(central, cookie);
      return 0;
    }

    method PutEnd()
      requires Valid() && !finished && head > 0
      modifies buffer, this`head, this`finished
      ensures Valid() && Outside() == old(Outside()) && finished && head == old(head) + DESC_BYTES
      ensures Writes() == old(Writes()) && Decode(Bytes(), iova, 0, head) == Some(Writes())
    {
      hide Word, DataDescriptors, Prefix, Decode;
      ghost var before := Bytes();
      PutEntry(END, 0);
      assert Agree(before, Bytes(), 0, head) && Agree(before, Bytes(), tail, |before|);
      Seal(before, Bytes(), iova, entries, tail);
      head := head + DESC_BYTES;
      finished := true;
    }

    /** Seals the image; fails only on an empty queue. */
    method Finish() returns (ret: int, descriptorBytes: u32, valuesStart: u32)
      requires Valid()
      modifies this`head, this`finished, this`firstError, buffer
      ensures Valid() && Outside() == old(Outside()) && tail == old(tail) && Writes() == old(Writes())
      ensures ret == (if old(firstError) != 0 then old(firstError) else if old(finished) then EALREADY
                      else if old(head) == 0 then ENOSPC else 0)
      ensures ret != 0 ==> Untouched()
                           && firstError == (if old(firstError == 0 && !finished) then ret else old(firstError))
      ensures ret == 0 ==> finished && firstError == 0 && descriptorBytes == head == old(head) + DESC_BYTES
                           && valuesStart == tail
                           && Decode(Bytes(), iova, 0, descriptorBytes) == Some(old(Writes()))
    {
      descriptorBytes, valuesStart := 0, 0;
      if firstError != 0 {
        return firstError, 0, 0;
      }
      if finished {
        return EALREADY, 0, 0;
      }
      if head == 0 || head > tail || tail - head < DESC_BYTES {
        ret := Fail(ENOSPC);
        return;
      }
      PutEnd();
      return 0, head, tail;
    }
  }

  lemma RunSplit(b: seq<byte>, reg: u32, values: seq<u32>, offset: nat, sent: nat, n: nat)
    requires sent + n <= |values|
    requires reg + 4 * |values| <= 0x1_0000_0000 && n > 0
    requires forall j | 0 <= j < |values| :: Word(b, offset + 4 * j) == values[j]
    ensures Run(reg, values[..sent + n]) == Run(reg, values[..sent]) + WordsAt(b, reg + 4 * sent, n, offset + 4 * sent)
  {}

  lemma RunEmpty(reg: u32, values: seq<u32>)
    ensures Run(reg, values[..0]) == []
  {}

  lemma RunOne(reg: u32, value: u32)
    ensures Run(reg, [value]) == [RegWrite(reg, value)]
  {}

  /** FH_SPARE is at 0x57c, one every 0x40 bytes. */
  function CookieWrites(central: u32, cookie: u32, tags: nat): (r: seq<RegWrite>)
    requires central + 0x57c + 0x40 * tags <= 0x1_0000_0000
    ensures |r| == tags
    ensures forall t | 0 <= t < tags :: r[t] == RegWrite(central + 0x57c + 0x40 * t, cookie)
  {
    if tags == 0 then []
    else CookieWrites(central, cookie, tags - 1) + [RegWrite(central + 0x57c + 0x40 * (tags - 1), cookie)]
  }

  // ---------------------------------------------------------------- any client

  datatype Append = Append(reg: u32, values: seq<u32>, origin: Origin)

  function Requested(appends: seq<Append>): seq<RegWrite> {
    if appends == [] then []
    else Requested(appends[..|appends| - 1]) + Run(appends[|appends| - 1].reg, appends[|appends| - 1].values)
  }

  /**
   * Any client: a list of appends and a finish.  If every append succeeds, finish
   * succeeds and the image decodes to exactly the requested writes, in order,
   * however the runs were split; otherwise it holds the writes before the first failure.
   */
  method BuildImage(q: Queue, appends: seq<Append>) returns (done: nat, ret: int, length: u32)
    requires q.Valid() && q.Fresh()
    modifies q, q.buffer
    ensures q.Valid() && q.Outside() == old(q.Outside()) && done <= |appends|
    ensures ret == 0 <==> done == |appends| > 0
    ensures q.Writes() == Requested(appends[..done])
    ensures ret == 0 ==> Decode(q.Bytes(), q.iova, 0, length) == Some(Requested(appends))
  {
    hide Queue.Valid, Queue.Writes, Queue.Bytes, Queue.Outside, Run, Decode;
    q.FreshIsEmpty();
    assert appends[..0] == [];
    done, length := 0, 0;
    while done < |appends|
      invariant done <= |appends|
      invariant q.Valid() && q.Outside() == old(q.Outside()) && !q.finished && q.firstError == 0
      invariant q.Writes() == Requested(appends[..done])
      invariant q.head > 0 <==> done > 0
    {
      ret := q.Values(appends[done].reg, appends[done].values, appends[done].origin);
      if ret != 0 {
        return;
      }
      assert appends[..done + 1][..done] == appends[..done];
      done := done + 1;
    }
    var valuesStart;
    ret, length, valuesStart := q.Finish();
    assert appends[..done] == appends;
  }
}

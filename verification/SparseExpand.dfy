/**
 * Expansion of a sparse image in bounded memory: a stream with short reads, a target file with a
 * position, and pieces of at most 1 MiB.
 */
module SparseExpand {
  import opened Words
  import opened Crc32
  import opened Sparse

  const MIB: nat := 1024 * 1024

  /** `sizes` decides how much of each read is delivered; at least one byte while data remains. */
  class Source {
    const data: seq<byte>
    const sizes: nat -> nat
    var pos: nat
    var calls: nat
    /** Everything given to the running digest. */
    var digest: seq<byte>

    ghost predicate Valid()
      reads this
    {
      pos <= |data| && digest == data[..pos]
    }

    constructor (data: seq<byte>, sizes: nat -> nat)
      ensures Valid() && this.data == data && this.sizes == sizes && pos == 0
    {
      this.data, this.sizes, pos, calls, digest := data, sizes, 0, 0, [];
    }

    method Read(n: nat) returns (block: seq<byte>)
      requires pos <= |data|
      modifies this`pos, this`calls
      ensures old(pos) <= pos <= |data| && pos <= old(pos) + n && block == data[old(pos)..pos]
      ensures n > 0 && old(pos) < |data| ==> old(pos) < pos
    {
      var limit := if n < |data| - pos then n else |data| - pos;
      var size := if 1 <= sizes(calls) <= limit then sizes(calls) else limit;
      block := data[pos..pos + size];
      pos, calls := pos + size, calls + 1;
    }

    /** Reads until `size` bytes are there, feeding the digest; None is a truncated image. */
    method ReadExactly(size: nat) returns (r: Option<seq<byte>>)
      requires Valid()
      modifies this
      ensures Valid() && (r.Some? <==> old(pos) + size <= |data|)
      ensures r.Some? ==> pos == old(pos) + size && r.value == data[old(pos)..pos]
    {
      var got: seq<byte> := [];
      while |got| < size
        invariant Valid() && old(pos) <= pos <= old(pos) + size && got == data[old(pos)..pos]
        decreases size - |got|
      {
        var block := Read(size - |got|);
        if block == [] {
          return None;
        }
        digest := digest + block;
        got := got + block;
      }
      return Some(got);
    }
  }

  /** `counts` decides how much of each write is taken; `short` remembers that some was not. */
  class Target {
    const counts: nat -> nat
    var content: seq<byte>
    var pos: nat
    var calls: nat
    var short: bool

    /** The file would read as `out` once holes up to the position are filled with zeros. */
    ghost predicate Shows(out: seq<byte>)
      reads this
    {
      pos == |out| && |content| <= pos && out == content + Zeros(pos - |content|)
    }

    constructor (counts: nat -> nat)
      ensures Shows([]) && !short
    {
      this.counts, content, pos, calls, short := counts, [], 0, 0, false;
    }

    method Write(data: seq<byte>) returns (n: nat)
      modifies this
      ensures n <= |data| && short == (old(short) || n < |data|)
      ensures n == |data| ==> forall out | old(Shows(out)) :: Shows(out + data)
    {
      n := if counts(calls) < |data| then counts(calls) else |data|;
      calls, short := calls + 1, short || n < |data|;
      var padded := if pos <= |content| then content else content + Zeros(pos - |content|);
      var rest := if pos + n <= |padded| then padded[pos + n..] else [];
      if n > 0 {
        content := padded[..pos] + data[..n] + rest;
        pos := pos + n;
      }
      assert data[..|data|] == data;
    }

    method Seek(n: nat)
      modifies this`pos
      ensures forall out | old(Shows(out)) :: Shows(out + Zeros(n))
    {
      pos := pos + n;
    }

    method Truncate(n: nat)
      modifies this`content
      ensures |content| == n
      ensures forall out | old(Shows(out)) && |out| == n :: content == out
    {
      content := if n <= |content| then content[..n] else content + Zeros(n - |content|);
    }
  }

  // ---------------------------------------------------------------- patterns

  /** The pattern laid out `n` times. */
  function Times(pattern: seq<byte>, n: nat): seq<byte> {
    if n == 0 then [] else Times(pattern, n - 1) + pattern
  }

  lemma {:induction false} TimesRepeats(pattern: seq<byte>, n: nat)
    requires |pattern| == 4
    ensures Times(pattern, n) == Repeated(pattern, 4 * n)
  {
    if n > 0 {
      TimesRepeats(pattern, n - 1);
      RepeatedAppend(pattern, 4 * (n - 1), 4);
      assert Repeated(pattern, 4) == pattern;
    }
  }

  lemma RepeatedAppend(pattern: seq<byte>, a: nat, b: nat)
    requires |pattern| == 4 && a % 4 == 0
    ensures Repeated(pattern, a) + Repeated(pattern, b) == Repeated(pattern, a + b)
  {
    forall i | 0 <= i < b ensures (a + i) % 4 == i % 4 {}
  }

  lemma RepeatedPrefix(pattern: seq<byte>, n: nat, size: nat)
    requires |pattern| == 4 && size <= n
    ensures Repeated(pattern, n)[..size] == Repeated(pattern, size)
  {}

  const ZERO_WORD: seq<byte> := [0, 0, 0, 0]

  lemma ZerosRepeat(n: nat)
    ensures Repeated(ZERO_WORD, n) == Zeros(n)
  {
    forall i | 0 <= i < n ensures Repeated(ZERO_WORD, n)[i] == 0 {
      assert 0 <= i % 4 < 4;
    }
  }

  // ---------------------------------------------------------------- one data chunk

  /** The first `n` bytes of a chunk's data: from the stream, or the repeated word. */
  function Part(data: seq<byte>, at: nat, word: Option<seq<byte>>, n: nat): (s: seq<byte>)
    requires if word.Some? then |word.value| == 4 else at + n <= |data|
    ensures |s| == n
  {
    if word.Some? then Repeated(word.value, n) else data[at..at + n]
  }

  lemma PartAppend(data: seq<byte>, at: nat, word: Option<seq<byte>>, a: nat, b: nat, piece: seq<byte>)
    requires if word.Some? then |word.value| == 4 && a % 4 == 0 && piece == Repeated(word.value, b)
             else at + a + b <= |data| && piece == data[at + a..at + a + b]
    ensures Part(data, at, word, a) + piece == Part(data, at, word, a + b)
  {
    if word.Some? {
      RepeatedAppend(word.value, a, b);
    }
  }

  method NextPiece(src: Source, word: Option<seq<byte>>, pattern: seq<byte>, size: nat, ghost at: nat, ghost done: nat)
    returns (piece: Option<seq<byte>>)
    requires src.Valid() && size <= MIB && src.pos == at + (if word.Some? then 0 else done)
    requires word.Some? ==> |word.value| == 4 && pattern == Repeated(word.value, MIB) && done % 4 == 0
    modifies src
    ensures src.Valid() && (piece.None? ==> word.None? && at + done + size > |src.data|)
    ensures piece.Some? ==> |piece.value| == size && src.pos == at + (if word.Some? then 0 else done + size)
                            && Part(src.data, at, word, done) + piece.value == Part(src.data, at, word, done + size)
                            && (word == Some(ZERO_WORD) ==> piece.value == Zeros(size))
  {
    hide Repeated, Zeros, Part;
    if word.None? {
      piece := src.ReadExactly(size);
      if piece.None? {
        return;
      }
    } else {
      RepeatedPrefix(word.value, MIB, size);
      piece := Some(pattern[..size]);
      ZerosRepeat(size);
    }
    PartAppend(src.data, at, word, done, size, piece.value);
  }

  /** Writes the piece, or leaves a hole of its size. */
  method Emit(tgt: Target, piece: seq<byte>, skip: bool, ghost out: seq<byte>) returns (ok: bool)
    requires tgt.Shows(out) && (skip ==> piece == Zeros(|piece|))
    modifies tgt
    ensures ok ==> tgt.Shows(out + piece) && tgt.short == old(tgt.short)
    ensures !ok ==> tgt.short
  {
    if skip {
      tgt.Seek(|piece|);
      return true;
    }
    var n := tgt.Write(piece);
    ok := n == |piece|;
  }

  /** Copies `length` bytes in pieces of at most 1 MiB, continuing the checksum over each. */
  method Copy(src: Source, tgt: Target, word: Option<seq<byte>>, pattern: seq<byte>, skip: bool, length: nat, crc: bv32, ghost out: seq<byte>)
    returns (ok: bool, after: bv32)
    requires src.Valid() && tgt.Shows(out) && crc == Crc(out) && length % 4 == 0
    requires word.Some? ==> |word.value| == 4 && pattern == Repeated(word.value, MIB)
    requires skip ==> word == Some(ZERO_WORD)
    modifies src, tgt
    ensures src.Valid()
    ensures ok ==> tgt.short == old(tgt.short) && src.pos == old(src.pos) + (if word.Some? then 0 else length)
                   && tgt.Shows(out + Part(src.data, old(src.pos), word, length))
                   && after == Crc(out + Part(src.data, old(src.pos), word, length))
    ensures !ok ==> tgt.short || (word.None? && old(src.pos) + length > |src.data|)
  {
    hide Crc, Update, Repeated, Zeros, Part, Target.Shows;
    var remaining := length;
    ghost var at, done := src.pos, 0;
    after := crc;
    PartNothing(src.data, at, word, out);
    while remaining > 0
      invariant 0 <= remaining && remaining + done == length && done % 4 == 0 && src.Valid() && tgt.short == old(tgt.short)
      invariant src.pos == at + (if word.Some? then 0 else done)
      invariant tgt.Shows(out + Part(src.data, at, word, done)) && after == Crc(out + Part(src.data, at, word, done))
    {
      var size := if remaining < MIB then remaining else MIB;
      var piece := NextPiece(src, word, pattern, size, at, done);
      if piece.None? {
        return false, after;
      }
      after := Update(after, piece.value);
      ghost var shown := out + Part(src.data, at, word, done);
      Piecewise(shown, piece.value);
      Associate(out, Part(src.data, at, word, done), piece.value);
      ok := Emit(tgt, piece.value, skip, shown);
      if !ok {
        return;
      }
      Quarters(remaining, size, done, length);
      remaining, done := remaining - size, done + size;
    }
    ok := true;
  }

  lemma Quarters(remaining: nat, size: nat, done: nat, length: nat)
    requires remaining + done == length && length % 4 == 0 && done % 4 == 0 && (size == remaining || size == MIB)
    ensures (done + size) % 4 == 0
  {}

  lemma PartNothing(data: seq<byte>, at: nat, word: Option<seq<byte>>, out: seq<byte>)
    requires if word.Some? then |word.value| == 4 else at <= |data|
    ensures out + Part(data, at, word, 0) == out
  {}

  lemma Associate(a: seq<byte>, b: seq<byte>, c: seq<byte>)
    ensures a + b + c == a + (b + c)
  {}

  // ---------------------------------------------------------------- one chunk

  /** The chunk was parsed at `at` and expanded, or cannot be. */
  ghost predicate Expanded(src: Source, tgt: Target, at: nat, chunk: Option<Chunk>, out: seq<byte>, ok: bool, crc: bv32, blocks: nat)
    reads src, tgt
  {
    if ok then
      && chunk.Some? && Sound(chunk.value) && src.pos == at + |ChunkBytes(chunk.value)| && blocks == Blocks(chunk.value)
      && tgt.Shows(out + Meaning(chunk.value)) && crc == Crc(out + Meaning(chunk.value))
    else chunk.None? || tgt.short
  }

  /** The data of a chunk is its meaning. */
  lemma RawMeaning(data: seq<byte>, at: nat, count: u32, total: u32)
    requires ParseData(data, at, RAW, count, total).Some?
    ensures var c := ParseData(data, at, RAW, count, total).value;
            && Part(data, at + 12, None, count * BLOCK) == Meaning(c) && |ChunkBytes(c)| == 12 + count * BLOCK && Blocks(c) == count
  {
    Multiple(count, count * BLOCK);
  }

  lemma SkipMeaning(data: seq<byte>, at: nat, count: u32, total: u32)
    requires count > 0
    ensures ParseData(data, at, SKIP, count, total) == if total != 12 then None else Some(Skip(count))
    ensures Part(data, at + 12, Some(ZERO_WORD), count * BLOCK) == Meaning(Skip(count)) && |ChunkBytes(Skip(count))| == 12
  {
    hide Zeros, Repeated;
    ZerosRepeat(count * BLOCK);
  }

  method ExpandRaw(src: Source, tgt: Target, count: u32, total: u32, crc: bv32, ghost out: seq<byte>, ghost at: nat) returns (ok: bool, after: bv32)
    requires src.Valid() && tgt.Shows(out) && crc == Crc(out) && src.pos == at + 12 && count > 0
    modifies src, tgt
    ensures src.Valid() && (ok ==> tgt.short == old(tgt.short))
    ensures Expanded(src, tgt, at, ParseData(src.data, at, RAW, count, total), out, ok, after, count)
  {
    hide Crc, Target.Shows, Part, Meaning, ChunkBytes;
    ok, after := false, crc;
    var length := count * BLOCK;
    if total != 12 + length {
      return;
    }
    Multiple(count, length);
    ok, after := Copy(src, tgt, None, [], false, length, crc, out);
    if ok {
      RawMeaning(src.data, at, count, total);
    }
  }

  method ExpandFill(src: Source, tgt: Target, count: u32, total: u32, crc: bv32, ghost out: seq<byte>, ghost at: nat) returns (ok: bool, after: bv32)
    requires src.Valid() && tgt.Shows(out) && crc == Crc(out) && src.pos == at + 12 && count > 0
    modifies src, tgt
    ensures src.Valid() && (ok ==> tgt.short == old(tgt.short))
    ensures Expanded(src, tgt, at, ParseData(src.data, at, FILL, count, total), out, ok, after, count)
  {
    hide Crc, Target.Shows, Repeated;
    ok, after := false, crc;
    if total != 16 {
      return;
    }
    var word := src.ReadExactly(4);
    if word.None? {
      return;
    }
    var pattern := Times(word.value, MIB / 4);
    TimesRepeats(word.value, MIB / 4);
    Multiple(count, count * BLOCK);
    ok, after := Copy(src, tgt, word, pattern, false, count * BLOCK, crc, out);
  }

  method ExpandSkip(src: Source, tgt: Target, count: u32, total: u32, crc: bv32, ghost out: seq<byte>, ghost at: nat) returns (ok: bool, after: bv32)
    requires src.Valid() && tgt.Shows(out) && crc == Crc(out) && src.pos == at + 12 && count > 0
    modifies src, tgt
    ensures src.Valid() && (ok ==> tgt.short == old(tgt.short))
    ensures Expanded(src, tgt, at, ParseData(src.data, at, SKIP, count, total), out, ok, after, count)
  {
    hide Crc, Target.Shows, Repeated, Zeros, Part, Meaning, ParseData, ChunkBytes;
    ok, after := false, crc;
    SkipMeaning(src.data, at, count, total);
    if total != 12 {
      return;
    }
    ZerosRepeat(MIB);
    Multiple(count, count * BLOCK);
    ok, after := Copy(src, tgt, Some(ZERO_WORD), Zeros(MIB), true, count * BLOCK, crc, out);
  }

  method ExpandData(src: Source, tgt: Target, kind: nat, count: u32, total: u32, crc: bv32, ghost out: seq<byte>, ghost at: nat)
    returns (ok: bool, after: bv32)
    requires src.Valid() && tgt.Shows(out) && crc == Crc(out) && src.pos == at + 12
    modifies src, tgt
    ensures src.Valid() && (ok ==> tgt.short == old(tgt.short))
    ensures Expanded(src, tgt, at, ParseData(src.data, at, kind, count, total), out, ok, after, count)
  {
    hide Crc, Target.Shows, Meaning, ChunkBytes;
    ok, after := false, crc;
    if count == 0 {
      return;
    }
    if kind == RAW {
      ok, after := ExpandRaw(src, tgt, count, total, crc, out, at);
    } else if kind == FILL {
      ok, after := ExpandFill(src, tgt, count, total, crc, out, at);
    } else if kind == SKIP {
      ok, after := ExpandSkip(src, tgt, count, total, crc, out, at);
    }
  }

  method CheckCrc(src: Source, count: u32, total: u32, crc: bv32) returns (ok: bool)
    requires src.Valid()
    modifies src
    ensures src.Valid()
    ensures ok <==> count == 0 && total == 16 && old(src.pos) + 4 <= |src.data| && Bits(Word(src.data, old(src.pos))) == crc
    ensures ok ==> src.pos == old(src.pos) + 4
  {
    hide Word, Bits;
    if count != 0 || total != 16 {
      return false;
    }
    ghost var at := src.pos;
    var stored := src.ReadExactly(4);
    if stored.None? {
      return false;
    }
    WordShift(src.data, at, 4, 0);
    ok := Bits(Word(stored.value, 0)) == crc;
  }

  method ExpandChunk(src: Source, tgt: Target, room: int, crc: bv32, ghost out: seq<byte>) returns (ok: bool, after: bv32, blocks: nat)
    requires src.Valid() && tgt.Shows(out) && crc == Crc(out)
    modifies src, tgt
    ensures src.Valid() && (ok ==> tgt.short == old(tgt.short))
    ensures Expanded(src, tgt, old(src.pos), ParseChunk(src.data, old(src.pos), room, crc), out, ok, after, blocks)
  {
    hide Word, HalfWord, Crc, Target.Shows, ParseData, Bits;
    ghost var at := src.pos;
    ok, after, blocks := false, crc, 0;
    var header := src.ReadExactly(12);
    if header.None? {
      return;
    }
    var h := header.value;
    HalfShift(src.data, at, 12, 0);
    HalfShift(src.data, at, 12, 2);
    WordShift(src.data, at, 12, 4);
    WordShift(src.data, at, 12, 8);
    var kind, count, total := HalfWord(h, 0), Word(h, 4), Word(h, 8);
    if HalfWord(h, 2) != 0 || total < 12 || count > room {
      return;
    }
    if kind == CHECK {
      ok := CheckCrc(src, count, total, crc);
      assert out + [] == out;
      return;
    }
    blocks := count;
    ok, after := ExpandData(src, tgt, kind, count, total, crc, out, at);
  }

  // ---------------------------------------------------------------- the whole image

  datatype Summary = Summary(sha256: string, rawBytes: nat, chunks: nat, crc32: bv32)

  method ExpandChunks(src: Source, tgt: Target, blocks: nat, chunks: nat) returns (ok: bool, crc: bv32, written: nat)
    requires src.Valid() && src.pos == 28 && tgt.Shows([]) && !tgt.short
    modifies src, tgt
    ensures src.Valid() && (ok ==> !tgt.short)
    ensures !ok ==> tgt.short || Parse(src.data, blocks, chunks).None?
    ensures ok ==> Parse(src.data, blocks, chunks).Some? &&
                   var p := Parse(src.data, blocks, chunks).value;
                   p.at == src.pos && written == AllBlocks(p.chunks) && tgt.Shows(Output(p.chunks)) && crc == Crc(Output(p.chunks))
  {
    hide Crc, Target.Shows, ParseChunk, Output, AllBlocks, ChunkBytes, Meaning, Blocks, Sound;
    crc, written := 0, 0;
    CrcEmpty();
    NoOutput();
    for k := 0 to chunks
      invariant src.Valid() && !tgt.short && Parse(src.data, blocks, k).Some?
      invariant var p := Parse(src.data, blocks, k).value;
                p.at == src.pos && written == AllBlocks(p.chunks) && tgt.Shows(Output(p.chunks)) && crc == Crc(Output(p.chunks))
    {
      ghost var p := Parse(src.data, blocks, k).value;
      var count;
      ok, crc, count := ExpandChunk(src, tgt, blocks - written, crc, Output(p.chunks));
      if !ok {
        if Parse(src.data, blocks, k + 1).None? {
          Stuck(src.data, blocks, k + 1, chunks);
        }
        return;
      }
      OutputSnoc(p.chunks, ParseChunk(src.data, p.at, blocks - written, Crc(Output(p.chunks))).value);
      written := written + count;
    }
    ok := true;
  }

  lemma NoOutput()
    ensures Output([]) == [] && AllBlocks([]) == 0
  {}

  lemma OutputSnoc(chunks: seq<Chunk>, c: Chunk)
    requires (forall d | d in chunks :: Sound(d)) && Sound(c)
    ensures forall d | d in chunks + [c] :: Sound(d)
    ensures Output(chunks + [c]) == Output(chunks) + Meaning(c) && AllBlocks(chunks + [c]) == AllBlocks(chunks) + Blocks(c)
  {
    hide Meaning, Sound, Blocks;
    assert (chunks + [c])[..|chunks|] == chunks;
  }

  lemma {:induction false} Stuck(data: seq<byte>, blocks: nat, k: nat, n: nat)
    requires k <= n && Parse(data, blocks, k).None?
    ensures Parse(data, blocks, n).None?
  {
    hide ParseChunk, Output, AllBlocks, ChunkBytes;
    if k < n {
      Stuck(data, blocks, k, n - 1);
    }
  }

  /** Accepts exactly the layouts of well-formed images with the expected digest, unless a write was short. */
  method Expand(src: Source, tgt: Target, sha256: seq<byte> -> string, expected: string, maxBytes: int) returns (r: Option<Summary>)
    requires src.Valid() && src.pos == 0 && tgt.Shows([]) && !tgt.short
    modifies src, tgt
    ensures r.Some? <==> ParseImage(src.data, maxBytes).Some? && sha256(src.data) == expected && !tgt.short
    ensures r.Some? ==> var img := ParseImage(src.data, maxBytes).value;
                        && (forall c | c in img.chunks :: Sound(c)) && tgt.content == Output(img.chunks)
                        && |tgt.content| == BLOCK * img.blocks
                        && r.value == Summary(expected, BLOCK * img.blocks, |img.chunks|, Crc(tgt.content))
  {
    hide Crc, Target.Shows, Parse, Output, AllBlocks, Word, HalfWord, Bits;
    var header := src.ReadExactly(28);
    if header.None? {
      return None;
    }
    var h := header.value;
    HeaderShift(src.data, maxBytes);
    if !HeaderOk(h, maxBytes) {
      return None;
    }
    var blocks, chunks, checksum := Word(h, 16), Word(h, 20), Word(h, 24);
    var ok, crc, written := ExpandChunks(src, tgt, blocks, chunks);
    if !ok || written != blocks || (checksum != 0 && Bits(checksum) != crc) {
      return None;
    }
    var digest := src.digest;
    var extra := src.Read(1);
    if extra != [] {
      return None;
    }
    assert digest == src.data;
    if sha256(digest) != expected {
      return None;
    }
    ParseLength(src.data, blocks, chunks);
    tgt.Truncate(blocks * BLOCK);
    return Some(Summary(sha256(digest), blocks * BLOCK, chunks, crc));
  }

  lemma HeaderShift(data: seq<byte>, maxBytes: int)
    requires |data| >= 28
    ensures HeaderOk(data[0..28], maxBytes) == HeaderOk(data, maxBytes)
    ensures Word(data[0..28], 16) == Word(data, 16) && Word(data[0..28], 20) == Word(data, 20) && Word(data[0..28], 24) == Word(data, 24)
  {
    hide Word, HalfWord;
    WordShift(data, 0, 28, 0);
    HalfShift(data, 0, 28, 4);
    HalfShift(data, 0, 28, 6);
    HalfShift(data, 0, 28, 8);
    HalfShift(data, 0, 28, 10);
    WordShift(data, 0, 28, 12);
    WordShift(data, 0, 28, 16);
    WordShift(data, 0, 28, 20);
    WordShift(data, 0, 28, 24);
  }

  lemma {:induction false} ParseLength(data: seq<byte>, blocks: nat, k: nat)
    requires Parse(data, blocks, k).Some?
    ensures |Parse(data, blocks, k).value.chunks| == k
  {
    hide ParseChunk, Output, AllBlocks, ChunkBytes;
    if k > 0 {
      ParseLength(data, blocks, k - 1);
    }
  }
}

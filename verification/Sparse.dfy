/**
 * The Android sparse image format: what an image means, how it is laid out, and a parser
 * that inverts the layout.
 */
module Sparse {
  import opened Words
  import opened Crc32

  const MAGIC: u32 := 0xed26_ff3a
  const BLOCK: nat := 4096
  const MAX_CHUNKS: nat := 1_000_000
  const RAW: nat := 0xcac1
  const FILL: nat := 0xcac2
  const SKIP: nat := 0xcac3
  const CHECK: nat := 0xcac4

  /** Literal blocks, a repeated word, unspecified blocks that read as zero, or a checksum so far. */
  datatype Chunk = Raw(bytes: seq<byte>) | Fill(pattern: seq<byte>, blocks: nat) | Skip(blocks: nat) | Check(crc: u32)

  datatype Image = Image(blocks: u32, chunks: seq<Chunk>, checksum: u32)

  // ---------------------------------------------------------------- meaning

  function Repeated(pattern: seq<byte>, n: nat): (s: seq<byte>)
    requires |pattern| == 4
    ensures |s| == n
  {
    seq(n, i requires 0 <= i < n => pattern[i % 4])
  }

  /** A chunk that the format can express. */
  predicate Sound(c: Chunk) {
    match c
    case Raw(bytes) => |bytes| > 0 && |bytes| % BLOCK == 0 && 12 + |bytes| < 0x1_0000_0000
    case Fill(pattern, blocks) => |pattern| == 4 && 0 < blocks < 0x1_0000_0000
    case Skip(blocks) => 0 < blocks < 0x1_0000_0000
    case Check(_) => true
  }

  function Blocks(c: Chunk): nat {
    match c
    case Raw(bytes) => |bytes| / BLOCK
    case Fill(_, blocks) => blocks
    case Skip(blocks) => blocks
    case Check(_) => 0
  }

  function Meaning(c: Chunk): (s: seq<byte>)
    requires Sound(c)
    ensures |s| == BLOCK * Blocks(c)
  {
    match c
    case Raw(bytes) => bytes
    case Fill(pattern, blocks) => Repeated(pattern, BLOCK * blocks)
    case Skip(blocks) => Zeros(BLOCK * blocks)
    case Check(_) => []
  }

  function AllBlocks(chunks: seq<Chunk>): nat {
    if chunks == [] then 0 else AllBlocks(chunks[..|chunks| - 1]) + Blocks(chunks[|chunks| - 1])
  }

  function Output(chunks: seq<Chunk>): (s: seq<byte>)
    requires forall c | c in chunks :: Sound(c)
    ensures |s| == BLOCK * AllBlocks(chunks)
  {
    if chunks == [] then [] else Output(chunks[..|chunks| - 1]) + Meaning(chunks[|chunks| - 1])
  }

  /** The chunk may follow output `out` in an image of `blocks` blocks. */
  ghost predicate Follows(c: Chunk, out: seq<byte>, written: nat, blocks: nat) {
    Sound(c) && written + Blocks(c) <= blocks && (c.Check? ==> Bits(c.crc) == Crc(out))
  }

  /** Chunks within the image's blocks, checksums right. */
  ghost predicate Chain(chunks: seq<Chunk>, blocks: nat) {
    chunks == [] ||
    var init, last := chunks[..|chunks| - 1], chunks[|chunks| - 1];
    Chain(init, blocks) && AllSound(init) && Follows(last, Output(init), AllBlocks(init), blocks)
  }

  ghost predicate AllSound(chunks: seq<Chunk>) {
    forall c | c in chunks :: Sound(c)
  }

  ghost predicate WellFormed(img: Image, maxBytes: int) {
    && 0 < img.blocks && 0 < |img.chunks| <= MAX_CHUNKS && BLOCK * img.blocks <= maxBytes
    && Chain(img.chunks, img.blocks) && AllSound(img.chunks) && AllBlocks(img.chunks) == img.blocks
    && (img.checksum != 0 ==> Bits(img.checksum) == Crc(Output(img.chunks)))
  }

  // ---------------------------------------------------------------- layout

  function ChunkHeader(kind: nat, blocks: u32, total: u32): (h: seq<byte>)
    requires kind < 0x1_0000
    ensures |h| == 12
  {
    HalfBytes(kind) + HalfBytes(0) + WordBytes(blocks) + WordBytes(total)
  }

  function ChunkBytes(c: Chunk): (b: seq<byte>)
    requires Sound(c)
    ensures |b| == match c case Raw(bytes) => 12 + |bytes| case Fill(_, _) => 16 case Skip(_) => 12 case Check(_) => 16
  {
    match c
    case Raw(bytes) => ChunkHeader(RAW, |bytes| / BLOCK, 12 + |bytes|) + bytes
    case Fill(pattern, blocks) => ChunkHeader(FILL, blocks, 16) + pattern
    case Skip(blocks) => ChunkHeader(SKIP, blocks, 12)
    case Check(crc) => ChunkHeader(CHECK, 0, 16) + WordBytes(crc)
  }

  function AllChunkBytes(chunks: seq<Chunk>): seq<byte>
    requires forall c | c in chunks :: Sound(c)
  {
    if chunks == [] then [] else AllChunkBytes(chunks[..|chunks| - 1]) + ChunkBytes(chunks[|chunks| - 1])
  }

  function Header(blocks: u32, chunks: u32, checksum: u32): (h: seq<byte>)
    ensures |h| == 28
  {
    WordBytes(MAGIC) + HalfBytes(1) + HalfBytes(0) + HalfBytes(28) + HalfBytes(12)
    + WordBytes(BLOCK) + WordBytes(blocks) + WordBytes(chunks) + WordBytes(checksum)
  }

  ghost function ImageBytes(img: Image): seq<byte>
    requires AllSound(img.chunks) && |img.chunks| <= MAX_CHUNKS
  {
    Header(img.blocks, |img.chunks|, img.checksum) + AllChunkBytes(img.chunks)
  }

  // ---------------------------------------------------------------- parsing

  predicate HeaderOk(data: seq<byte>, maxBytes: int) {
    && |data| >= 28 && Word(data, 0) == MAGIC && HalfWord(data, 4) == 1 && HalfWord(data, 6) == 0
    && HalfWord(data, 8) == 28 && HalfWord(data, 10) == 12 && Word(data, 12) == BLOCK
    && Word(data, 16) != 0 && 0 < Word(data, 20) <= MAX_CHUNKS && BLOCK * Word(data, 16) <= maxBytes
  }

  lemma Multiple(blocks: nat, n: nat)
    requires n == blocks * BLOCK
    ensures n % BLOCK == 0 && n / BLOCK == blocks && n % 4 == 0
  {
    assert n == 4 * (1024 * blocks);
  }

  /** The data chunk whose header lies at `at`. */
  function ParseData(data: seq<byte>, at: nat, kind: nat, blocks: u32, total: u32): (r: Option<Chunk>)
    ensures r.Some? ==> Sound(r.value)
  {
    if blocks == 0 then None
    else if kind == RAW then
      if total != 12 + blocks * BLOCK || at + total > |data| then None
      else Multiple(blocks, |data[at + 12..at + total]|); Some(Raw(data[at + 12..at + total]))
    else if kind == FILL then
      if total != 16 || at + 16 > |data| then None else Some(Fill(data[at + 12..at + 16], blocks))
    else if kind == SKIP then
      if total != 12 then None else Some(Skip(blocks))
    else None
  }

  /** The chunk at `at`, if it fits into `room` blocks and any checksum agrees with `crc`. */
  function ParseChunk(data: seq<byte>, at: nat, room: int, crc: bv32): (r: Option<Chunk>)
    ensures r.Some? ==> Sound(r.value)
  {
    if at + 12 > |data| then None
    else
      var kind, blocks, total := HalfWord(data, at), Word(data, at + 4), Word(data, at + 8);
      if HalfWord(data, at + 2) != 0 || total < 12 || blocks > room then None
      else if kind == CHECK then
        if blocks != 0 || total != 16 || at + 16 > |data| || Bits(Word(data, at + 12)) != crc then None
        else Some(Check(Word(data, at + 12)))
      else ParseData(data, at, kind, blocks, total)
  }

  datatype Parsed = Parsed(chunks: seq<Chunk>, at: nat)

  /** The first `k` chunks, and where they end. */
  function Parse(data: seq<byte>, blocks: nat, k: nat): (r: Option<Parsed>)
    ensures r.Some? ==> forall c | c in r.value.chunks :: Sound(c)
  {
    if k == 0 then Some(Parsed([], 28))
    else
      match Parse(data, blocks, k - 1)
      case None => None
      case Some(p) =>
        match ParseChunk(data, p.at, blocks - AllBlocks(p.chunks), Crc(Output(p.chunks)))
        case None => None
        case Some(c) => Some(Parsed(p.chunks + [c], p.at + |ChunkBytes(c)|))
  }

  /** The image that the whole of `data` lays out, if any. */
  function ParseImage(data: seq<byte>, maxBytes: int): Option<Image> {
    if !HeaderOk(data, maxBytes) then None
    else
      match Parse(data, Word(data, 16), Word(data, 20))
      case None => None
      case Some(p) =>
        if AllBlocks(p.chunks) != Word(data, 16) || p.at != |data| then None
        else if Word(data, 24) != 0 && Bits(Word(data, 24)) != Crc(Output(p.chunks)) then None
        else Some(Image(Word(data, 16), p.chunks, Word(data, 24)))
  }

  // ---------------------------------------------------------------- the parser inverts the layout

  lemma HeaderParts(data: seq<byte>, at: nat, kind: nat, blocks: u32, total: u32)
    requires at + 12 <= |data| && kind < 0x1_0000
    ensures data[at..at + 12] == ChunkHeader(kind, blocks, total) <==>
            HalfWord(data, at) == kind && HalfWord(data, at + 2) == 0 && Word(data, at + 4) == blocks && Word(data, at + 8) == total
  {
    hide Word, WordBytes, HalfWord, HalfBytes;
    var h := data[at..at + 12];
    SliceOfSlice(data, at, 12, 0, 2);
    SliceOfSlice(data, at, 12, 2, 4);
    SliceOfSlice(data, at, 12, 4, 8);
    SliceOfSlice(data, at, 12, 8, 12);
    if h == ChunkHeader(kind, blocks, total) {
      HalfOfBytes(data, at, kind);
      HalfOfBytes(data, at + 2, 0);
      WordOfBytes(data, at + 4, blocks);
      WordOfBytes(data, at + 8, total);
    }
    BytesOfHalf(data, at);
    BytesOfHalf(data, at + 2);
    BytesOfWord(data, at + 4);
    BytesOfWord(data, at + 8);
    assert h == h[0..2] + h[2..4] + h[4..8] + h[8..12];
  }

  /** What is parsed is what lies there. */
  lemma ChunkThere(data: seq<byte>, at: nat, room: int, crc: bv32)
    requires ParseChunk(data, at, room, crc).Some?
    ensures var c := ParseChunk(data, at, room, crc).value;
            Blocks(c) <= room && at + |ChunkBytes(c)| <= |data| && data[at..at + |ChunkBytes(c)|] == ChunkBytes(c)
    ensures var c := ParseChunk(data, at, room, crc).value; c.Check? ==> Bits(c.crc) == crc
  {
    hide Word, WordBytes, HalfWord, ChunkHeader, Bits;
    var c := ParseChunk(data, at, room, crc).value;
    var n := |ChunkBytes(c)|;
    HeaderParts(data, at, HalfWord(data, at), Word(data, at + 4), Word(data, at + 8));
    if c.Raw? {
      Multiple(Word(data, at + 4), |c.bytes|);
    }
    assert data[at..at + n] == data[at..at + 12] + data[at + 12..at + n];
    if c.Check? {
      BytesOfWord(data, at + 12);
    }
  }

  /** What lies there is what is parsed. */
  lemma ChunkParsed(data: seq<byte>, at: nat, room: int, crc: bv32, c: Chunk)
    requires Sound(c) && Blocks(c) <= room && (c.Check? ==> Bits(c.crc) == crc)
    requires at + |ChunkBytes(c)| <= |data| && data[at..at + |ChunkBytes(c)|] == ChunkBytes(c)
    ensures ParseChunk(data, at, room, crc) == Some(c)
  {
    hide Word, WordBytes, HalfWord, ChunkHeader, Bits;
    var n, b := |ChunkBytes(c)|, ChunkBytes(c);
    SliceOfSlice(data, at, n, 0, 12);
    SliceOfSlice(data, at, n, 12, n);
    assert b[12..n] == b[12..];
    match c
    case Raw(bytes) => HeaderParts(data, at, RAW, |bytes| / BLOCK, 12 + |bytes|);
    case Fill(_, blocks) => HeaderParts(data, at, FILL, blocks, 16);
    case Skip(blocks) => HeaderParts(data, at, SKIP, blocks, 12);
    case Check(crc) =>
      HeaderParts(data, at, CHECK, 0, 16);
      WordOfBytes(data, at + 12, crc);
  }

  lemma ChainSnoc(chunks: seq<Chunk>, c: Chunk, blocks: nat)
    requires Chain(chunks, blocks) && AllSound(chunks) && Follows(c, Output(chunks), AllBlocks(chunks), blocks)
    ensures Chain(chunks + [c], blocks) && AllSound(chunks + [c])
    ensures AllChunkBytes(chunks + [c]) == AllChunkBytes(chunks) + ChunkBytes(c)
  {
    hide Output, AllBlocks, ChunkBytes, Sound, Bits, Crc;
    assert (chunks + [c])[..|chunks|] == chunks;
  }

  lemma {:induction false} ParseThere(data: seq<byte>, blocks: nat, k: nat)
    requires |data| >= 28 && Parse(data, blocks, k).Some?
    ensures var p := Parse(data, blocks, k).value;
            && |p.chunks| == k && Chain(p.chunks, blocks) && 28 <= p.at <= |data|
            && data[28..p.at] == AllChunkBytes(p.chunks)
  {
    hide ParseChunk, ChunkBytes, Output, Crc, Bits, Blocks, Chain, AllChunkBytes, AllBlocks, Sound;
    if k == 0 {
      NoChunks(blocks);
    } else {
      ParseThere(data, blocks, k - 1);
      var q, p := Parse(data, blocks, k - 1).value, Parse(data, blocks, k).value;
      var c := ParseChunk(data, q.at, blocks - AllBlocks(q.chunks), Crc(Output(q.chunks))).value;
      ChunkThere(data, q.at, blocks - AllBlocks(q.chunks), Crc(Output(q.chunks)));
      ChainSnoc(q.chunks, c, blocks);
      assert data[28..p.at] == data[28..q.at] + data[q.at..p.at];
    }
  }

  lemma NoChunks(blocks: nat)
    ensures Chain([], blocks) && AllChunkBytes([]) == []
  {}

  lemma HeaderThere(data: seq<byte>, blocks: u32, chunks: u32, checksum: u32)
    requires |data| >= 28
    ensures data[..28] == Header(blocks, chunks, checksum) <==>
            && Word(data, 0) == MAGIC && HalfWord(data, 4) == 1 && HalfWord(data, 6) == 0 && HalfWord(data, 8) == 28
            && HalfWord(data, 10) == 12 && Word(data, 12) == BLOCK && Word(data, 16) == blocks && Word(data, 20) == chunks
            && Word(data, 24) == checksum
  {
    hide Word, WordBytes, HalfWord, HalfBytes;
    HeaderSlices(data);
    if data[..28] == Header(blocks, chunks, checksum) {
      HeaderFields(data[..28], blocks, chunks, checksum);
      WordOfBytes(data, 0, MAGIC);
      HalfOfBytes(data, 4, 1);
      HalfOfBytes(data, 6, 0);
      HalfOfBytes(data, 8, 28);
      HalfOfBytes(data, 10, 12);
      WordOfBytes(data, 12, BLOCK);
      WordOfBytes(data, 16, blocks);
      WordOfBytes(data, 20, chunks);
      WordOfBytes(data, 24, checksum);
    }
    BytesOfWord(data, 0);
    BytesOfHalf(data, 4);
    BytesOfHalf(data, 6);
    BytesOfHalf(data, 8);
    BytesOfHalf(data, 10);
    BytesOfWord(data, 12);
    BytesOfWord(data, 16);
    BytesOfWord(data, 20);
    BytesOfWord(data, 24);
  }

  lemma HeaderSlices(data: seq<byte>)
    requires |data| >= 28
    ensures data[..28] == data[0..4] + data[4..6] + data[6..8] + data[8..10] + data[10..12] + data[12..16] + data[16..20]
                          + data[20..24] + data[24..28]
    ensures data[..28][0..4] == data[0..4] && data[..28][4..6] == data[4..6] && data[..28][6..8] == data[6..8]
    ensures data[..28][8..10] == data[8..10] && data[..28][10..12] == data[10..12] && data[..28][12..16] == data[12..16]
    ensures data[..28][16..20] == data[16..20] && data[..28][20..24] == data[20..24] && data[..28][24..28] == data[24..28]
  {}

  lemma HeaderFields(h: seq<byte>, blocks: u32, chunks: u32, checksum: u32)
    requires h == Header(blocks, chunks, checksum)
    ensures h[0..4] == WordBytes(MAGIC) && h[4..6] == HalfBytes(1) && h[6..8] == HalfBytes(0) && h[8..10] == HalfBytes(28)
    ensures h[10..12] == HalfBytes(12) && h[12..16] == WordBytes(BLOCK) && h[16..20] == WordBytes(blocks)
    ensures h[20..24] == WordBytes(chunks) && h[24..28] == WordBytes(checksum)
  {
    hide WordBytes, HalfBytes;
  }

  /** Whatever is accepted is the layout of a well-formed image. */
  lemma ParsedIsWellFormed(data: seq<byte>, maxBytes: int)
    requires ParseImage(data, maxBytes).Some?
    ensures var img := ParseImage(data, maxBytes).value; WellFormed(img, maxBytes) && ImageBytes(img) == data
  {
    hide Parse, Word, HalfWord, Header, Crc, Bits;
    var img := ParseImage(data, maxBytes).value;
    ParseThere(data, img.blocks, Word(data, 20));
    HeaderThere(data, img.blocks, Word(data, 20), img.checksum);
    assert data == data[..28] + data[28..|data|];
  }

  lemma LastChunk(chunks: seq<Chunk>, blocks: nat)
    requires chunks != [] && Chain(chunks, blocks) && AllSound(chunks)
    ensures var init, last := chunks[..|chunks| - 1], chunks[|chunks| - 1];
            && Chain(init, blocks) && AllSound(init) && Follows(last, Output(init), AllBlocks(init), blocks)
            && AllChunkBytes(chunks) == AllChunkBytes(init) + ChunkBytes(last)
  {
    hide Output, AllBlocks, ChunkBytes, Sound, Bits, Crc;
    assert chunks[|chunks| - 1] in chunks;
  }

  lemma {:induction false} ParsePrefix(data: seq<byte>, chunks: seq<Chunk>, blocks: nat)
    requires |data| >= 28 && Chain(chunks, blocks) && AllSound(chunks)
    requires 28 + |AllChunkBytes(chunks)| <= |data| && data[28..28 + |AllChunkBytes(chunks)|] == AllChunkBytes(chunks)
    ensures Parse(data, blocks, |chunks|) == Some(Parsed(chunks, 28 + |AllChunkBytes(chunks)|))
  {
    hide ParseChunk, ChunkBytes, Output, Crc, Bits, Sound, AllBlocks, Chain, AllChunkBytes;
    if chunks == [] {
      NoChunks(blocks);
    } else {
      var init, last := chunks[..|chunks| - 1], chunks[|chunks| - 1];
      LastChunk(chunks, blocks);
      var a, b := AllChunkBytes(init), ChunkBytes(last);
      SliceOfSlice(data, 28, |a + b|, 0, |a|);
      SliceOfSlice(data, 28, |a + b|, |a|, |a + b|);
      ParsePrefix(data, init, blocks);
      ChunkParsed(data, 28 + |a|, blocks - AllBlocks(init), Crc(Output(init)), last);
      assert init + [last] == chunks;
    }
  }

  /** Every well-formed image is accepted, and read back as itself. */
  lemma WellFormedParses(img: Image, maxBytes: int)
    requires WellFormed(img, maxBytes)
    ensures ParseImage(ImageBytes(img), maxBytes) == Some(img)
  {
    hide Parse, Word, HalfWord, Header, Crc, Bits;
    var data, n := ImageBytes(img), |AllChunkBytes(img.chunks)|;
    assert data[..28] == Header(img.blocks, |img.chunks|, img.checksum);
    assert data[28..28 + n] == AllChunkBytes(img.chunks);
    HeaderThere(data, img.blocks, |img.chunks|, img.checksum);
    ParsePrefix(data, img.chunks, img.blocks);
  }

  // ---------------------------------------------------------------- the bytes of the format

  /** The fixed part of the header: magic, version 1.0, header sizes 28 and 12, blocks of 4096 bytes. */
  lemma HeaderIs(blocks: u32, chunks: u32, checksum: u32)
    ensures Header(blocks, chunks, checksum)[..16] == [0x3a, 0xff, 0x26, 0xed, 1, 0, 0, 0, 28, 0, 12, 0, 0, 0x10, 0, 0]
  {
    var h := Header(blocks, chunks, checksum);
    HeaderFields(h, blocks, chunks, checksum);
    FixedWords();
    assert h[..16] == h[0..4] + h[4..6] + h[6..8] + h[8..10] + h[10..12] + h[12..16];
  }

  lemma FixedWords()
    ensures WordBytes(MAGIC) == [0x3a, 0xff, 0x26, 0xed] && WordBytes(BLOCK) == [0, 0x10, 0, 0]
    ensures HalfBytes(1) == [1, 0] && HalfBytes(0) == [0, 0] && HalfBytes(28) == [28, 0] && HalfBytes(12) == [12, 0]
  {}

  /** Each chunk begins with the type of its kind. */
  lemma ChunkTypes(c: Chunk)
    requires Sound(c)
    ensures ChunkBytes(c)[..4] == match c
                                  case Raw(_) => [0xc1, 0xca, 0, 0]
                                  case Fill(_, _) => [0xc2, 0xca, 0, 0]
                                  case Skip(_) => [0xc3, 0xca, 0, 0]
                                  case Check(_) => [0xc4, 0xca, 0, 0]
  {
    hide WordBytes;
    assert HalfBytes(RAW) == [0xc1, 0xca] && HalfBytes(FILL) == [0xc2, 0xca] && HalfBytes(SKIP) == [0xc3, 0xca] && HalfBytes(CHECK) == [0xc4, 0xca];
    assert HalfBytes(0) == [0, 0];
  }
}

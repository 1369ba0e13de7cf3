/**
 * The userspace composer session: CCD worker envelopes in, 75-byte ACKs out.  One
 * CREATE, one CONFIG, one FRAME, then FLUSH and DESTROY; the first error is latched.
 */
module Composer {
  import opened Errno
  import opened Words
  import opened Capture
  import opened CommandQueue
  import opened Recipe
  import RegisterImage

  const CMD_CREATE := 0
  const CMD_CONFIG := 1
  const CMD_FRAME := 2
  const CMD_DESTROY := 3
  const CMD_ACK := 4
  const CMD_FLUSH := 5
  const IPI_ISP_MAIN := 1
  const BUF_MAX := 1024
  const MAPPINGS_BYTES := 32
  const CONFIG_BYTES := 556
  const FRAME_BYTES := 92291
  const ACK_BYTES := 75

  datatype IpiBuffer = IpiBuffer(iova: u64, fd: u32, size: u32)

  datatype Mappings = Mappings(work: IpiBuffer, message: IpiBuffer)

  /** A worker envelope; `mappings`, `config` and `offset`/`size` are the views of its payload union. */
  datatype Item = Item(
    src: u32, id: u32, len: u32, session: byte, cookie: u32, command: byte,
    mappings: Mappings, config: Config, offset: u32, size: u32)

  datatype Session = Session(
    session: u32, created: bool, configured: bool, frameStarted: bool, flushed: bool, closed: bool,
    firstError: int, mappings: Mappings, resources: Resources, job: Job, config: Config)

  // ---------------------------------------------------------------- ACK bytes

  /** `result` as the source stores it: a 32-bit two's complement word. */
  function Unsigned(result: int): u32 {
    result % 0x1_0000_0000
  }

  /** Cookie, ACK, command, result, then a result table whose only used slot is camsv[0]. */
  function AckBytes(req: Item, result: int, offset: u32, length: u32): (ack: seq<byte>)
    ensures |ack| == ACK_BYTES
  {
    [req.session] + WordBytes(req.cookie) + [CMD_ACK, req.command] + WordBytes(Unsigned(result))
      + Zeros(48) + WordBytes(offset) + WordBytes(length) + Zeros(8)
  }

  lemma AckFields(req: Item, result: int, offset: u32, length: u32)
    ensures var a := AckBytes(req, result, offset, length);
            && a[0] == req.session && Word(a, 1) == req.cookie && a[5] == CMD_ACK && a[6] == req.command
            && Word(a, 7) == Unsigned(result) && Word(a, 59) == offset && Word(a, 63) == length
            && a[11..59] == Zeros(48) && a[67..75] == Zeros(8)
  {
    hide Word, WordBytes, Zeros;
    var a := AckBytes(req, result, offset, length);
    assert a[1..5] == WordBytes(req.cookie);
    assert a[7..11] == WordBytes(Unsigned(result));
    assert a[59..63] == WordBytes(offset);
    assert a[63..67] == WordBytes(length);
    WordOfBytes(a, 1, req.cookie);
    WordOfBytes(a, 7, Unsigned(result));
    WordOfBytes(a, 59, offset);
    WordOfBytes(a, 63, length);
  }

  // ---------------------------------------------------------------- the canonical frame

  /** The used head of one CAMSV slot: ids, format, size, first stride, first buffer. */
  function SlotBytes(job: Job, tag: u32): (b: seq<byte>)
    ensures |b| == 43
  {
    var layout, buffer, pipe := PlaneLayout(job, tag), PlaneBuffer(job, tag), (job.svId + CAMSV_START) % 0x1_0000_0000;
    WordBytes(pipe) + [tag % 0x100] + WordBytes(0) + [pipe % 0x100, 25] + WordBytes(layout.format)
      + HalfBytes(layout.width % 0x1_0000) + HalfBytes(layout.height % 0x1_0000) + HalfBytes(layout.bytesperline % 0x1_0000) + Zeros(6)
      + WordBytes(buffer.dma % 0x1_0000_0000) + WordBytes(buffer.dma / 0x1_0000_0000) + WordBytes(0) + WordBytes(buffer.size)
  }

  function SlotStart(tag: u32): nat {
    25005 + 2083 * tag
  }

  function FrameByte(job: Job, workOffset: u32, workSize: u32, i: nat): byte {
    if i < 4 then WordBytes(workOffset)[i]
    else if i < 8 then WordBytes(workSize)[i - 4]
    else if SlotStart(job.rawTag) <= i < SlotStart(job.rawTag) + 43 then SlotBytes(job, job.rawTag)[i - SlotStart(job.rawTag)]
    else if SlotStart(job.pdafTag) <= i < SlotStart(job.pdafTag) + 43 then SlotBytes(job, job.pdafTag)[i - SlotStart(job.pdafTag)]
    else 0
  }

  /** The only frame message that a job's FRAME may carry; everything unused is zero. */
  function CanonicalFrame(job: Job, workOffset: u32, workSize: u32): (f: seq<byte>)
    ensures |f| == FRAME_BYTES
  {
    seq(FRAME_BYTES, i requires i >= 0 => FrameByte(job, workOffset, workSize, i))
  }

  lemma CanonicalHeader(job: Job, workOffset: u32, workSize: u32)
    ensures Word(CanonicalFrame(job, workOffset, workSize), 0) == workOffset
    ensures Word(CanonicalFrame(job, workOffset, workSize), 4) == workSize
  {
    hide Word, WordBytes, SlotBytes, SlotStart;
    var f := CanonicalFrame(job, workOffset, workSize);
    assert f[0..4] == WordBytes(workOffset);
    assert f[4..8] == WordBytes(workSize);
    WordOfBytes(f, 0, workOffset);
    WordOfBytes(f, 4, workSize);
  }

  /** One plane in the frame: its slot's ids, format, size, stride and buffer, at the offsets of the ABI. */
  ghost predicate PlaneInFrame(f: seq<byte>, at: nat, svId: u32, tag: u32, l: Layout, b: Buffer) {
    && at + 43 <= |f| && Word(f, at) == 3 + svId && f[at + 4] == tag && f[at + 9] == 3 + svId && f[at + 10] == 25
    && Word(f, at + 11) == l.format && HalfWord(f, at + 15) == l.width && HalfWord(f, at + 17) == l.height
    && HalfWord(f, at + 19) == l.bytesperline && Word(f, at + 27) + 0x1_0000_0000 * Word(f, at + 31) == b.dma && Word(f, at + 39) == b.size
  }

  lemma SlotFields(job: Job, tag: u32)
    requires job.svId <= 1 && tag <= 7
    ensures var b, l, buffer := SlotBytes(job, tag), PlaneLayout(job, tag), PlaneBuffer(job, tag);
            && Word(b, 0) == 3 + job.svId && b[4] == tag && b[9] == 3 + job.svId && b[10] == 25 && Word(b, 11) == l.format
            && HalfWord(b, 15) == l.width % 0x1_0000 && HalfWord(b, 17) == l.height % 0x1_0000
            && HalfWord(b, 19) == l.bytesperline % 0x1_0000 && Word(b, 27) == buffer.dma % 0x1_0000_0000
            && Word(b, 31) == buffer.dma / 0x1_0000_0000 && Word(b, 39) == buffer.size
  {
    hide Word, WordBytes, HalfWord, HalfBytes, Zeros, PlaneLayout, PlaneBuffer;
    var b, l, buffer := SlotBytes(job, tag), PlaneLayout(job, tag), PlaneBuffer(job, tag);
    assert b[0..4] == WordBytes(job.svId + 3) && b[11..15] == WordBytes(l.format);
    assert b[15..17] == HalfBytes(l.width % 0x1_0000) && b[17..19] == HalfBytes(l.height % 0x1_0000);
    assert b[19..21] == HalfBytes(l.bytesperline % 0x1_0000) && b[27..31] == WordBytes(buffer.dma % 0x1_0000_0000);
    assert b[31..35] == WordBytes(buffer.dma / 0x1_0000_0000) && b[39..43] == WordBytes(buffer.size);
    WordOfBytes(b, 0, job.svId + 3);
    WordOfBytes(b, 11, l.format);
    HalfOfBytes(b, 15, l.width % 0x1_0000);
    HalfOfBytes(b, 17, l.height % 0x1_0000);
    HalfOfBytes(b, 19, l.bytesperline % 0x1_0000);
    WordOfBytes(b, 27, buffer.dma % 0x1_0000_0000);
    WordOfBytes(b, 31, buffer.dma / 0x1_0000_0000);
    WordOfBytes(b, 39, buffer.size);
  }

  lemma SlotPlaced(job: Job, workOffset: u32, workSize: u32, tag: u32)
    requires job.rawTag <= 7 && job.pdafTag <= 7 && (tag == job.rawTag || tag == job.pdafTag)
    ensures var f, at := CanonicalFrame(job, workOffset, workSize), 25005 + 2083 * tag;
            at + 43 <= |f| && f[at..at + 43] == SlotBytes(job, tag)
  {
    hide SlotBytes, WordBytes;
    var f, at := CanonicalFrame(job, workOffset, workSize), 25005 + 2083 * tag;
    forall k | 0 <= k < 43 ensures f[at..at + 43][k] == SlotBytes(job, tag)[k] {
      assert f[at + k] == FrameByte(job, workOffset, workSize, at + k);
    }
  }

  lemma SlotInFrame(job: Job, f: seq<byte>, at: nat, tag: u32)
    requires job.svId <= 1 && tag <= 7 && at + 43 <= |f| && f[at..at + 43] == SlotBytes(job, tag)
    requires PlaneLayout(job, tag).width <= 65535 && PlaneLayout(job, tag).height <= 65535 && PlaneLayout(job, tag).bytesperline <= 65535
    ensures PlaneInFrame(f, at, job.svId, tag, PlaneLayout(job, tag), PlaneBuffer(job, tag))
  {
    hide Word, HalfWord, SlotBytes, PlaneLayout, PlaneBuffer;
    SlotFields(job, tag);
    WordShift(f, at, 43, 0);
    WordShift(f, at, 43, 11);
    HalfShift(f, at, 43, 15);
    HalfShift(f, at, 43, 17);
    HalfShift(f, at, 43, 19);
    WordShift(f, at, 43, 27);
    WordShift(f, at, 43, 31);
    WordShift(f, at, 43, 39);
    assert f[at + 4] == f[at..at + 43][4] && f[at + 9] == f[at..at + 43][9] && f[at + 10] == f[at..at + 43][10];
  }

  /** The canonical frame describes both planes in their own slots, and is zero everywhere else. */
  lemma CanonicalPlanes(job: Job, workOffset: u32, workSize: u32)
    requires job.svId <= 1 && job.rawTag <= 7 && job.pdafTag <= 7 && job.rawTag != job.pdafTag
    requires LayoutCode(job.rawLayout, job.raw.size) == 0 && LayoutCode(job.pdafLayout, job.pdaf.size) == 0
    ensures var f := CanonicalFrame(job, workOffset, workSize);
            && PlaneInFrame(f, 25005 + 2083 * job.rawTag, job.svId, job.rawTag, job.rawLayout, job.raw)
            && PlaneInFrame(f, 25005 + 2083 * job.pdafTag, job.svId, job.pdafTag, job.pdafLayout, job.pdaf)
            && forall i | 8 <= i < 92291 && !(0 <= i - 25005 - 2083 * job.rawTag < 43) && !(0 <= i - 25005 - 2083 * job.pdafTag < 43) :: f[i] == 0
  {
    hide CanonicalFrame, SlotBytes, PlaneInFrame, LayoutCode;
    LayoutExact(job.rawLayout, job.raw.size);
    LayoutExact(job.pdafLayout, job.pdaf.size);
    var f := CanonicalFrame(job, workOffset, workSize);
    SlotPlaced(job, workOffset, workSize, job.rawTag);
    SlotPlaced(job, workOffset, workSize, job.pdafTag);
    SlotInFrame(job, f, 25005 + 2083 * job.rawTag, job.rawTag);
    SlotInFrame(job, f, 25005 + 2083 * job.pdafTag, job.pdafTag);
    RestZero(job, workOffset, workSize);
  }

  lemma RestZero(job: Job, workOffset: u32, workSize: u32)
    requires job.rawTag <= 7 && job.pdafTag <= 7
    ensures forall i | 8 <= i < 92291 && !(0 <= i - 25005 - 2083 * job.rawTag < 43) && !(0 <= i - 25005 - 2083 * job.pdafTag < 43) ::
              CanonicalFrame(job, workOffset, workSize)[i] == 0
  {
    hide SlotBytes, WordBytes;
  }

  function FrameBuildCode(job: Job, workOffset: u32, workSize: u32, shared: u32): int {
    if job.svId > 1 || job.rawTag > 7 || job.pdafTag > 7 || job.rawTag == job.pdafTag
       || workSize == 0 || workOffset > shared || workSize > shared - workOffset then EINVAL
    else if !Geometry(job) || job.rawLayout.width != job.width || job.rawLayout.height != job.height
            || (job.rawLayout.format != FMT_BAYER10 && job.rawLayout.format != FMT_BAYER10_MIPI) then EOPNOTSUPP
    else if LayoutCode(job.rawLayout, job.raw.size) != 0 || !InRange(job.raw, job.raw.size)
            || LayoutCode(job.pdafLayout, job.pdaf.size) != 0 || !InRange(job.pdaf, job.pdaf.size) then EINVAL
    else 0
  }

  // ---------------------------------------------------------------- FRAME

  /** The request consumes the session's only frame, whatever happens next. */
  predicate FrameStarts(s: Session, req: Item) {
    s.configured && !s.frameStarted && req.len >= 14 && req.cookie == s.job.sequence
  }

  function WorkSlice(s: Session, workOffset: u32, workSize: u32): Slice {
    Slice((s.mappings.work.iova + workOffset) % 0x1_0000_0000_0000_0000, workSize, s.resources.central, 0x11000)
  }

  predicate MessageInside(s: Session, req: Item) {
    req.size == FRAME_BYTES && req.offset <= s.mappings.message.size && req.size <= s.mappings.message.size - req.offset
  }

  function FrameAt(message: seq<byte>, req: Item): seq<byte> {
    if req.offset + FRAME_BYTES <= |message| then message[req.offset..req.offset + FRAME_BYTES] else []
  }

  function SliceCode(s: Session, frame: seq<byte>): int {
    var workOffset, workSize := Word(frame, 0), Word(frame, 4);
    if workSize == 0 || workOffset % 16 != 0 || workSize % 4 != 0 || workOffset > s.mappings.work.size
       || workSize > s.mappings.work.size - workOffset then ERANGE
    else if FrameBuildCode(s.job, workOffset, workSize, s.mappings.work.size) != 0 then
      FrameBuildCode(s.job, workOffset, workSize, s.mappings.work.size)
    else if frame != CanonicalFrame(s.job, workOffset, workSize) then EOPNOTSUPP
    else
      var slice := WorkSlice(s, workOffset, workSize);
      if !InitArguments(slice.capacity, slice.iova, slice.regBase, slice.regSize) then EINVAL
      else PreflightCode(slice, s.job, s.config, s.resources, s.session)
  }

  function FrameCode(s: Session, message: seq<byte>, req: Item): int {
    if !s.configured || s.frameStarted || req.len < 14 then EINVAL
    else if req.cookie != s.job.sequence then ESTALE
    else if !MessageInside(s, req) then ERANGE
    else SliceCode(s, FrameAt(message, req))
  }

  // ---------------------------------------------------------------- dispatch

  /** `composed` says that the work buffer now holds the recipe at `offset`. */
  datatype Outcome = Outcome(s: Session, ret: int, reply: seq<byte>, composed: bool, offset: u32, size: u32)

  function Silent(s: Session, ret: int): Outcome {
    Outcome(s, ret, [], false, 0, 0)
  }

  function Latch(s: Session, error: int): Session {
    if s.firstError == 0 then s.(firstError := error) else s
  }

  function Dispatch(s: Session, message: seq<byte>, req: Item): Outcome {
    if req.len < 6 || req.len > BUF_MAX then Silent(s, EMSGSIZE)
    else if s.closed || req.src != s.session + IPI_ISP_MAIN || req.id != req.src || req.session != s.session then
      Silent(s, ESTALE)
    else if req.command == CMD_CREATE then
      if req.len < 6 + MAPPINGS_BYTES || s.created then Silent(s, EINVAL)
      else if req.mappings != s.mappings then Silent(s, ESTALE)
      else Silent(s.(created := true), 0)
    else if req.command == CMD_CONFIG then DispatchConfig(s, req)
    else if req.command != CMD_FRAME && req.command != CMD_FLUSH && req.command != CMD_DESTROY then Silent(s, EOPNOTSUPP)
    else if !s.created then Silent(s, ENOTCONN)
    else if req.command != CMD_FRAME && req.cookie != 0 then Silent(s, ESTALE)
    else if req.command == CMD_FLUSH then
      if s.flushed then Silent(s, EALREADY)
      else Outcome(s.(flushed := true), 1, AckBytes(req, 0, 0, 0), false, 0, 0)
    else if req.command == CMD_DESTROY then
      if !s.flushed then Silent(s, EBUSY)
      else Outcome(s.(closed := true), 1, AckBytes(req, 0, 0, 0), false, 0, 0)
    else DispatchFrame(s, message, req)
  }

  function DispatchConfig(s: Session, req: Item): Outcome {
    if s.firstError != 0 then Silent(s, s.firstError)
    else if !s.created || s.configured || s.flushed || req.len < 6 + CONFIG_BYTES then Silent(s, EINVAL)
    else
      var t := s.(config := req.config);
      var code := InputsCode(t.job, t.config, t.resources);
      if code != 0 then Silent(Latch(t, code), code) else Silent(t.(configured := true), 0)
  }

  function DispatchFrame(s: Session, message: seq<byte>, req: Item): Outcome {
    if s.flushed then Silent(s, ESHUTDOWN)
    else
      var t := if s.firstError == 0 && FrameStarts(s, req) then s.(frameStarted := true) else s;
      var code := if s.firstError != 0 then s.firstError else FrameCode(s, message, req);
      if code == ESTALE then Silent(t, ESTALE)
      else if code != 0 then
        var u := Latch(t, code);
        Outcome(u, 1, AckBytes(req, u.firstError, 0, 0), false, 0, 0)
      else
        var frame := FrameAt(message, req);
        Outcome(t, 1, AckBytes(req, 0, Word(frame, 0), 720), true, Word(frame, 0), Word(frame, 4))
  }

  // ---------------------------------------------------------------- what preparation guarantees

  function WorkBuffer(m: Mappings): Buffer {
    Buffer(m.work.iova, m.work.size, 1)
  }

  /** Facts fixed by preparation and kept by every message. */
  predicate Prepared(s: Session) {
    && s.session <= 3 && s.job.sequence / 0x100_0000 == s.session
    && s.mappings.message.size >= FRAME_BYTES && s.mappings.work.size >= 16 * RECIPE_WRITES + 12
    && InRange(WorkBuffer(s.mappings), s.mappings.work.size)
    && s.mappings.work.iova % 16 == 0 && s.mappings.work.size % 4 == 0
    && !Overlap(WorkBuffer(s.mappings), s.job.raw) && !Overlap(WorkBuffer(s.mappings), s.job.pdaf)
  }

  predicate Consistent(s: Session) {
    && Prepared(s) && -4096 < s.firstError <= 0
    && (s.configured ==> s.created && InputsCode(s.job, s.config, s.resources) == 0)
    && (s.frameStarted ==> s.configured)
    && (s.closed ==> s.flushed)
  }

  /** The recipe of the session's job is in the work buffer at `offset`, as the hardware will read it. */
  ghost predicate Holds(s: Session, work: seq<byte>, offset: u32, size: u32) {
    && offset + size <= |work| && Composable(s.job, s.resources)
    && Decode(work[offset..offset + size], WorkSlice(s, offset, size).iova, 0, 720)
       == Some(RecipeWrites(s.job, s.resources))
  }

  /** Composition writes the slice and nothing else; any other message leaves the buffer alone. */
  ghost predicate WorkStep(before: seq<byte>, after: seq<byte>, o: Outcome) {
    && |after| == |before|
    && if o.composed then
         && Holds(o.s, after, o.offset, o.size)
         && Agree(before, after, 0, o.offset) && Agree(before, after, o.offset + o.size, |before|)
       else after == before
  }

  /** An envelope for this open session. */
  predicate ForSession(s: Session, req: Item) {
    6 <= req.len <= 1024 && !s.closed && req.src == s.session + 1 && req.id == req.src && req.session == s.session
  }

  /** Every flag is earned: what the message that sets it must have been, and what must have come before. */
  lemma FlagsEarned(s: Session, message: seq<byte>, req: Item)
    ensures var t := Dispatch(s, message, req).s;
            && (t != s ==> ForSession(s, req))
            && (t.created && !s.created ==> req.command == 0 && req.mappings == s.mappings)
            && (t.configured && !s.configured ==> req.command == 1 && s.created && !s.flushed && s.firstError == 0
                                                  && t.config == req.config && InputsCode(s.job, req.config, s.resources) == 0)
            && (t.frameStarted && !s.frameStarted ==> req.command == 2 && s.created && s.configured && !s.flushed && s.firstError == 0
                                                      && req.cookie == s.job.sequence)
            && (t.flushed && !s.flushed ==> req.command == 5 && s.created && req.cookie == 0)
            && (t.closed && !s.closed ==> req.command == 3 && s.created && s.flushed && req.cookie == 0)
            && (t.firstError != s.firstError ==> s.firstError == 0 && (req.command == 1 || req.command == 2))
    ensures s.firstError <= 0 && Dispatch(s, message, req).ret == 1 ==>
              ForSession(s, req) && s.created && (req.command == 2 || req.command == 5 || req.command == 3)
  {
    hide InputsCode, SliceCode, AckBytes, Word, FrameAt;
    CodesNotPositive(s, message, req);
  }

  /** Every message keeps the session consistent and its immutable part unchanged, and never undoes a step. */
  lemma DispatchKeeps(s: Session, message: seq<byte>, req: Item)
    requires Consistent(s)
    ensures var t := Dispatch(s, message, req).s;
            && Consistent(t) && t.session == s.session && t.mappings == s.mappings && t.job == s.job && t.resources == s.resources
            && (s.created ==> t.created) && (s.frameStarted ==> t.frameStarted) && (s.flushed ==> t.flushed)
            && (s.closed ==> t.closed) && (s.configured ==> t.configured && t.config == s.config)
            && (s.firstError != 0 ==> t.firstError == s.firstError)
    ensures -4096 < Dispatch(s, message, req).ret <= 1
  {
    hide InputsCode, SliceCode, InRange, Overlap, Word, AckBytes, FrameAt, MessageInside;
    CodesNotPositive(s, message, req);
  }

  lemma CodesNotPositive(s: Session, message: seq<byte>, req: Item)
    ensures -4096 < InputsCode(s.job, req.config, s.resources) <= 0 && -4096 < FrameCode(s, message, req) <= 0
    ensures -4096 < InputsCode(s.job, s.config, s.resources)
  {
    hide OwnedBanks, LinearFirstFrame, Geometry, PlanesFit, Mask, Group, InputMatches, Targets, Overlap, LayoutCode, InRange, CanonicalFrame, InitArguments, RecipeWrites;
  }

  lemma SubSlice(work: Buffer, other: Buffer, offset: u32, size: u32)
    requires InRange(work, work.size) && other.dma < DMA_LIMIT && other.size <= DMA_LIMIT - other.dma
    requires !Overlap(work, other) && offset + size <= work.size && size > 0 && other.size > 0
    ensures !Overlap(Buffer(work.dma + offset, size, 1), other)
  {}

  /** Composition cannot fail on a configured session with a canonical frame and room for the recipe. */
  lemma CanonicalComposes(s: Session, message: seq<byte>, req: Item, workOffset: u32, workSize: u32)
    requires Consistent(s) && s.configured && !s.frameStarted && req.len >= 14 && req.cookie == s.job.sequence
    requires MessageInside(s, req) && FrameAt(message, req) == CanonicalFrame(s.job, workOffset, workSize)
    requires workOffset % 16 == 0 && workSize % 4 == 0 && workSize >= 16 * RECIPE_WRITES + 12
    requires workOffset + workSize <= s.mappings.work.size
    ensures FrameCode(s, message, req) == 0
  {
    hide InputsCode, CanonicalFrame, Word, FrameAt, InitArguments, PreflightCode, FrameBuildCode, WorkSlice, InRange, Overlap;
    CanonicalHeader(s.job, workOffset, workSize);
    PreflightPasses(s, workOffset, workSize);
    FrameBuilds(s, workOffset, workSize);
  }

  lemma FrameBuilds(s: Session, workOffset: u32, workSize: u32)
    requires Consistent(s) && s.configured && workSize > 0 && workOffset + workSize <= s.mappings.work.size
    ensures FrameBuildCode(s.job, workOffset, workSize, s.mappings.work.size) == 0
  {
    hide InputMatches, LinearFirstFrame, Mask, Group, Geometry, LayoutCode, Overlap, InRange;
    LayoutSizes(s.job, s.config, s.resources);
  }

  lemma PreflightPasses(s: Session, workOffset: u32, workSize: u32)
    requires Consistent(s) && s.configured
    requires workOffset % 16 == 0 && workSize % 4 == 0 && workSize >= 16 * RECIPE_WRITES + 12
    requires workOffset + workSize <= s.mappings.work.size
    ensures var q := WorkSlice(s, workOffset, workSize);
            InitArguments(q.capacity, q.iova, q.regBase, q.regSize)
            && PreflightCode(q, s.job, s.config, s.resources, s.session) == 0
  {
    hide InputsCode, RecipeWrites, Targets, Overlap, InitArguments, Mask, Group;
    LayoutSizes(s.job, s.config, s.resources);
    SliceArguments(s, workOffset, workSize);
    RegisterImage.RecipeTargets(s.job, s.resources);
    SubSlice(WorkBuffer(s.mappings), s.job.raw, workOffset, workSize);
    SubSlice(WorkBuffer(s.mappings), s.job.pdaf, workOffset, workSize);
  }

  lemma SliceArguments(s: Session, workOffset: u32, workSize: u32)
    requires Prepared(s) && OwnedBanks(s.resources, s.job.svId)
    requires workOffset % 16 == 0 && workSize % 4 == 0 && workSize >= 28 && workOffset + workSize <= s.mappings.work.size
    ensures var q := WorkSlice(s, workOffset, workSize); InitArguments(q.capacity, q.iova, q.regBase, q.regSize)
    ensures WorkSlice(s, workOffset, workSize).iova == s.mappings.work.iova + workOffset
  {
    hide Overlap;
    AlignedSum(s.mappings.work.iova, workOffset);
    PageAligned(s.resources.central);
  }

  lemma PageAligned(base: nat)
    requires base % 0x1000 == 0
    ensures base % 4 == 0
  {
    assert base == 4 * (0x400 * (base / 0x1000));
  }

  lemma AlignedSum(iova: nat, offset: nat)
    requires iova % 16 == 0 && offset % 16 == 0 && iova + offset < DMA_LIMIT
    ensures (iova + offset) % 0x1_0000_0000_0000_0000 == iova + offset && (iova + offset) % 16 == 0
  {}

  lemma LayoutSizes(job: Job, config: Config, r: Resources)
    requires InputsCode(job, config, r) == 0
    ensures Composable(job, r) && PlanesFit(job) && Geometry(job) && job.raw.size > 0 && job.pdaf.size > 0
    ensures InRange(job.raw, job.raw.size) && InRange(job.pdaf, job.pdaf.size)
    ensures Group(job, 0) == Mask(job) && Group(job, 1) == 0 && Group(job, 2) == 0 && Group(job, 3) == 0
  {
    hide InputMatches, LinearFirstFrame, Mask, Group, Overlap, Geometry, LayoutCode;
  }

  // ---------------------------------------------------------------- the session object

  /** For non-empty ranges the pointer test is interval intersection. */
  lemma VaOverlapExact(a: nat, aSize: nat, b: nat, bSize: nat)
    requires aSize > 0 && bSize > 0
    ensures VaOverlap(a, aSize, b, bSize) <==> exists x :: Inside(x, a, aSize) && Inside(x, b, bSize)
  {
    if VaOverlap(a, aSize, b, bSize) {
      var x := if a <= b then b else a;
      assert Inside(x, a, aSize) && Inside(x, b, bSize);
    }
  }

  predicate Inside(x: int, start: int, size: int) {
    start <= x < start + size
  }

  /** Addresses of the session object, the two mappings and the scratch frame. */
  datatype Placement = Placement(self: nat, selfSize: nat, work: nat, message: nat, scratch: nat)

  predicate Apart(p: Placement, m: Mappings) {
    && !VaOverlap(p.work, m.work.size, p.message, m.message.size)
    && !VaOverlap(p.scratch, FRAME_BYTES, p.work, m.work.size)
    && !VaOverlap(p.scratch, FRAME_BYTES, p.message, m.message.size)
    && !VaOverlap(p.self, p.selfSize, p.scratch, FRAME_BYTES)
    && !VaOverlap(p.self, p.selfSize, p.work, m.work.size)
    && !VaOverlap(p.self, p.selfSize, p.message, m.message.size)
  }

  function PrepareCode(session: u32, m: Mappings, p: Placement, job: Job): int {
    if session > 3 || m.work.fd > 0x7fff_ffff || m.message.fd > 0x7fff_ffff || m.message.iova != 0
       || m.message.size < FRAME_BYTES || m.work.size < 16 * RECIPE_WRITES + 12
       || job.sequence / 0x100_0000 != session then EINVAL
    else if !InRange(WorkBuffer(m), m.work.size) || m.work.iova % 16 != 0 || m.work.size % 4 != 0
            || Overlap(WorkBuffer(m), job.raw) || Overlap(WorkBuffer(m), job.pdaf) then ERANGE
    else if !Apart(p, m) then EINVAL
    else 0
  }

  /** Ranges of addresses without a common one. */
  ghost predicate RangesApart(a: nat, aSize: nat, b: nat, bSize: nat) {
    a + aSize <= b || b + bSize <= a
  }

  /** What a session may be prepared for, in plain terms. */
  ghost predicate Preparable(session: u32, m: Mappings, p: Placement, job: Job) {
    && session <= 3 && job.sequence / 0x100_0000 == session
    && m.work.fd <= 0x7fff_ffff && m.message.fd <= 0x7fff_ffff && m.message.iova == 0
    && m.message.size >= 92291 && m.work.size >= 956 && m.work.size % 4 == 0 && m.work.iova % 16 == 0
    && m.work.iova + m.work.size <= 0x4_0000_0000
    && !Overlap(WorkBuffer(m), job.raw) && !Overlap(WorkBuffer(m), job.pdaf)
    && RangesApart(p.work, m.work.size, p.message, m.message.size)
    && RangesApart(p.scratch, 92291, p.work, m.work.size) && RangesApart(p.scratch, 92291, p.message, m.message.size)
    && RangesApart(p.self, p.selfSize, p.scratch, 92291)
    && RangesApart(p.self, p.selfSize, p.work, m.work.size) && RangesApart(p.self, p.selfSize, p.message, m.message.size)
  }

  lemma VaOverlapIs(a: nat, aSize: nat, b: nat, bSize: nat)
    requires aSize > 0 && bSize > 0
    ensures VaOverlap(a, aSize, b, bSize) <==> !RangesApart(a, aSize, b, bSize)
  {}

  /** Preparation accepts exactly those. */
  lemma PrepareExact(session: u32, m: Mappings, p: Placement, job: Job)
    requires p.selfSize > 0
    ensures PrepareCode(session, m, p, job) == 0 <==> Preparable(session, m, p, job)
  {
    hide InRange, Overlap, VaOverlap, RangesApart;
    InRangeIs(WorkBuffer(m), m.work.size);
    if m.work.size > 0 && m.message.size > 0 {
      VaOverlapIs(p.work, m.work.size, p.message, m.message.size);
      VaOverlapIs(p.scratch, FRAME_BYTES, p.work, m.work.size);
      VaOverlapIs(p.scratch, FRAME_BYTES, p.message, m.message.size);
      VaOverlapIs(p.self, p.selfSize, p.scratch, FRAME_BYTES);
      VaOverlapIs(p.self, p.selfSize, p.work, m.work.size);
      VaOverlapIs(p.self, p.selfSize, p.message, m.message.size);
    }
  }

  function FreshSession(session: u32, m: Mappings, r: Resources, job: Job, config: Config): Session {
    Session(session, false, false, false, false, false, 0, m, r, job, config)
  }

  /** A successful preparation yields a consistent session that has seen no message. */
  lemma PreparedIsConsistent(session: u32, m: Mappings, p: Placement, r: Resources, job: Job, config: Config)
    requires PrepareCode(session, m, p, job) == 0
    ensures Consistent(FreshSession(session, m, r, job, config))
  {}

  class ComposerSession {
    var session: u32
    var created: bool
    var configured: bool
    var frameStarted: bool
    var flushed: bool
    var closed: bool
    var firstError: int
    var mappings: Mappings
    var resources: Resources
    var job: Job
    var config: Config
    var work: array<byte>
    var message: array<byte>

    function State(): Session
      reads this
    {
      Session(session, created, configured, frameStarted, flushed, closed, firstError, mappings, resources, job, config)
    }

    ghost predicate Valid()
      reads this
    {
      && work != message && work.Length == mappings.work.size && message.Length == mappings.message.size
      && Consistent(State())
    }

    /** Validates the mappings against the job; a session object exists only on success. */
    static method Prepare(session: u32, mappings: Mappings, work: array<byte>, message: array<byte>, placement: Placement,
                          resources: Resources, job: Job, config: Config) returns (ret: int, s: ComposerSession?)
      requires work != message && work.Length == mappings.work.size && message.Length == mappings.message.size
      ensures ret == PrepareCode(session, mappings, placement, job)
      ensures ret == 0 <==> s != null
      ensures ret == 0 ==> fresh(s) && s.Valid() && s.State() == FreshSession(session, mappings, resources, job, config)
                           && s.work == work && s.message == message
    {
      hide InRange, Overlap, Apart, Consistent;
      ret := PrepareCode(session, mappings, placement, job);
      s := null;
      if ret == 0 {
        s := new ComposerSession(session, mappings, work, message, placement, resources, job, config);
      }
    }

    constructor (session: u32, mappings: Mappings, work: array<byte>, message: array<byte>, placement: Placement,
                 resources: Resources, job: Job, config: Config)
      requires PrepareCode(session, mappings, placement, job) == 0
      requires work != message && work.Length == mappings.work.size && message.Length == mappings.message.size
      ensures Valid() && State() == FreshSession(session, mappings, resources, job, config)
      ensures this.work == work && this.message == message
    {
      this.session, this.mappings, this.resources, this.job, this.config := session, mappings, resources, job, config;
      this.work, this.message := work, message;
      created, configured, frameStarted, flushed, closed, firstError := false, false, false, false, false, 0;
      new;
      PreparedIsConsistent(session, mappings, placement, resources, job, config);
    }

    /** Consumes the frame before validating it, then composes in place inside the named slice. */
    method Frame(req: Item) returns (ret: int, offset: u32, size: u32, length: u32)
      requires Valid()
      modifies this`frameStarted, work
      ensures Valid()
      ensures State() == old(State()).(frameStarted := frameStarted) && frameStarted == (old(frameStarted) || old(FrameStarts(State(), req)))
      ensures ret == FrameCode(old(State()), message[..], req)
      ensures ret != 0 ==> work[..] == old(work[..])
      ensures ret == 0 ==> length == 720 && offset == Word(FrameAt(message[..], req), 0) && size == Word(FrameAt(message[..], req), 4)
                           && WorkStep(old(work[..]), work[..], Outcome(State(), 1, [], true, offset, size))
    {
      hide Word, InputsCode, FrameBuildCode, CanonicalFrame, PreflightCode, RecipeWrites, Decode, Prepared, RecipeCode, InitArguments;
      offset, size, length := 0, 0, 0;
      if !configured || frameStarted || req.len < 14 {
        ret := EINVAL;
        return;
      }
      if req.cookie != job.sequence {
        ret := ESTALE;
        return;
      }
      frameStarted := true;
      PreparedStable(old(State()), State());
      if !MessageInside(State(), req) {
        ret := ERANGE;
        return;
      }
      var frame := message[req.offset..req.offset + FRAME_BYTES];
      assert frame == FrameAt(message[..], req);
      offset, size := Word(frame, 0), Word(frame, 4);
      if size == 0 || offset % 16 != 0 || size % 4 != 0 || offset > mappings.work.size || size > mappings.work.size - offset {
        ret := ERANGE;
        return;
      }
      ret := FrameBuildCode(job, offset, size, mappings.work.size);
      if ret != 0 {
        return;
      }
      if frame != CanonicalFrame(job, offset, size) {
        ret := EOPNOTSUPP;
        return;
      }
      var slice := WorkSlice(State(), offset, size);
      if !InitArguments(slice.capacity, slice.iova, slice.regBase, slice.regSize) {
        ret := EINVAL;
        return;
      }
      ret, length := ComposeSlice(offset, size);
    }

    method ComposeSlice(offset: u32, size: u32) returns (ret: int, length: u32)
      requires Valid() && offset + size <= mappings.work.size
      requires var slice := WorkSlice(State(), offset, size); InitArguments(slice.capacity, slice.iova, slice.regBase, slice.regSize)
      modifies work
      ensures ret == PreflightCode(WorkSlice(State(), offset, size), job, config, resources, session)
      ensures ret != 0 ==> work[..] == old(work[..])
      ensures ret == 0 ==> length == 720 && WorkStep(old(work[..]), work[..], Outcome(State(), 1, [], true, offset, size))
    {
      hide Word, PreflightCode, RecipeWrites, Decode, DataDescriptors, Prefix, Consistent;
      var slice := WorkSlice(State(), offset, size);
      var q := new Queue.Prepared(work, offset, 0, slice.capacity, slice.iova, slice.regBase, slice.regSize);
      var valuesStart;
      ret, length, valuesStart := Compose(q, job, config, resources, session);
      OutsideAgrees(old(work[..]), work[..], offset, size);
    }

    /** One envelope: either a silent state change, or an ACK to send (ret 1), or a refusal. */
    method Receive(req: Item) returns (ret: int, reply: seq<byte>, composed: bool)
      requires Valid()
      modifies this, work
      ensures Valid() && work == old(work) && message == old(message)
      ensures var o := Dispatch(old(State()), old(message[..]), req);
              State() == o.s && ret == o.ret && (ret == 1 ==> reply == o.reply) && composed == o.composed && WorkStep(old(work[..]), work[..], o)
    {
      hide Word, InputsCode, FrameCode, FrameAt, AckBytes, Holds, FrameStarts, InRange, Overlap;
      DispatchKeeps(State(), message[..], req);
      reply, composed := [], false;
      if req.len < 6 || req.len > BUF_MAX {
        return EMSGSIZE, [], false;
      }
      if closed || req.src != session + IPI_ISP_MAIN || req.id != req.src || req.session != session {
        return ESTALE, [], false;
      }
      if req.command == CMD_CREATE {
        if req.len < 6 + MAPPINGS_BYTES || created {
          return EINVAL, [], false;
        }
        if req.mappings != mappings {
          return ESTALE, [], false;
        }
        created := true;
        return 0, [], false;
      }
      if req.command == CMD_CONFIG {
        ret := Configure(req);
        return;
      }
      if req.command != CMD_FRAME && req.command != CMD_FLUSH && req.command != CMD_DESTROY {
        return EOPNOTSUPP, [], false;
      }
      if !created {
        return ENOTCONN, [], false;
      }
      if req.command != CMD_FRAME && req.cookie != 0 {
        return ESTALE, [], false;
      }
      if req.command == CMD_FLUSH {
        if flushed {
          return EALREADY, [], false;
        }
        flushed := true;
        return 1, AckBytes(req, 0, 0, 0), false;
      }
      if req.command == CMD_DESTROY {
        if !flushed {
          return EBUSY, [], false;
        }
        closed := true;
        return 1, AckBytes(req, 0, 0, 0), false;
      }
      ret, reply, composed := ReceiveFrame(req);
    }

    method Configure(req: Item) returns (ret: int)
      requires Valid()
      modifies this`config, this`configured, this`firstError
      ensures Valid() && State() == DispatchConfig(old(State()), req).s && ret == DispatchConfig(old(State()), req).ret
    {
      hide InputsCode, InRange, Overlap;
      if firstError != 0 {
        return firstError;
      }
      if !created || configured || flushed || req.len < 6 + CONFIG_BYTES {
        return EINVAL;
      }
      config := req.config;
      ret := CheckInputs(job, config, resources);
      CodesNotPositive(State(), [], req);
      if ret != 0 {
        if firstError == 0 {
          firstError := ret;
        }
        return;
      }
      configured := true;
    }

    method ReceiveFrame(req: Item) returns (ret: int, reply: seq<byte>, composed: bool)
      requires Valid()
      modifies this, work
      ensures Valid() && work == old(work) && message == old(message)
      ensures var o := DispatchFrame(old(State()), old(message[..]), req);
              State() == o.s && ret == o.ret && (ret == 1 ==> reply == o.reply) && composed == o.composed && WorkStep(old(work[..]), work[..], o)
    {
      hide Word, InputsCode, FrameCode, FrameAt, AckBytes, Holds, FrameStarts, InRange, Overlap;
      if flushed {
        return ESHUTDOWN, [], false;
      }
      CodesNotPositive(State(), message[..], req);
      var offset, size, length := 0, 0, 0;
      if firstError != 0 {
        ret := firstError;
      } else {
        ret, offset, size, length := Frame(req);
      }
      if ret == ESTALE {
        return ESTALE, [], false;
      }
      if ret != 0 {
        if firstError == 0 {
          firstError := ret;
        }
        return 1, AckBytes(req, firstError, 0, 0), false;
      }
      return 1, AckBytes(req, 0, offset, length), true;
    }
  }

  lemma PreparedStable(s: Session, t: Session)
    requires Prepared(s) && t == s.(frameStarted := t.frameStarted)
    ensures Prepared(t)
  {}

  lemma OutsideAgrees(before: seq<byte>, after: seq<byte>, offset: nat, size: nat)
    requires |before| == |after| && offset + size <= |before|
    requires before[..offset] + before[offset + size..] == after[..offset] + after[offset + size..]
    ensures Agree(before, after, 0, offset) && Agree(before, after, offset + size, |before|)
  {
    var x, y := before[..offset] + before[offset + size..], after[..offset] + after[offset + size..];
    forall i | 0 <= i < |before| && (i < offset || offset + size <= i) ensures before[i] == after[i] {
      var k := if i < offset then i else i - size;
      assert x[k] == before[i] && y[k] == after[i];
    }
  }
}

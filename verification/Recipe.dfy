/**
 * The linear first-frame CAMSV recipe: 59 register writes for one RAW and one PDAF
 * plane, checked completely before the first descriptor is published.
 */
module Recipe {
  import opened Errno
  import opened Words
  import opened Capture
  import opened CommandQueue

  const RECIPE_WRITES := 59
  const CAMSV_START := 3
  const CAMSV_END := 19
  const MRAW_START := 19
  const MRAW_END := 23

  datatype Resources = Resources(central: u32, dma: u32, centralSize: u32, dmaSize: u32, svId: u32)

  datatype SvInput = SvInput(
    pipeId: u32, tagId: byte, tagOrder: byte, isFirstFrame: byte, isTwoSmiOut: byte, isLastOrderMetaOff: byte,
    fmt: u32, rawPixelId: byte, dataPattern: byte, pixelMode: byte, subsample: byte,
    cropX: nat, cropY: nat, cropW: nat, cropH: nat)

  datatype ConfigParam = ConfigParam(
    flags: byte, subsample: byte, swFeature: byte, expOrder: nat, frameOrder: nat, vsyncOrder: nat, cacSize: u32,
    nMaps: byte, maps: seq<byte>, svInput: seq<seq<SvInput>>, mrawPipes: seq<u32>)
  {
    /** Array lengths of the wire structure. */
    predicate Shape() {
      && |maps| == 6 && |mrawPipes| == 4 && |svInput| == 2
      && forall slot | 0 <= slot < 2 :: |svInput[slot]| == 8
    }
  }

  const IDLE_INPUT := SvInput(0, 0, 0, 0, 0, 0, 0, 0, 0, 0, 0, 0, 0, 0, 0)

  const IDLE_INPUTS := [IDLE_INPUT, IDLE_INPUT, IDLE_INPUT, IDLE_INPUT, IDLE_INPUT, IDLE_INPUT, IDLE_INPUT, IDLE_INPUT]

  /** The configuration whose bytes are all zero. */
  const ZERO_CONFIG := ConfigParam(0, 0, 0, 0, 0, 0, 0, 0, [0, 0, 0, 0, 0, 0],
    [IDLE_INPUTS, IDLE_INPUTS], [0, 0, 0, 0])

  type Config = c: ConfigParam | c.Shape() witness ZERO_CONFIG

  // ---------------------------------------------------------------- inputs

  predicate OwnedBanks(r: Resources, svId: u32) {
    && r.svId == svId && r.centralSize == 0x1000 && r.dmaSize == 0x1000
    && REG_BASE <= r.central <= REG_BASE + REG_SIZE - 0x11000 && r.central % 0x1000 == 0
    && r.dma == r.central + 0x10000
  }

  predicate LinearFirstFrame(job: Job, config: Config) {
    && config.flags == 0 && config.subsample == 0 && config.swFeature == 0
    && config.expOrder == 0 && config.frameOrder == 0 && config.vsyncOrder == 0 && config.cacSize == 0
    && job.rawLayout.pixelModeShift == 0 && job.pdafLayout.pixelModeShift == 0
  }

  function PlaneLayout(job: Job, tag: u32): Layout {
    if tag == job.rawTag then job.rawLayout else job.pdafLayout
  }

  function PlaneBuffer(job: Job, tag: u32): Buffer {
    if tag == job.rawTag then job.raw else job.pdaf
  }

  predicate Active(job: Job, tag: u32) {
    tag == job.rawTag || tag == job.pdafTag
  }

  /** One cell of the CAMSV input table. */
  predicate InputMatches(job: Job, slot: nat, tag: u32, input: SvInput) {
    if slot == 0 && Active(job, tag) then
      var layout := PlaneLayout(job, tag);
      && input.pipeId == job.svId + CAMSV_START && input.tagId == tag && input.tagOrder == 3
      && input.isFirstFrame == 1 && input.isTwoSmiOut == 0 && input.isLastOrderMetaOff == 0
      && input.subsample == 0 && input.dataPattern == 0 && input.rawPixelId == 0
      && input.fmt == layout.format && input.pixelMode == layout.pixelModeShift
      && input.cropX == 0 && input.cropY == 0 && input.cropW == layout.width && input.cropH == layout.height
    else !(CAMSV_START <= input.pipeId < CAMSV_END)
  }

  function InputsCode(job: Job, config: Config, r: Resources): int {
    if job.svId > 1 || job.rawTag > 3 || job.pdafTag > 3 || job.rawTag == job.pdafTag then EINVAL
    else if !OwnedBanks(r, job.svId) then ERANGE
    else if !LinearFirstFrame(job, config) then EOPNOTSUPP
    else if config.nMaps > 6 then EINVAL
    else if exists slot | 0 <= slot < config.nMaps :: config.maps[slot] != job.svId + CAMSV_START then EOPNOTSUPP
    else if !Geometry(job) || !PlanesFit(job) then ERANGE
    else if Group(job, 0) != Mask(job) || Group(job, 1) != 0 || Group(job, 2) != 0 || Group(job, 3) != 0 then EOPNOTSUPP
    else if exists slot, tag | 0 <= slot < 2 && 0 <= tag < 8 ::
              !InputMatches(job, slot, tag, config.svInput[slot][tag]) then EOPNOTSUPP
    else if exists slot | 0 <= slot < 4 :: MRAW_START <= config.mrawPipes[slot] < MRAW_END then EOPNOTSUPP
    else 0
  }

  /** The scans of the source, in its order; the first hit decides. */
  method CheckInputs(job: Job, config: Config, r: Resources) returns (ret: int)
    ensures ret == InputsCode(job, config, r)
  {
    if job.svId > 1 || job.rawTag > 3 || job.pdafTag > 3 || job.rawTag == job.pdafTag {
      return EINVAL;
    }
    if !OwnedBanks(r, job.svId) {
      return ERANGE;
    }
    if !LinearFirstFrame(job, config) {
      return EOPNOTSUPP;
    }
    if config.nMaps > 6 {
      return EINVAL;
    }
    for slot := 0 to config.nMaps
      invariant forall s | 0 <= s < slot :: config.maps[s] == job.svId + CAMSV_START
    {
      if config.maps[slot] != job.svId + CAMSV_START {
        return EOPNOTSUPP;
      }
    }
    if !Geometry(job) || !PlanesFit(job) {
      return ERANGE;
    }
    if Group(job, 0) != Mask(job) || Group(job, 1) != 0 || Group(job, 2) != 0 || Group(job, 3) != 0 {
      return EOPNOTSUPP;
    }
    for slot := 0 to 2
      invariant forall s, t | 0 <= s < slot && 0 <= t < 8 :: InputMatches(job, s, t, config.svInput[s][t])
    {
      for tag := 0 to 8
        invariant forall t | 0 <= t < tag :: InputMatches(job, slot, t, config.svInput[slot][t])
      {
        if !InputMatches(job, slot, tag, config.svInput[slot][tag]) {
          return EOPNOTSUPP;
        }
      }
    }
    for slot := 0 to 4
      invariant forall s | 0 <= s < slot :: !(MRAW_START <= config.mrawPipes[s] < MRAW_END)
    {
      if MRAW_START <= config.mrawPipes[slot] < MRAW_END {
        return EOPNOTSUPP;
      }
    }
    return 0;
  }

  // ---------------------------------------------------------------- what the inputs mean

  /** An input of CAMSV `svId` that carries exactly this plane, as the first frame. */
  predicate Describes(input: SvInput, svId: u32, tag: u32, l: Layout) {
    && input.pipeId == 3 + svId && input.tagId == tag
    && input == SvInput(input.pipeId, input.tagId, 3, 1, 0, 0, l.format, 0, 0, 0, 0, 0, 0, l.width, l.height)
  }

  /** The jobs and configurations that the recipe is written for, in plain terms. */
  ghost predicate Supported(job: Job, config: Config, r: Resources) {
    && job.svId <= 1 && job.rawTag <= 3 && job.pdafTag <= 3 && job.rawTag != job.pdafTag
    && r.svId == job.svId && r.centralSize == 0x1000 && r.dmaSize == 0x1000 && r.dma == r.central + 0x1_0000
    && 0x1a00_0000 <= r.central <= 0x1a1e_f000 && r.central % 0x1000 == 0
    && config.flags == 0 && config.subsample == 0 && config.swFeature == 0 && config.cacSize == 0
    && config.expOrder == 0 && config.frameOrder == 0 && config.vsyncOrder == 0
    && config.nMaps <= 6 && (forall i | 0 <= i < config.nMaps :: config.maps[i] == 3 + job.svId)
    && ((job.width == 4000 && job.height == 3000) || (job.width == 4096 && job.height == 2304))
    && job.rawLayout.width == job.width && job.rawLayout.height == job.height && job.rawLayout.format != 0
    && job.rawLayout.pixelModeShift == 0 && job.pdafLayout.pixelModeShift == 0
    && LayoutFits(job.rawLayout, job.raw.size) && LayoutFits(job.pdafLayout, job.pdaf.size)
    && MappedBuffer(job.raw) && MappedBuffer(job.pdaf) && Separate(job.raw, job.pdaf)
    && Group(job, 0) == Join((1 as bv32) << job.rawTag, (1 as bv32) << job.pdafTag)
    && Group(job, 1) == 0 && Group(job, 2) == 0 && Group(job, 3) == 0
    && Describes(config.svInput[0][job.rawTag], job.svId, job.rawTag, job.rawLayout)
    && Describes(config.svInput[0][job.pdafTag], job.svId, job.pdafTag, job.pdafLayout)
    && (forall slot, tag | 0 <= slot < 2 && 0 <= tag < 8 && !(slot == 0 && (tag == job.rawTag || tag == job.pdafTag)) ::
          !(3 <= config.svInput[slot][tag].pipeId < 19))
    && forall slot | 0 <= slot < 4 :: !(19 <= config.mrawPipes[slot] < 23)
  }

  lemma CellMatches(job: Job, slot: nat, tag: u32, input: SvInput)
    requires job.rawTag != job.pdafTag && job.rawLayout.pixelModeShift == 0 && job.pdafLayout.pixelModeShift == 0
    ensures InputMatches(job, slot, tag, input) <==>
            if slot == 0 && tag == job.rawTag then Describes(input, job.svId, tag, job.rawLayout)
            else if slot == 0 && tag == job.pdafTag then Describes(input, job.svId, tag, job.pdafLayout)
            else !(3 <= input.pipeId < 19)
  {}

  lemma CellsMatch(job: Job, config: Config)
    requires job.rawTag <= 3 && job.pdafTag <= 3 && job.rawTag != job.pdafTag
    requires job.rawLayout.pixelModeShift == 0 && job.pdafLayout.pixelModeShift == 0
    ensures (forall slot, tag | 0 <= slot < 2 && 0 <= tag < 8 :: InputMatches(job, slot, tag, config.svInput[slot][tag])) <==>
            && Describes(config.svInput[0][job.rawTag], job.svId, job.rawTag, job.rawLayout)
            && Describes(config.svInput[0][job.pdafTag], job.svId, job.pdafTag, job.pdafLayout)
            && forall slot, tag | 0 <= slot < 2 && 0 <= tag < 8 && !(slot == 0 && (tag == job.rawTag || tag == job.pdafTag)) ::
                 !(3 <= config.svInput[slot][tag].pipeId < 19)
  {
    hide InputMatches, Describes;
    forall slot, tag | 0 <= slot < 2 && 0 <= tag < 8
      ensures InputMatches(job, slot, tag, config.svInput[slot][tag]) <==>
              if slot == 0 && tag == job.rawTag then Describes(config.svInput[slot][tag], job.svId, tag, job.rawLayout)
              else if slot == 0 && tag == job.pdafTag then Describes(config.svInput[slot][tag], job.svId, tag, job.pdafLayout)
              else !(3 <= config.svInput[slot][tag].pipeId < 19)
    {
      CellMatches(job, slot, tag, config.svInput[slot][tag]);
    }
    if forall slot, tag | 0 <= slot < 2 && 0 <= tag < 8 :: InputMatches(job, slot, tag, config.svInput[slot][tag]) {
      assert InputMatches(job, 0, job.rawTag, config.svInput[0][job.rawTag]);
      assert InputMatches(job, 0, job.pdafTag, config.svInput[0][job.pdafTag]);
    }
  }

  /** The scans accept exactly the supported inputs. */
  lemma InputsExact(job: Job, config: Config, r: Resources)
    ensures InputsCode(job, config, r) == 0 <==> Supported(job, config, r)
  {
    hide InputMatches, Describes, LayoutFits, PlanesFit, MappedBuffer, Separate, Group, Mask, Join;
    PlanesExact(job);
    MaskIs(job);
    if job.rawTag <= 3 && job.pdafTag <= 3 && job.rawTag != job.pdafTag {
      TagBitIs(job.rawTag);
      TagBitIs(job.pdafTag);
      if job.rawLayout.pixelModeShift == 0 && job.pdafLayout.pixelModeShift == 0 {
        CellsMatch(job, config);
      }
    }
  }

  // ---------------------------------------------------------------- the writes

  /** Tags 0..3, distinct, and banks inside the command aperture. */
  predicate Composable(job: Job, r: Resources) {
    && job.rawTag <= 3 && job.pdafTag <= 3 && job.rawTag != job.pdafTag && OwnedBanks(r, job.svId)
  }

  function HardwareFormat(layout: Layout): u32 {
    if layout.format == FMT_BAYER10_MIPI then 8 else layout.format
  }

  function StrideWord(layout: Layout): u32 {
    Or(layout.bytesperline % 0x1_0000 * 0x1_0000, 0x10) % 0x1_0000_0000
  }

  datatype Bank = Central | Dma

  /** A write to a register bank, before the bank's address and the tag's shift are known. */
  datatype Cell = Cell(bank: Bank, offset: nat, value: u32)

  function BankBase(r: Resources, bank: Bank): u32 {
    if bank == Central then r.central else r.dma
  }

  function Place(cells: seq<Cell>, r: Resources, shift: nat): (writes: seq<RegWrite>)
    ensures |writes| == |cells|
  {
    seq(|cells|, i requires 0 <= i < |cells| =>
      RegWrite((BankBase(r, cells[i].bank) + cells[i].offset + shift) % 0x1_0000_0000, cells[i].value))
  }

  /** The sixteen writes of one plane, in order; format and stride are sent twice, FBC0 is opened last. */
  function PlaneCells(layout: Layout, dma: u64): seq<Cell> {
    [ Cell(Central, 0x548, layout.width % 0x1_0000 * 0x1_0000),
      Cell(Central, 0x54c, layout.height % 0x1_0000 * 0x1_0000),
      Cell(Central, 0x554, HardwareFormat(layout)),
      Cell(Central, 0x55c, 1),
      Cell(Central, 0x540, 0x8000),
      Cell(Dma, 0x210, StrideWord(layout)),
      Cell(Dma, 0xa10, 0x10),
      Cell(Central, 0x554, HardwareFormat(layout)),
      Cell(Dma, 0x210, StrideWord(layout)),
      Cell(Dma, 0x200, dma % 0x1_0000_0000),
      Cell(Dma, 0x204, dma / 0x1_0000_0000),
      Cell(Dma, 0x218, 0),
      Cell(Dma, 0x21c, 0),
      Cell(Dma, 0x220, 0),
      Cell(Dma, 0x224, 0),
      Cell(Central, 0x540, 0x8080) ]
  }

  function TagWrites(job: Job, r: Resources, tag: u32): seq<RegWrite> {
    Place(PlaneCells(PlaneLayout(job, tag), PlaneBuffer(job, tag).dma), r, 0x40 * tag)
  }

  /** `0x700 << (3 * tag)` and `4 << (4 * tag)` for image tags. */
  function ErrorBits(tag: u32): bv32 {
    if tag == 0 then 0x700 else if tag == 1 then 0x3800 else if tag == 2 then 0x1c000 else 0xe0000
  }

  function SofBits(tag: u32): bv32 {
    if tag == 0 then 4 else if tag == 1 then 0x40 else if tag == 2 then 0x400 else 0x4000
  }

  /** The masks that the tag loop accumulates. */
  datatype Enables = Enables(img: bv32, errors: bv32, sof: bv32)
  {
    function With(tag: u32): Enables {
      Enables(img | TagBit(tag), errors | ErrorBits(tag), sof | SofBits(tag))
    }
  }

  function LowTag(job: Job): u32 {
    if job.rawTag < job.pdafTag then job.rawTag else job.pdafTag
  }

  function HighTag(job: Job): u32 {
    if job.rawTag < job.pdafTag then job.pdafTag else job.rawTag
  }

  const NO_ENABLES := Enables(0, 1, 0)

  /** The engine-wide register values that depend on the job. */
  datatype EngineValues = EngineValues(mask: u32, img: u32, imgPair: u32, errors: u32, sof: u32, first: u32)

  function EngineValuesOf(mask: bv32, e: Enables): EngineValues {
    EngineValues(mask as int, e.img as int, (e.img | (e.img << 8)) as int, e.errors as int, e.sof as int,
                 (mask & (!mask + 1)) as int)
  }

  /** The nineteen engine-wide writes. */
  function EngineCells(v: EngineValues): seq<Cell> {
    [ Cell(Central, 0x140, 1), Cell(Central, 0x18c, 3), Cell(Central, 0x170, 0x20), Cell(Central, 0x144, 0),
      Cell(Central, 0x40, v.mask), Cell(Central, 0x44, v.img), Cell(Dma, 0xf30, v.imgPair),
      Cell(Central, 0x344, 0xf0000), Cell(Central, 0x34c, v.errors), Cell(Central, 0x35c, v.sof),
      Cell(Central, 0x36c, 0x11111111), Cell(Central, 0x1d4, 0), Cell(Central, 0x1d8, 0),
      Cell(Central, 0x1b8, v.mask), Cell(Central, 0x1bc, 0), Cell(Central, 0x1c0, 0), Cell(Central, 0x1c4, 0),
      Cell(Central, 0x1c8, v.first), Cell(Central, 0x1cc, v.first) ]
  }

  function EngineWrites(r: Resources, v: EngineValues): seq<RegWrite> {
    Place(EngineCells(v), r, 0)
  }

  function JobEngineValues(job: Job): EngineValues {
    EngineValuesOf(Mask(job), NO_ENABLES.With(LowTag(job)).With(HighTag(job)))
  }

  function RecipeWrites(job: Job, r: Resources): seq<RegWrite>
    requires Composable(job, r)
  {
    TagWrites(job, r, LowTag(job)) + TagWrites(job, r, HighTag(job))
      + EngineWrites(r, JobEngineValues(job))
      + CookieWrites(r.central, job.sequence, 8)
  }

  /** Fills the write list in the source's order: ascending tags, engine, cookies. */
  method CollectWrites(job: Job, r: Resources) returns (writes: seq<RegWrite>)
    requires Composable(job, r)
    ensures writes == RecipeWrites(job, r) && |writes| == RECIPE_WRITES
  {
    hide TagWrites, EngineWrites, EngineValuesOf, TagBit, ErrorBits, SofBits, Mask;
    var enables := NO_ENABLES;
    writes := [];
    for tag := 0 to 8
      invariant writes == (if tag <= LowTag(job) then [] else TagWrites(job, r, LowTag(job)))
                        + (if tag <= HighTag(job) then [] else TagWrites(job, r, HighTag(job)))
      invariant enables == (if tag <= LowTag(job) then NO_ENABLES
                            else if tag <= HighTag(job) then NO_ENABLES.With(LowTag(job))
                            else NO_ENABLES.With(LowTag(job)).With(HighTag(job)))
    {
      if Active(job, tag) {
        writes := writes + TagWrites(job, r, tag);
        enables := enables.With(tag);
      }
    }
    var values := EngineValuesOf(Mask(job), enables);
    writes := writes + EngineWrites(r, values);
    for tag := 0 to 8
      invariant writes == TagWrites(job, r, LowTag(job)) + TagWrites(job, r, HighTag(job))
                        + EngineWrites(r, values) + CookieWrites(r.central, job.sequence, tag)
    {
      writes := writes + [RegWrite(r.central + 0x57c + 0x40 * tag, job.sequence)];
    }
    PartLengths(job, r, values);
  }

  lemma PartLengths(job: Job, r: Resources, v: EngineValues)
    requires Composable(job, r)
    ensures forall tag: u32 | tag <= 3 :: |TagWrites(job, r, tag)| == 16
    ensures |EngineWrites(r, v)| == 19
  {}

  // ---------------------------------------------------------------- composing

  predicate Targets(writes: seq<RegWrite>, base: u32, size: u32) {
    forall i | 0 <= i < |writes| :: base <= writes[i].address < base + size
  }

  ghost predicate Aligned(writes: seq<RegWrite>) {
    forall i | 0 <= i < |writes| :: writes[i].address % 4 == 0
  }

  /** Where plane and engine cells live: disjoint 0x40 windows per tag, engine registers below them. */
  predicate PlaneCell(c: Cell) {
    c.offset % 4 == 0 && if c.bank == Central then 0x540 <= c.offset < 0x57c
                         else 0x200 <= c.offset < 0x240 || 0xa00 <= c.offset < 0xa40
  }

  predicate EngineCell(c: Cell) {
    c.offset % 4 == 0 && if c.bank == Central then c.offset < 0x540 else c.offset == 0xf30
  }

  lemma CellsInPlace(layout: Layout, dma: u64, v: EngineValues)
    ensures |PlaneCells(layout, dma)| == 16 && |EngineCells(v)| == 19
    ensures forall i | 0 <= i < 16 :: PlaneCell(PlaneCells(layout, dma)[i])
    ensures forall i | 0 <= i < 19 :: EngineCell(EngineCells(v)[i])
  {
    hide StrideWord, HardwareFormat;
  }

  lemma AlignedPlace(cells: seq<Cell>, r: Resources, shift: nat)
    requires OwnedBanks(r, r.svId) && shift <= 0x400 && shift % 4 == 0
    requires forall i | 0 <= i < |cells| :: cells[i].offset % 4 == 0 && cells[i].offset < 0x1000
    ensures Aligned(Place(cells, r, shift))
  {
    forall i | 0 <= i < |cells| ensures Place(cells, r, shift)[i].address % 4 == 0 {
      AlignedSum(r.central / 0x1000, BankBase(r, cells[i].bank), cells[i].offset, shift);
    }
  }

  lemma AlignedSum(page: nat, base: u32, offset: nat, shift: nat)
    requires (base == 0x1000 * page || base == 0x1000 * page + 0x10000) && offset % 4 == 0 && shift % 4 == 0
    requires base + offset + shift < 0x1_0000_0000
    ensures (base + offset + shift) % 0x1_0000_0000 % 4 == 0
  {}

  lemma RecipeAligned(job: Job, r: Resources)
    requires Composable(job, r)
    ensures Aligned(RecipeWrites(job, r))
  {
    hide TagWrites, EngineWrites, JobEngineValues, CookieWrites;
    AlignedTag(job, r, LowTag(job));
    AlignedTag(job, r, HighTag(job));
    AlignedEngine(r, JobEngineValues(job));
    AlignedCookies(r, job.sequence);
  }

  lemma AlignedCookies(r: Resources, cookie: u32)
    requires OwnedBanks(r, r.svId)
    ensures Aligned(CookieWrites(r.central, cookie, 8))
  {}

  lemma AlignedTag(job: Job, r: Resources, tag: u32)
    requires Composable(job, r) && tag <= 3
    ensures Aligned(TagWrites(job, r, tag))
  {
    hide Place, PlaneCells;
    var layout, dma := PlaneLayout(job, tag), PlaneBuffer(job, tag).dma;
    CellsInPlace(layout, dma, JobEngineValues(job));
    AlignedPlace(PlaneCells(layout, dma), r, 0x40 * tag);
  }

  lemma AlignedEngine(r: Resources, v: EngineValues)
    requires OwnedBanks(r, r.svId)
    ensures Aligned(EngineWrites(r, v))
  {
    hide Place, PlaneCells, EngineCells;
    CellsInPlace(Layout(0, 0, 0, 0, 0, 0), 0, v);
    AlignedPlace(EngineCells(v), r, 0);
  }

  /** The part of the work buffer and the register range that a queue is given. */
  datatype Slice = Slice(iova: u64, capacity: u32, regBase: u32, regSize: u32)

  function SliceOf(q: Queue): Slice {
    Slice(q.iova, q.capacity, q.regBase, q.regSize)
  }

  /** The checks between the queue's own state and the first published byte. */
  function PreflightCode(q: Slice, job: Job, config: Config, r: Resources, session: u32): int {
    if InputsCode(job, config, r) != 0 then InputsCode(job, config, r)
    else if session > 3 || job.sequence / 0x100_0000 != session then ESTALE
    else if Overlap(Buffer(q.iova, q.capacity, 1), job.raw) || Overlap(Buffer(q.iova, q.capacity, 1), job.pdaf) then ERANGE
    else if q.capacity < 16 * RECIPE_WRITES + 12 then ENOSPC
    else if !Targets(RecipeWrites(job, r), q.regBase, q.regSize) then ERANGE
    else 0
  }

  function RecipeCode(q: Queue, job: Job, config: Config, r: Resources, session: u32): int
    reads q
  {
    if q.firstError != 0 then q.firstError
    else if q.head != 0 || q.tail != q.capacity || q.finished then EALREADY
    else PreflightCode(SliceOf(q), job, config, r, session)
  }

  method Preflight(q: Slice, job: Job, config: Config, r: Resources, session: u32)
    returns (ret: int, writes: seq<RegWrite>)
    ensures ret == PreflightCode(q, job, config, r, session) && ret <= 0
    ensures ret == 0 ==> Composable(job, r) && writes == RecipeWrites(job, r) && |writes| == RECIPE_WRITES
  {
    hide RecipeWrites, PlanesFit, Overlap, LinearFirstFrame, InputMatches, Geometry, Mask;
    writes := [];
    ret := CheckInputs(job, config, r);
    if ret != 0 {
      return;
    }
    if session > 3 || job.sequence / 0x100_0000 != session {
      ret := ESTALE;
      return;
    }
    if Overlap(Buffer(q.iova, q.capacity, 1), job.raw) || Overlap(Buffer(q.iova, q.capacity, 1), job.pdaf) {
      ret := ERANGE;
      return;
    }
    writes := CollectWrites(job, r);
    if |writes| != RECIPE_WRITES || q.capacity < 16 * |writes| + 12 {
      ret := ENOSPC;
      return;
    }
    var inside := CheckTargets(writes, q.regBase, q.regSize);
    ret := if inside then 0 else ERANGE;
  }

  method CheckTargets(writes: seq<RegWrite>, base: u32, size: u32) returns (inside: bool)
    ensures inside == Targets(writes, base, size)
  {
    for i := 0 to |writes|
      invariant Targets(writes[..i], base, size)
    {
      if writes[i].address < base || writes[i].address - base >= size {
        return false;
      }
    }
    assert writes[..|writes|] == writes;
    return true;
  }

  /** Publishes all 59 writes and END, or nothing. */
  method Compose(q: Queue, job: Job, config: Config, r: Resources, session: u32)
    returns (ret: int, length: u32, valuesStart: u32)
    requires q.Valid()
    modifies q, q.buffer
    ensures q.Valid() && q.Outside() == old(q.Outside())
    ensures ret == old(RecipeCode(q, job, config, r, session)) && ret <= 0
    ensures ret != 0 ==> q.Untouched()
    ensures ret == 0 ==> Composable(job, r) && q.finished && length == 720 && valuesStart == q.capacity - 236
                         && Decode(q.Bytes(), q.iova, 0, 720) == Some(RecipeWrites(job, r))
  {
    hide PreflightCode, RecipeWrites, Prefix, DataDescriptors, Decode, Word;
    length, valuesStart := 0, 0;
    if q.firstError != 0 {
      ret := q.firstError;
      return;
    }
    if q.head != 0 || q.tail != q.capacity || q.finished {
      ret := EALREADY;
      return;
    }
    var writes;
    ret, writes := Preflight(SliceOf(q), job, config, r, session);
    if ret != 0 {
      ret := q.Fail(ret);
      return;
    }
    RecipeAligned(job, r);
    PreflightTargets(SliceOf(q), job, config, r, session);
    PublishWrites(q, writes);
    ret, length, valuesStart := q.Finish();
  }

  lemma PreflightTargets(q: Slice, job: Job, config: Config, r: Resources, session: u32)
    requires PreflightCode(q, job, config, r, session) == 0
    ensures Composable(job, r) && q.capacity >= 956 && Targets(RecipeWrites(job, r), q.regBase, q.regSize)
  {}

  /** Preflighted one-word appends cannot fail. */
  method PublishWrites(q: Queue, writes: seq<RegWrite>)
    requires q.Valid() && q.Fresh() && 0 < |writes| <= RECIPE_WRITES
    requires q.capacity >= 16 * |writes| + 12
    requires Targets(writes, q.regBase, q.regSize) && Aligned(writes)
    modifies q, q.buffer
    ensures q.Valid() && q.Outside() == old(q.Outside()) && !q.finished && q.firstError == 0
    ensures q.head == 12 * |writes| && q.tail == q.capacity - 4 * |writes| && q.Writes() == writes
  {
    hide Queue.Valid, Queue.Writes, Queue.Bytes, Queue.Outside, Run, Descriptors, Queue.AppendCode;
    q.FreshIsEmpty();
    assert writes[..0] == [];
    for i := 0 to |writes|
      invariant q.Valid() && q.Outside() == old(q.Outside()) && !q.finished && q.firstError == 0
      invariant q.head == 12 * i && q.tail == q.capacity - 4 * i && q.Writes() == writes[..i]
    {
      q.OneWordFits(writes[i].address);
      var ret := q.Values(writes[i].address, [writes[i].value], Automatic);
      RunOne(writes[i].address, writes[i].value);
      assert writes[..i + 1] == writes[..i] + [writes[i]];
    }
    assert writes[..|writes|] == writes;
  }
}

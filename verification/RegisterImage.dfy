/** What executing a finished recipe leaves in the register file. */
module RegisterImage {
  import opened Words
  import opened Capture
  import opened CommandQueue
  import opened Recipe

  type Registers = map<u32, u32>

  /** The hardware performs the writes in order. */
  function Execute(writes: seq<RegWrite>, regs: Registers): Registers {
    if writes == [] then regs
    else
      var last := writes[|writes| - 1];
      Execute(writes[..|writes| - 1], regs)[last.address := last.value]
  }

  ghost predicate Absent(writes: seq<RegWrite>, a: u32) {
    forall i | 0 <= i < |writes| :: writes[i].address != a
  }

  /** Write `i` is the last one to its register. */
  ghost predicate LastTo(writes: seq<RegWrite>, i: int) {
    0 <= i < |writes| && forall j | i < j < |writes| :: writes[j].address != writes[i].address
  }

  lemma {:induction false} ExecuteAppend(x: seq<RegWrite>, y: seq<RegWrite>, regs: Registers)
    ensures Execute(x + y, regs) == Execute(y, Execute(x, regs))
  {
    if y == [] {
      assert x + y == x;
    } else {
      assert (x + y)[..|x + y| - 1] == x + y[..|y| - 1];
      ExecuteAppend(x, y[..|y| - 1], regs);
    }
  }

  lemma {:induction false} AbsentUntouched(writes: seq<RegWrite>, a: u32, regs: Registers)
    requires Absent(writes, a)
    ensures a in Execute(writes, regs) <==> a in regs
    ensures a in regs ==> Execute(writes, regs)[a] == regs[a]
  {
    if writes != [] {
      AbsentUntouched(writes[..|writes| - 1], a, regs);
    }
  }

  lemma {:induction false} LastWins(writes: seq<RegWrite>, i: int, regs: Registers)
    requires LastTo(writes, i)
    ensures writes[i].address in Execute(writes, regs)
    ensures Execute(writes, regs)[writes[i].address] == writes[i].value
  {
    if i < |writes| - 1 {
      LastWins(writes[..|writes| - 1], i, regs);
    }
  }

  // ---------------------------------------------------------------- register windows

  /** The registers of one tag: a 0x40 window in the central bank and two in the DMA bank. */
  predicate TagWindow(r: Resources, tag: u32, a: u32) {
    var shift := 0x40 * tag;
    || r.central + 0x540 + shift <= a < r.central + 0x57c + shift
    || r.dma + 0x200 + shift <= a < r.dma + 0x240 + shift
    || r.dma + 0xa00 + shift <= a < r.dma + 0xa40 + shift
  }

  predicate EngineArea(r: Resources, a: u32) {
    r.central <= a < r.central + 0x540 || a == r.dma + 0xf30
  }

  predicate CookieRegister(r: Resources, a: u32) {
    exists t | 0 <= t < 8 :: a == r.central + 0x57c + 0x40 * t
  }

  lemma PlaceAt(cells: seq<Cell>, r: Resources, shift: nat, i: nat)
    requires OwnedBanks(r, r.svId) && shift <= 0x400 && i < |cells| && cells[i].offset < 0x1000
    ensures Place(cells, r, shift)[i].address == BankBase(r, cells[i].bank) + cells[i].offset + shift
    ensures Place(cells, r, shift)[i].value == cells[i].value
  {}

  lemma TagInWindow(job: Job, r: Resources, tag: u32)
    requires Composable(job, r) && tag <= 3
    ensures |TagWrites(job, r, tag)| == 16
    ensures forall i | 0 <= i < 16 :: TagWindow(r, tag, TagWrites(job, r, tag)[i].address)
  {
    hide PlaneCells, Place;
    var layout, dma := PlaneLayout(job, tag), PlaneBuffer(job, tag).dma;
    CellsInPlace(layout, dma, JobEngineValues(job));
    forall i | 0 <= i < 16 ensures TagWindow(r, tag, TagWrites(job, r, tag)[i].address) {
      assert PlaneCell(PlaneCells(layout, dma)[i]);
      PlaceAt(PlaneCells(layout, dma), r, 0x40 * tag, i);
    }
  }

  lemma EngineInArea(r: Resources, v: EngineValues)
    requires OwnedBanks(r, r.svId)
    ensures |EngineWrites(r, v)| == 19
    ensures forall i | 0 <= i < 19 :: EngineArea(r, EngineWrites(r, v)[i].address)
  {
    hide EngineCells, Place, PlaneCells;
    CellsInPlace(Layout(0, 0, 0, 0, 0, 0), 0, v);
    forall i | 0 <= i < 19 ensures EngineArea(r, EngineWrites(r, v)[i].address) {
      assert EngineCell(EngineCells(v)[i]);
      PlaceAt(EngineCells(v), r, 0, i);
    }
  }

  /** A recipe stays inside the 0x11000 bytes of its own banks. */
  lemma RecipeTargets(job: Job, r: Resources)
    requires Composable(job, r)
    ensures Targets(RecipeWrites(job, r), r.central, 0x11000)
  {
    hide TagWrites, EngineWrites, JobEngineValues;
    TagInWindow(job, r, LowTag(job));
    TagInWindow(job, r, HighTag(job));
    EngineInArea(r, JobEngineValues(job));
  }

  // ---------------------------------------------------------------- one plane

  /** A register holds a value. */
  predicate Holds(m: Registers, a: int, value: int) {
    a in m && m[a] == value
  }

  /** The plane's crop and format registers describe that plane, and FBC0 is open. */
  predicate InputRegisters(m: Registers, r: Resources, tag: u32, layout: Layout) {
    var c := r.central + 0x40 * tag;
    && Holds(m, c + 0x548, 0x1_0000 * layout.width) && Holds(m, c + 0x54c, 0x1_0000 * layout.height)
    && Holds(m, c + 0x554, if layout.format == 80 then 8 else layout.format) && Holds(m, c + 0x55c, 1) && Holds(m, c + 0x540, 0x8080)
  }

  /** The plane's stride and address registers describe that plane's buffer; the second port is off. */
  predicate OutputRegisters(m: Registers, r: Resources, tag: u32, layout: Layout, dma: u64) {
    var d := r.dma + 0x40 * tag;
    && Holds(m, d + 0x210, 0x1_0000 * layout.bytesperline + 0x10) && Holds(m, d + 0xa10, 0x10)
    && Holds(m, d + 0x200, dma % 0x1_0000_0000) && Holds(m, d + 0x204, dma / 0x1_0000_0000)
    && Holds(m, d + 0x218, 0) && Holds(m, d + 0x21c, 0) && Holds(m, d + 0x220, 0) && Holds(m, d + 0x224, 0)
  }

  /** All thirteen registers of a tag describe this layout and this buffer address. */
  predicate PlaneRegisters(m: Registers, r: Resources, tag: u32, layout: Layout, dma: u64) {
    InputRegisters(m, r, tag, layout) && OutputRegisters(m, r, tag, layout, dma)
  }

  predicate TagHeld(m: Registers, r: Resources, tag: u32, job: Job) {
    && InputRegisters(m, r, tag, PlaneLayout(job, tag))
    && OutputRegisters(m, r, tag, PlaneLayout(job, tag), PlaneBuffer(job, tag).dma)
  }

  lemma StrideWordValue(layout: Layout)
    requires layout.bytesperline <= 65535
    ensures StrideWord(layout) == 0x1_0000 * layout.bytesperline + 0x10
  {
    hide Or, Shl;
    var x := layout.bytesperline;
    CommandShifts(x);
    CommandShifts(0);
    CommandShifts(1);
    OrZero(x);
    OrSplit(0x10, 0, x, 16);
  }

  /** Only the first format, FBC0 and stride cells are written again later. */
  lemma LastCells(layout: Layout, dma: u64)
    ensures forall i, j | 0 <= i < j < 16 && i != 2 && i != 4 && i != 5 ::
              var cells := PlaneCells(layout, dma);
              cells[i].bank != cells[j].bank || cells[i].offset != cells[j].offset
  {
    hide StrideWord, HardwareFormat;
  }

  lemma TagLast(job: Job, r: Resources, tag: u32, i: nat)
    requires Composable(job, r) && tag <= 3 && i < 16 && i != 2 && i != 4 && i != 5
    ensures LastTo(TagWrites(job, r, tag), i)
    ensures var c := PlaneCells(PlaneLayout(job, tag), PlaneBuffer(job, tag).dma)[i];
            TagWrites(job, r, tag)[i] == RegWrite(BankBase(r, c.bank) + c.offset + 0x40 * tag, c.value)
  {
    hide PlaneCells, Place;
    var layout, dma := PlaneLayout(job, tag), PlaneBuffer(job, tag).dma;
    CellsInPlace(layout, dma, JobEngineValues(job));
    LastCells(layout, dma);
    assert PlaneCell(PlaneCells(layout, dma)[i]);
    PlaceAt(PlaneCells(layout, dma), r, 0x40 * tag, i);
    forall j | i < j < 16 ensures TagWrites(job, r, tag)[j].address != TagWrites(job, r, tag)[i].address {
      assert PlaneCell(PlaneCells(layout, dma)[j]);
      PlaceAt(PlaneCells(layout, dma), r, 0x40 * tag, j);
    }
  }

  lemma TagHolds(job: Job, r: Resources, tag: u32, i: nat, c: Cell, regs: Registers)
    requires Composable(job, r) && tag <= 3 && i < 16 && i != 2 && i != 4 && i != 5
    requires c == PlaneCells(PlaneLayout(job, tag), PlaneBuffer(job, tag).dma)[i]
    ensures Holds(Execute(TagWrites(job, r, tag), regs), BankBase(r, c.bank) + c.offset + 0x40 * tag, c.value)
  {
    hide PlaneCells, TagWrites;
    TagLast(job, r, tag, i);
    LastWins(TagWrites(job, r, tag), i, regs);
  }

  lemma InputImage(job: Job, r: Resources, tag: u32, regs: Registers)
    requires Composable(job, r) && tag <= 3 && LayoutCode(PlaneLayout(job, tag), 0xffff_ffff) == 0
    ensures InputRegisters(Execute(TagWrites(job, r, tag), regs), r, tag, PlaneLayout(job, tag))
  {
    hide TagWrites, Execute, StrideWord, PlaneLayout, PlaneBuffer, LayoutCode, Holds;
    var layout := PlaneLayout(job, tag);
    LayoutExact(layout, 0xffff_ffff);
    TagHolds(job, r, tag, 0, Cell(Central, 0x548, layout.width % 0x1_0000 * 0x1_0000), regs);
    TagHolds(job, r, tag, 1, Cell(Central, 0x54c, layout.height % 0x1_0000 * 0x1_0000), regs);
    TagHolds(job, r, tag, 3, Cell(Central, 0x55c, 1), regs);
    TagHolds(job, r, tag, 7, Cell(Central, 0x554, HardwareFormat(layout)), regs);
    TagHolds(job, r, tag, 15, Cell(Central, 0x540, 0x8080), regs);
  }

  lemma OutputImage(job: Job, r: Resources, tag: u32, regs: Registers)
    requires Composable(job, r) && tag <= 3 && LayoutCode(PlaneLayout(job, tag), 0xffff_ffff) == 0
    ensures OutputRegisters(Execute(TagWrites(job, r, tag), regs), r, tag, PlaneLayout(job, tag), PlaneBuffer(job, tag).dma)
  {
    hide TagWrites, Execute, StrideWord, HardwareFormat, PlaneLayout, PlaneBuffer, LayoutCode, Holds;
    var layout, dma := PlaneLayout(job, tag), PlaneBuffer(job, tag).dma;
    LayoutExact(layout, 0xffff_ffff);
    StrideWordValue(layout);
    TagHolds(job, r, tag, 6, Cell(Dma, 0xa10, 0x10), regs);
    TagHolds(job, r, tag, 8, Cell(Dma, 0x210, StrideWord(layout)), regs);
    TagHolds(job, r, tag, 9, Cell(Dma, 0x200, dma % 0x1_0000_0000), regs);
    TagHolds(job, r, tag, 10, Cell(Dma, 0x204, dma / 0x1_0000_0000), regs);
    TagHolds(job, r, tag, 11, Cell(Dma, 0x218, 0), regs);
    TagHolds(job, r, tag, 12, Cell(Dma, 0x21c, 0), regs);
    TagHolds(job, r, tag, 13, Cell(Dma, 0x220, 0), regs);
    TagHolds(job, r, tag, 14, Cell(Dma, 0x224, 0), regs);
  }

  /** From the first FBC0 write on, a plane's FBC0 stays closed until all its other registers are written. */
  lemma ClosedWhileProgrammed(job: Job, r: Resources, tag: u32, k: nat, regs: Registers)
    requires Composable(job, r) && tag <= 3 && 5 <= k < 16
    ensures |TagWrites(job, r, tag)| == 16
    ensures Holds(Execute(TagWrites(job, r, tag)[..k], regs), r.central + 0x540 + 0x40 * tag, 0x8000)
  {
    hide Place, Execute;
    var layout, dma := PlaneLayout(job, tag), PlaneBuffer(job, tag).dma;
    var writes := TagWrites(job, r, tag)[..k];
    OneClosing(layout, dma);
    CellsInPlace(layout, dma, JobEngineValues(job));
    assert PlaneCell(PlaneCells(layout, dma)[4]);
    PlaceAt(PlaneCells(layout, dma), r, 0x40 * tag, 4);
    forall j | 4 < j < k ensures writes[j].address != writes[4].address {
      assert PlaneCell(PlaneCells(layout, dma)[j]);
      PlaceAt(PlaneCells(layout, dma), r, 0x40 * tag, j);
    }
    LastWins(writes, 4, regs);
  }

  lemma OneClosing(layout: Layout, dma: u64)
    ensures PlaneCells(layout, dma)[4] == Cell(Central, 0x540, 0x8000)
    ensures forall j | 4 < j < 15 :: PlaneCells(layout, dma)[j].bank != Central || PlaneCells(layout, dma)[j].offset != 0x540
  {
    hide StrideWord, HardwareFormat;
  }

  // ---------------------------------------------------------------- the whole recipe

  /** `m` and `n` agree on every register of the tag. */
  ghost predicate KeepsWindow(m: Registers, n: Registers, r: Resources, tag: u32) {
    forall a: u32 | TagWindow(r, tag, a) && a in m :: a in n && n[a] == m[a]
  }

  lemma PlaneKept(m: Registers, n: Registers, r: Resources, tag: u32, job: Job)
    requires OwnedBanks(r, r.svId) && tag <= 3
    requires TagHeld(m, r, tag, job) && KeepsWindow(m, n, r, tag)
    ensures TagHeld(n, r, tag, job)
  {
    hide PlaneLayout, PlaneBuffer;
  }

  lemma WritesKeepWindow(writes: seq<RegWrite>, r: Resources, tag: u32, regs: Registers)
    requires forall i | 0 <= i < |writes| :: !TagWindow(r, tag, writes[i].address)
    ensures KeepsWindow(regs, Execute(writes, regs), r, tag)
  {
    forall a: u32 | TagWindow(r, tag, a) && a in regs
      ensures a in Execute(writes, regs) && Execute(writes, regs)[a] == regs[a]
    {
      AbsentUntouched(writes, a, regs);
    }
  }

  /** Engine and cookie writes touch no register of an image tag. */
  lemma LaterWritesKeep(job: Job, r: Resources, tag: u32, regs: Registers)
    requires Composable(job, r) && tag <= 3
    ensures KeepsWindow(regs, Execute(EngineWrites(r, JobEngineValues(job)), regs), r, tag)
    ensures KeepsWindow(regs, Execute(CookieWrites(r.central, job.sequence, 8), regs), r, tag)
  {
    hide EngineWrites, JobEngineValues, Execute;
    EngineInArea(r, JobEngineValues(job));
    WritesKeepWindow(EngineWrites(r, JobEngineValues(job)), r, tag, regs);
    WritesKeepWindow(CookieWrites(r.central, job.sequence, 8), r, tag, regs);
  }

  function AfterTags(job: Job, r: Resources, regs: Registers): Registers
    requires Composable(job, r)
  {
    Execute(TagWrites(job, r, HighTag(job)), Execute(TagWrites(job, r, LowTag(job)), regs))
  }

  function AfterEngine(job: Job, r: Resources, regs: Registers): Registers
    requires Composable(job, r)
  {
    Execute(EngineWrites(r, JobEngineValues(job)), AfterTags(job, r, regs))
  }

  function AfterRecipe(job: Job, r: Resources, regs: Registers): Registers
    requires Composable(job, r)
  {
    Execute(RecipeWrites(job, r), regs)
  }

  lemma Stages(job: Job, r: Resources, regs: Registers)
    requires Composable(job, r)
    ensures AfterRecipe(job, r, regs) == Execute(CookieWrites(r.central, job.sequence, 8), AfterEngine(job, r, regs))
  {
    hide TagWrites, EngineWrites, CookieWrites, Execute, JobEngineValues;
    var t, u := TagWrites(job, r, LowTag(job)), TagWrites(job, r, HighTag(job));
    var e, c := EngineWrites(r, JobEngineValues(job)), CookieWrites(r.central, job.sequence, 8);
    ExecuteAppend(t, u, regs);
    ExecuteAppend(t + u, e, regs);
    ExecuteAppend(t + u + e, c, regs);
  }

  lemma PlaneAfterTags(job: Job, r: Resources, tag: u32, regs: Registers)
    requires Composable(job, r) && Active(job, tag) && LayoutCode(PlaneLayout(job, tag), 0xffff_ffff) == 0
    ensures TagHeld(AfterTags(job, r, regs), r, tag, job)
  {
    hide TagWrites, Execute, InputRegisters, OutputRegisters, PlaneLayout, PlaneBuffer, LayoutCode;
    var low, high := LowTag(job), HighTag(job);
    var first := Execute(TagWrites(job, r, low), regs);
    if tag == low {
      InputImage(job, r, tag, regs);
      OutputImage(job, r, tag, regs);
      TagInWindow(job, r, high);
      WindowsApart(r, tag, high);
      WritesKeepWindow(TagWrites(job, r, high), r, tag, first);
      PlaneKept(first, AfterTags(job, r, regs), r, tag, job);
    } else {
      InputImage(job, r, tag, first);
      OutputImage(job, r, tag, first);
    }
  }

  lemma WindowsApart(r: Resources, t: u32, u: u32)
    requires OwnedBanks(r, r.svId) && t <= 3 && u <= 3 && t != u
    ensures forall a: u32 | TagWindow(r, u, a) :: !TagWindow(r, t, a)
  {}

  /** A tag ends up described by its own registers. */
  lemma TagImage(job: Job, r: Resources, tag: u32, regs: Registers)
    requires Composable(job, r) && Active(job, tag) && LayoutCode(PlaneLayout(job, tag), 0xffff_ffff) == 0
    ensures TagHeld(AfterRecipe(job, r, regs), r, tag, job)
  {
    hide Execute, TagHeld, EngineWrites, CookieWrites, TagWrites, RecipeWrites, LayoutCode, PlaneLayout, KeepsWindow, AfterRecipe, AfterTags, JobEngineValues;
    PlaneAfterTags(job, r, tag, regs);
    var m1, m2 := AfterTags(job, r, regs), AfterEngine(job, r, regs);
    LaterWritesKeep(job, r, tag, m1);
    PlaneKept(m1, m2, r, tag, job);
    LaterWritesKeep(job, r, tag, m2);
    Stages(job, r, regs);
    PlaneKept(m2, AfterRecipe(job, r, regs), r, tag, job);
  }

  /** The RAW tag's registers hold the RAW layout and address, the PDAF tag's those of PDAF. */
  lemma RecipePlane(job: Job, r: Resources, regs: Registers)
    requires Composable(job, r) && LayoutCode(job.rawLayout, 0xffff_ffff) == 0 && LayoutCode(job.pdafLayout, 0xffff_ffff) == 0
    ensures PlaneRegisters(AfterRecipe(job, r, regs), r, job.rawTag, job.rawLayout, job.raw.dma)
    ensures PlaneRegisters(AfterRecipe(job, r, regs), r, job.pdafTag, job.pdafLayout, job.pdaf.dma)
  {
    hide AfterRecipe, InputRegisters, OutputRegisters, LayoutCode;
    TagImage(job, r, job.rawTag, regs);
    TagImage(job, r, job.pdafTag, regs);
  }

  lemma RecipeCookie(job: Job, r: Resources, t: nat, regs: Registers)
    requires Composable(job, r) && t < 8
    ensures Holds(AfterRecipe(job, r, regs), r.central + 0x57c + 0x40 * t, job.sequence)
  {
    hide AfterEngine, AfterRecipe, RecipeWrites, Execute;
    Stages(job, r, regs);
    LastWins(CookieWrites(r.central, job.sequence, 8), t, AfterEngine(job, r, regs));
  }

  lemma EngineDistinct(v: EngineValues)
    ensures forall i, j | 0 <= i < j < 19 ::
              EngineCells(v)[i].bank != EngineCells(v)[j].bank || EngineCells(v)[i].offset != EngineCells(v)[j].offset
  {}

  lemma EngineLast(r: Resources, v: EngineValues, i: nat)
    requires OwnedBanks(r, r.svId) && i < 19
    ensures LastTo(EngineWrites(r, v), i) && EngineArea(r, EngineWrites(r, v)[i].address)
  {
    hide EngineCells, PlaneCells, Place;
    CellsInPlace(Layout(0, 0, 0, 0, 0, 0), 0, v);
    EngineDistinct(v);
    assert EngineCell(EngineCells(v)[i]);
    PlaceAt(EngineCells(v), r, 0, i);
    forall j | i < j < 19 ensures EngineWrites(r, v)[j].address != EngineWrites(r, v)[i].address {
      assert EngineCell(EngineCells(v)[j]);
      PlaceAt(EngineCells(v), r, 0, j);
    }
  }

  /** Every engine-wide register keeps the value that the recipe gave it. */
  lemma RecipeEngine(job: Job, r: Resources, i: nat, regs: Registers)
    requires Composable(job, r) && i < 19
    ensures var w := EngineWrites(r, JobEngineValues(job))[i]; Holds(AfterRecipe(job, r, regs), w.address, w.value)
  {
    hide EngineWrites, AfterRecipe, RecipeWrites, Execute, JobEngineValues, AfterTags;
    var v := JobEngineValues(job);
    EngineLast(r, v, i);
    LastWins(EngineWrites(r, v), i, AfterTags(job, r, regs));
    AbsentUntouched(CookieWrites(r.central, job.sequence, 8), EngineWrites(r, v)[i].address, AfterEngine(job, r, regs));
    Stages(job, r, regs);
  }

  function Pow(base: nat, n: nat): nat {
    if n == 0 then 1 else base * Pow(base, n - 1)
  }

  lemma PowersUpToThree(base: nat)
    ensures Pow(base, 0) == 1 && Pow(base, 1) == base && Pow(base, 2) == base * base && Pow(base, 3) == base * base * base
  {}

  lemma MaskMeaning(job: Job)
    requires job.rawTag <= 3 && job.pdafTag <= 3 && job.rawTag != job.pdafTag
    ensures var v, lo, hi := JobEngineValues(job), LowTag(job), HighTag(job);
            v.mask == Pow(2, lo) + Pow(2, hi) && v.img == v.mask && v.imgPair == 0x101 * v.mask && v.first == Pow(2, lo)
  {
    hide Pow, ErrorBits, SofBits;
    PowersUpToThree(2);
  }

  lemma EnableMeaning(job: Job)
    requires job.rawTag <= 3 && job.pdafTag <= 3 && job.rawTag != job.pdafTag
    ensures var v, lo, hi := JobEngineValues(job), LowTag(job), HighTag(job);
            v.errors == 1 + 0x700 * (Pow(8, lo) + Pow(8, hi)) && v.sof == 4 * (Pow(16, lo) + Pow(16, hi))
  {
    hide Pow, TagBit, Mask;
    PowersUpToThree(8);
    PowersUpToThree(16);
  }

  /** The accumulated masks, as sums over the two tags: one bit, three error bits and one SOF bit each. */
  lemma EngineMeaning(job: Job)
    requires job.rawTag <= 3 && job.pdafTag <= 3 && job.rawTag != job.pdafTag
    ensures var v, lo, hi := JobEngineValues(job), LowTag(job), HighTag(job);
            && v.mask == Pow(2, lo) + Pow(2, hi) && v.img == v.mask && v.imgPair == 0x101 * v.mask
            && v.errors == 1 + 0x700 * (Pow(8, lo) + Pow(8, hi)) && v.sof == 4 * (Pow(16, lo) + Pow(16, hi))
            && v.first == Pow(2, lo)
  {
    hide Pow, JobEngineValues;
    MaskMeaning(job);
    EnableMeaning(job);
  }

  /** The engine-wide registers: both tags enabled everywhere, the lower one first. */
  ghost predicate EngineRegisters(m: Registers, r: Resources, lo: nat, hi: nat) {
    var c, mask := r.central, Pow(2, lo) + Pow(2, hi);
    && Holds(m, c + 0x140, 1) && Holds(m, c + 0x18c, 3) && Holds(m, c + 0x170, 0x20) && Holds(m, c + 0x144, 0)
    && Holds(m, c + 0x40, mask) && Holds(m, c + 0x44, mask) && Holds(m, r.dma + 0xf30, 0x101 * mask)
    && Holds(m, c + 0x344, 0xf0000) && Holds(m, c + 0x34c, 1 + 0x700 * (Pow(8, lo) + Pow(8, hi)))
    && Holds(m, c + 0x35c, 4 * (Pow(16, lo) + Pow(16, hi))) && Holds(m, c + 0x36c, 0x11111111)
    && Holds(m, c + 0x1d4, 0) && Holds(m, c + 0x1d8, 0) && Holds(m, c + 0x1b8, mask)
    && Holds(m, c + 0x1bc, 0) && Holds(m, c + 0x1c0, 0) && Holds(m, c + 0x1c4, 0)
    && Holds(m, c + 0x1c8, Pow(2, lo)) && Holds(m, c + 0x1cc, Pow(2, lo))
  }

  lemma EngineCellHeld(job: Job, r: Resources, i: nat, regs: Registers)
    requires Composable(job, r) && i < 19
    ensures var c := EngineCells(JobEngineValues(job))[i]; Holds(AfterRecipe(job, r, regs), BankBase(r, c.bank) + c.offset, c.value)
  {
    hide AfterRecipe, JobEngineValues, Holds;
    RecipeEngine(job, r, i, regs);
    PlaceAt(EngineCells(JobEngineValues(job)), r, 0, i);
  }

  lemma EngineImage(job: Job, r: Resources, regs: Registers)
    requires Composable(job, r)
    ensures EngineRegisters(AfterRecipe(job, r, regs), r, LowTag(job), HighTag(job))
  {
    hide AfterRecipe, JobEngineValues, Holds, Pow, EngineCells;
    EngineMeaning(job);
    var v := JobEngineValues(job);
    CellsAre(v);
    forall i | 0 <= i < 19
      ensures var c := EngineCells(v)[i]; Holds(AfterRecipe(job, r, regs), BankBase(r, c.bank) + c.offset, c.value)
    {
      EngineCellHeld(job, r, i, regs);
    }
  }

  lemma CellsAre(v: EngineValues)
    ensures var e := EngineCells(v);
            && |e| == 19 && e[0] == Cell(Central, 0x140, 1) && e[1] == Cell(Central, 0x18c, 3) && e[2] == Cell(Central, 0x170, 0x20)
            && e[3] == Cell(Central, 0x144, 0) && e[4] == Cell(Central, 0x40, v.mask) && e[5] == Cell(Central, 0x44, v.img)
            && e[6] == Cell(Dma, 0xf30, v.imgPair) && e[7] == Cell(Central, 0x344, 0xf0000) && e[8] == Cell(Central, 0x34c, v.errors)
            && e[9] == Cell(Central, 0x35c, v.sof) && e[10] == Cell(Central, 0x36c, 0x11111111) && e[11] == Cell(Central, 0x1d4, 0)
            && e[12] == Cell(Central, 0x1d8, 0) && e[13] == Cell(Central, 0x1b8, v.mask) && e[14] == Cell(Central, 0x1bc, 0)
            && e[15] == Cell(Central, 0x1c0, 0) && e[16] == Cell(Central, 0x1c4, 0) && e[17] == Cell(Central, 0x1c8, v.first)
            && e[18] == Cell(Central, 0x1cc, v.first)
  {}

  // ---------------------------------------------------------------- everything else

  /** The thirteen registers of one tag, as offsets into their bank. */
  predicate PlaneOffset(bank: Bank, offset: int) {
    match bank
    case Central => offset == 0x540 || offset == 0x548 || offset == 0x54c || offset == 0x554 || offset == 0x55c
    case Dma =>
      || offset == 0x200 || offset == 0x204 || offset == 0x210 || offset == 0x218
      || offset == 0x21c || offset == 0x220 || offset == 0x224 || offset == 0xa10
  }

  /** The nineteen engine-wide registers. */
  predicate EngineOffset(bank: Bank, offset: int) {
    match bank
    case Central =>
      || offset == 0x40 || offset == 0x44 || offset == 0x140 || offset == 0x144 || offset == 0x170 || offset == 0x18c
      || offset == 0x1b8 || offset == 0x1bc || offset == 0x1c0 || offset == 0x1c4 || offset == 0x1c8 || offset == 0x1cc
      || offset == 0x1d4 || offset == 0x1d8 || offset == 0x344 || offset == 0x34c || offset == 0x35c || offset == 0x36c
    case Dma => offset == 0xf30
  }

  predicate TagRegister(r: Resources, tag: u32, a: u32) {
    PlaneOffset(Central, a - r.central - 0x40 * tag) || PlaneOffset(Dma, a - r.dma - 0x40 * tag)
  }

  predicate EngineRegister(r: Resources, a: u32) {
    EngineOffset(Central, a - r.central) || EngineOffset(Dma, a - r.dma)
  }

  /** Exactly the registers that the recipe writes: thirteen for each tag, nineteen of the engine, eight cookies. */
  predicate RecipeRegister(job: Job, r: Resources, a: u32) {
    TagRegister(r, job.rawTag, a) || TagRegister(r, job.pdafTag, a) || EngineRegister(r, a) || CookieRegister(r, a)
  }

  lemma CellsListed(layout: Layout, dma: u64, v: EngineValues)
    ensures forall i | 0 <= i < 16 :: PlaneOffset(PlaneCells(layout, dma)[i].bank, PlaneCells(layout, dma)[i].offset)
    ensures forall i | 0 <= i < 19 :: EngineOffset(EngineCells(v)[i].bank, EngineCells(v)[i].offset)
  {
    hide StrideWord, HardwareFormat;
  }

  lemma TagListed(job: Job, r: Resources, tag: u32)
    requires Composable(job, r) && tag <= 3
    ensures forall i | 0 <= i < |TagWrites(job, r, tag)| :: TagRegister(r, tag, TagWrites(job, r, tag)[i].address)
  {
    hide PlaneCells, Place, PlaneOffset;
    var layout, dma := PlaneLayout(job, tag), PlaneBuffer(job, tag).dma;
    CellsInPlace(layout, dma, JobEngineValues(job));
    CellsListed(layout, dma, JobEngineValues(job));
    forall i | 0 <= i < 16 ensures TagRegister(r, tag, TagWrites(job, r, tag)[i].address) {
      assert PlaneCell(PlaneCells(layout, dma)[i]);
      PlaceAt(PlaneCells(layout, dma), r, 0x40 * tag, i);
    }
  }

  lemma EngineListed(r: Resources, v: EngineValues)
    requires OwnedBanks(r, r.svId)
    ensures forall i | 0 <= i < |EngineWrites(r, v)| :: EngineRegister(r, EngineWrites(r, v)[i].address)
  {
    hide EngineCells, PlaneCells, Place, EngineOffset;
    var none := Layout(0, 0, 0, 0, 0, 0);
    CellsInPlace(none, 0, v);
    CellsListed(none, 0, v);
    forall i | 0 <= i < 19 ensures EngineRegister(r, EngineWrites(r, v)[i].address) {
      assert EngineCell(EngineCells(v)[i]);
      PlaceAt(EngineCells(v), r, 0, i);
    }
  }

  /** Every register that is not on the list keeps its value. */
  lemma RecipeFrame(job: Job, r: Resources, a: u32, regs: Registers)
    requires Composable(job, r) && !RecipeRegister(job, r, a)
    ensures a in AfterRecipe(job, r, regs) <==> a in regs
    ensures a in regs ==> AfterRecipe(job, r, regs)[a] == regs[a]
  {
    hide TagWrites, EngineWrites, Execute, TagRegister, EngineRegister, JobEngineValues;
    TagListed(job, r, LowTag(job));
    TagListed(job, r, HighTag(job));
    EngineListed(r, JobEngineValues(job));
    AbsentUntouched(RecipeWrites(job, r), a, regs);
  }

  /** DONE_STATUS (0x348) and the error status beside it (0x350) are not on the list. */
  lemma RecipeStatus(job: Job, r: Resources, offset: nat, regs: Registers)
    requires Composable(job, r) && (offset == 0x348 || offset == 0x350)
    ensures r.central + offset in AfterRecipe(job, r, regs) <==> r.central + offset in regs
    ensures r.central + offset in regs ==> AfterRecipe(job, r, regs)[r.central + offset] == regs[r.central + offset]
  {
    hide AfterRecipe;
    RecipeFrame(job, r, r.central + offset, regs);
  }

  /** `after` describes both planes, the engine and the sequence, and is `before` in every other register. */
  ghost predicate ImageOf(job: Job, r: Resources, before: Registers, after: Registers) {
    && PlaneRegisters(after, r, job.rawTag, job.rawLayout, job.raw.dma)
    && PlaneRegisters(after, r, job.pdafTag, job.pdafLayout, job.pdaf.dma)
    && (forall t | 0 <= t < 8 :: Holds(after, r.central + 0x57c + 0x40 * t, job.sequence))
    && EngineRegisters(after, r, LowTag(job), HighTag(job))
    && forall a: u32 | !RecipeRegister(job, r, a) :: (a in after <==> a in before) && (a in before ==> after[a] == before[a])
  }

  /** The whole image, for every accepted job and every prior register file. */
  lemma RecipeImage(job: Job, config: Config, r: Resources, regs: Registers)
    requires InputsCode(job, config, r) == 0
    ensures Composable(job, r) && ImageOf(job, r, regs, AfterRecipe(job, r, regs))
  {
    hide AfterRecipe, PlaneRegisters, EngineRegisters, RecipeRegister, Holds;
    LayoutsFit(job, config, r);
    RecipePlane(job, r, regs);
    forall t | 0 <= t < 8 ensures Holds(AfterRecipe(job, r, regs), r.central + 0x57c + 0x40 * t, job.sequence) {
      RecipeCookie(job, r, t, regs);
    }
    EngineImage(job, r, regs);
    forall a: u32 | !RecipeRegister(job, r, a)
      ensures (a in AfterRecipe(job, r, regs) <==> a in regs) && (a in regs ==> AfterRecipe(job, r, regs)[a] == regs[a])
    {
      RecipeFrame(job, r, a, regs);
    }
  }

  lemma LayoutsFit(job: Job, config: Config, r: Resources)
    requires InputsCode(job, config, r) == 0
    ensures Composable(job, r)
    ensures LayoutCode(job.rawLayout, 0xffff_ffff) == 0 && LayoutCode(job.pdafLayout, 0xffff_ffff) == 0
  {
    hide InputMatches, Geometry, LinearFirstFrame, Overlap, Mask, Group;
    LayoutExact(job.rawLayout, job.raw.size);
    LayoutExact(job.rawLayout, 0xffff_ffff);
    LayoutExact(job.pdafLayout, job.pdaf.size);
    LayoutExact(job.pdafLayout, 0xffff_ffff);
  }
}

/** One hardware capture transaction: submission, group completion and stop. */
module Transaction {
  import opened Errno
  import opened Words
  import opened Capture
  import opened Bus

  const CQ_RESET: nat := 0x10
  const CQ_START: nat := 0x14
  const CQ_EN: nat := 0x100
  const CQ_SUB_EN: nat := 0x130
  const CQ_LSB: nat := 0x14c
  const CQ_MSB: nat := 0x150
  const CQ_SIZE: nat := 0x158
  const DMA_RESET: nat := 0x20
  const DCM_DIS: nat := 0x7c
  const SW_CTL: nat := 0x1d0
  const CAMMUX_OPT: nat := 4
  const VC_MASK: u32 := 0x1f
  const DT_MASK: u32 := 0x3f00
  const VC_EN: u32 := 0x80
  const DT_EN: u32 := 0x8000

  // ---------------------------------------------------------------- the two plans

  function MuxOffset(job: Job, tag: u32): nat {
    0x17000 + 0x40 * (job.svId * 8 + tag) + CAMMUX_OPT
  }

  const OWNERS: seq<Op> := [Check(Resources), Check(Iommu), Check(Route), Check(Irq), Check(Composer)]

  /** Virtual channel 0 and the data type of one output, then their enables. */
  function MuxPlan(offset: nat, dt: u32): seq<Op> {
    [Update(Seninf, offset, VC_MASK, 0), Update(Seninf, offset, DT_MASK, dt), Update(Seninf, offset, VC_EN, VC_EN),
     Update(Seninf, offset, DT_EN, DT_EN)]
  }

  /** Queue size and address, START, enable. */
  function QueuePlan(job: Job): seq<Op> {
    [Put(Cq, CQ_SIZE, job.cq.size), Put(Cq, CQ_MSB, job.cq.dma / 0x1_0000_0000), Put(Cq, CQ_LSB, job.cq.dma % 0x1_0000_0000),
     Put(Cq, CQ_START, 1), Fence, Update(Cq, CQ_EN, 0x1000, 0x1000)]
  }

  function SubmitPlan(job: Job): seq<Op> {
    OWNERS + MuxPlan(MuxOffset(job, job.rawTag), 0x2b00) + MuxPlan(MuxOffset(job, job.pdafTag), 0x3000) + QueuePlan(job)
  }

  /** Sensor side proved stopped, SMI clamped, DMA reset requested. */
  const QUIET: seq<Op> := [Check(Stopped), SetClamp(true), Put(Dma, DMA_RESET, 0), Put(Dma, DMA_RESET, 1), Fence]

  /** DMA idle: reset the core. */
  const CORE_RESET: seq<Op> :=
    [Put(Central, DCM_DIS, 0), Put(Central, SW_CTL, 0), Put(Central, SW_CTL, 1), Put(Dma, DMA_RESET, 0),
     Put(Central, SW_CTL, 0), Fence]

  const QUEUE_RESET: seq<Op> := [Put(Cq, CQ_RESET, 0), Put(Cq, CQ_RESET, 1), Fence]

  /** Queue idle: toggle its enables. */
  const TOGGLE: seq<Op> :=
    [Put(Cq, CQ_RESET, 0), Fence, Update(Cq, CQ_EN, 0x10000, 0x10000), Update(Cq, CQ_SUB_EN, 0x10000, 0x10000),
     Update(Cq, CQ_SUB_EN, 0x10000, 0), Update(Cq, CQ_EN, 0x10000, 0)]

  const RELEASE: seq<Op> := [Fence, SetClamp(false)]

  const STOP_PLAN: seq<Op> :=
    QUIET + [AwaitIdle(Dma, DMA_RESET)] + CORE_RESET + QUEUE_RESET + [AwaitIdle(Cq, CQ_RESET)] + TOGGLE + RELEASE

  // ---------------------------------------------------------------- the transaction as a value

  datatype Tx = Tx(
    job: Job, attempted: bool, submitted: bool, completeTags: bv32, offAttempted: bool, quiesced: bool,
    hwAttempted: bool, firstError: int)

  const NO_BUFFER := Buffer(0, 0, 0)
  const NO_LAYOUT := Layout(0, 0, 0, 0, 0, 0)
  const NO_JOB := Job(0, 0, 0, 0, 0, 0, [0, 0, 0, 0], NO_BUFFER, NO_BUFFER, NO_BUFFER, NO_LAYOUT, NO_LAYOUT)
  const FRESH_TX := Tx(NO_JOB, false, false, 0, false, false, false, 0)

  function LatchTx(tx: Tx, error: int): Tx {
    if error != 0 && tx.firstError == 0 then tx.(firstError := error) else tx
  }

  /** What a transaction step leaves behind: its state, the backend log and its result. */
  datatype Moved = Moved(tx: Tx, log: seq<Entry>, ret: int)

  function SubmitTx(tx: Tx, job: Job, script: Script, banks: Banks, log: seq<Entry>): Moved {
    if tx.firstError != 0 then Moved(tx, log, tx.firstError)
    else if tx.attempted || tx.offAttempted then Moved(tx, log, EALREADY)
    else if ValidateCode(banks, job) != 0 then Moved(tx.(firstError := ValidateCode(banks, job)), log, ValidateCode(banks, job))
    else
      var checks, out := Run(script, banks, log, OWNERS), Run(script, banks, log, SubmitPlan(job));
      Moved(tx.(attempted := true, job := job, hwAttempted := tx.hwAttempted || checks.ret == 0,
                submitted := tx.submitted || out.ret == 0, firstError := out.ret),
            out.log, out.ret)
  }

  /** A stop after an earlier error still resets the hardware, and reports that error. */
  function StopTx(tx: Tx, script: Script, banks: Banks, log: seq<Entry>): Moved {
    if !tx.attempted || ValidateCode(banks, tx.job) != 0 then Moved(tx, log, EINVAL)
    else if tx.offAttempted then Moved(tx, log, if tx.firstError != 0 then tx.firstError else EALREADY)
    else
      var out := Run(script, banks, log, STOP_PLAN);
      var t := LatchTx(tx.(offAttempted := true), out.ret);
      Moved(if out.ret == 0 then t.(quiesced := true, submitted := false) else t, out.log, t.firstError)
  }

  /** Bit 16 + g of the status reports group g. */
  predicate Flagged(status: u32, group: nat) {
    And(status, Shl(1, 16 + group)) != 0
  }

  lemma FlagMeans(status: u32, group: nat)
    ensures Flagged(status, group) <==> Bit(status, 16 + group) == 1
  {
    hide And, Bit, Shl;
    AndOneBit(status, 16 + group);
  }

  predicate Contains(all: bv32, tags: bv32) {
    all & tags == tags
  }

  /** The tags of those of the first `groups` groups that `status` flags. */
  function Reported(job: Job, status: u32, groups: nat): bv32 {
    if groups == 0 then 0
    else if Flagged(status, groups - 1) then Join(Reported(job, status, groups - 1), Group(job, groups - 1))
    else Reported(job, status, groups - 1)
  }

  function DoneCode(tx: Tx, status: u32, sequence: u32): int {
    var tags := Reported(tx.job, status, 4);
    if !tx.submitted || tx.offAttempted || tx.firstError != 0 then EINVAL
    else if sequence != tx.job.sequence then ESTALE
    else if tags == 0 then 0
    else if Contains(tx.completeTags, tags) then EALREADY
    else if Join(tx.completeTags, tags) == Mask(tx.job) then 1 else 0
  }

  function DoneTx(tx: Tx, status: u32, sequence: u32): Tx {
    if DoneCode(tx, status, sequence) >= 0 then tx.(completeTags := Join(tx.completeTags, Reported(tx.job, status, 4))) else tx
  }

  // ---------------------------------------------------------------- submission: one fixed sequence of calls

  const CHECKS: seq<Shape> :=
    [Exactly(Verify(Resources)), Exactly(Verify(Iommu)), Exactly(Verify(Route)), Exactly(Verify(Irq)), Exactly(Verify(Composer))]

  function MuxShapes(offset: nat, dt: u32): seq<Shape> {
    [Exactly(Read(Seninf, offset)), Masked(Seninf, offset, 0x1f, 0),
     Exactly(Read(Seninf, offset)), Masked(Seninf, offset, 0x3f00, dt),
     Exactly(Read(Seninf, offset)), Masked(Seninf, offset, 0x80, 0x80),
     Exactly(Read(Seninf, offset)), Masked(Seninf, offset, 0x8000, 0x8000)]
  }

  function QueueShapes(job: Job): seq<Shape> {
    [Exactly(Write(Cq, 0x158, job.cq.size)), Exactly(Write(Cq, 0x150, job.cq.dma / 0x1_0000_0000)),
     Exactly(Write(Cq, 0x14c, job.cq.dma % 0x1_0000_0000)), Exactly(Write(Cq, 0x14, 1)), Exactly(Barrier),
     Exactly(Read(Cq, 0x100)), Masked(Cq, 0x100, 0x1000, 0x1000)]
  }

  /** The 28 calls of a submission that nothing stops: data type 0x2b for RAW, 0x30 for PDAF. */
  function SubmitShapes(job: Job): seq<Shape> {
    CHECKS + MuxShapes(0x17004 + 0x200 * job.svId + 0x40 * job.rawTag, 0x2b00)
      + MuxShapes(0x17004 + 0x200 * job.svId + 0x40 * job.pdafTag, 0x3000) + QueueShapes(job)
  }

  lemma MuxOffsetIs(job: Job, tag: u32)
    ensures MuxOffset(job, tag) == 0x17004 + 0x200 * job.svId + 0x40 * tag
  {}

  lemma NoShapes()
    ensures PlanShapes([]) == []
  {}

  lemma OwnersTrace(script: Script, banks: Banks, log: seq<Entry>)
    ensures Traces(log, Run(script, banks, log, OWNERS), CHECKS)
  {
    hide Run, PlanShapes, Traces;
    RunTraces(script, banks, log, OWNERS);
    NoShapes();
    var plan := OWNERS;
    assert plan[..0] == [] && plan[..5] == plan;
    PlanShapesStep(plan, 0);
    PlanShapesStep(plan, 1);
    PlanShapesStep(plan, 2);
    PlanShapesStep(plan, 3);
    PlanShapesStep(plan, 4);
    assert PlanShapes(OWNERS) == CHECKS;
  }

  lemma MuxTrace(script: Script, banks: Banks, log: seq<Entry>, offset: nat, dt: u32)
    requires Within(banks, Seninf, offset) && Confined(dt, DT_MASK)
    ensures Traces(log, Run(script, banks, log, MuxPlan(offset, dt)), MuxShapes(offset, dt))
  {
    hide Run, PlanShapes, Traces, Within, Confined;
    MasksConfined();
    RunTraces(script, banks, log, MuxPlan(offset, dt));
    NoShapes();
    var plan := MuxPlan(offset, dt);
    assert plan[..0] == [] && plan[..4] == plan;
    PlanShapesStep(plan, 0);
    PlanShapesStep(plan, 1);
    PlanShapesStep(plan, 2);
    PlanShapesStep(plan, 3);
    assert PlanShapes(MuxPlan(offset, dt)) == MuxShapes(offset, dt);
  }

  lemma QueueTrace(script: Script, banks: Banks, log: seq<Entry>, job: Job)
    requires BanksFit(banks)
    ensures Traces(log, Run(script, banks, log, QueuePlan(job)), QueueShapes(job))
  {
    hide Run, PlanShapes, Traces, Within, Confined, BanksFit;
    MasksConfined();
    BankOffsets(banks);
    RunTraces(script, banks, log, QueuePlan(job));
    NoShapes();
    var plan := QueuePlan(job);
    assert plan[..0] == [] && plan[..6] == plan;
    PlanShapesStep(plan, 0);
    PlanShapesStep(plan, 1);
    PlanShapesStep(plan, 2);
    PlanShapesStep(plan, 3);
    PlanShapesStep(plan, 4);
    PlanShapesStep(plan, 5);
    assert PlanShapes(QueuePlan(job)) == QueueShapes(job);
  }

  lemma MuxWithin(banks: Banks, job: Job, tag: u32)
    requires BanksFit(banks) && job.svId <= 1 && tag <= 7
    ensures Within(banks, Seninf, MuxOffset(job, tag))
  {}

  lemma MasksConfined()
    ensures Confined(0, VC_MASK) && Confined(0x2b00, DT_MASK) && Confined(0x3000, DT_MASK) && Confined(VC_EN, VC_EN)
    ensures Confined(DT_EN, DT_EN) && Confined(0x1000, 0x1000) && Confined(0x10000, 0x10000) && Confined(0, 0x10000)
  {
    hide And;
    ConfinedSelf(VC_EN);
    ConfinedSelf(DT_EN);
    ConfinedSelf(0x1000);
    ConfinedSelf(0x10000);
    AndShifted(0x2b, Not(DT_MASK));
    AndShifted(0x30, Not(DT_MASK));
    DataTypes();
    AndNothing(Not(VC_MASK));
    AndNothing(Not(0x10000));
  }

  lemma DataTypes()
    ensures And(0x2b, 0xff_ffc0) == 0 && And(0x30, 0xff_ffc0) == 0
  {
    DataType(0x2b);
    DataType(0x30);
  }

  /** Six bits of data type stay below the seventh. */
  lemma DataType(dt: nat)
    requires dt < 0x40
    ensures And(dt, 0xff_ffc0) == 0
  {
    hide And;
    assert Shl(1, 3) == 8 && Shl(0x3_ffff, 3) == 8 * 0x3_ffff;
    AndLow(dt, 0x3_ffff, 6);
  }

  lemma ConfinedSelf(a: u32)
    ensures Confined(a, a)
  {
    hide And;
    WordRange();
    AndComplement(a, Not(a), 32);
  }

  lemma BankOffsets(banks: Banks)
    requires BanksFit(banks)
    ensures Within(banks, Cq, CQ_SIZE) && Within(banks, Cq, CQ_MSB) && Within(banks, Cq, CQ_LSB) && Within(banks, Cq, CQ_START)
    ensures Within(banks, Cq, CQ_EN) && Within(banks, Cq, CQ_SUB_EN) && Within(banks, Cq, CQ_RESET)
    ensures Within(banks, Dma, DMA_RESET) && Within(banks, Central, DCM_DIS) && Within(banks, Central, SW_CTL)
  {}

  /** The next stage of a plan runs only if the stages before it succeeded. */
  function Then(out: Out, next: Out): Out {
    if out.ret != 0 then out else next
  }

  /** The part of a submission that touches registers: both routes, then the queue. */
  function Programmed(script: Script, banks: Banks, log: seq<Entry>, job: Job): Out {
    var raw := Run(script, banks, log, MuxPlan(MuxOffset(job, job.rawTag), 0x2b00));
    var pdaf := Then(raw, Run(script, banks, raw.log, MuxPlan(MuxOffset(job, job.pdafTag), 0x3000)));
    Then(pdaf, Run(script, banks, pdaf.log, QueuePlan(job)))
  }

  /** The submission plan, stage by stage. */
  lemma SubmitStages(script: Script, banks: Banks, log: seq<Entry>, job: Job)
    ensures var checks := Run(script, banks, log, OWNERS);
            Run(script, banks, log, SubmitPlan(job)) == Then(checks, Programmed(script, banks, checks.log, job))
  {
    hide Run, MuxPlan, QueuePlan, MuxOffset;
    var raw, pdaf := MuxPlan(MuxOffset(job, job.rawTag), 0x2b00), MuxPlan(MuxOffset(job, job.pdafTag), 0x3000);
    RunSplit(script, banks, log, OWNERS, raw);
    RunSplit(script, banks, log, OWNERS + raw, pdaf);
    RunSplit(script, banks, log, OWNERS + raw + pdaf, QueuePlan(job));
  }

  lemma PlanTrace(script: Script, banks: Banks, log: seq<Entry>, job: Job)
    requires BanksFit(banks) && job.svId <= 1 && job.rawTag <= 7 && job.pdafTag <= 7
    ensures Traces(log, Run(script, banks, log, SubmitPlan(job)), SubmitShapes(job))
  {
    hide Run, Traces, MuxPlan, MuxShapes, QueuePlan, QueueShapes, MuxOffset, Within, Confined;
    MuxOffsetIs(job, job.rawTag);
    MuxOffsetIs(job, job.pdafTag);
    var raw, pdaf := MuxOffset(job, job.rawTag), MuxOffset(job, job.pdafTag);
    var a, b := OWNERS + MuxPlan(raw, 0x2b00), OWNERS + MuxPlan(raw, 0x2b00) + MuxPlan(pdaf, 0x3000);
    MasksConfined();
    MuxWithin(banks, job, job.rawTag);
    MuxWithin(banks, job, job.pdafTag);
    OwnersTrace(script, banks, log);
    MuxTrace(script, banks, Run(script, banks, log, OWNERS).log, raw, 0x2b00);
    TracesConcat(script, banks, log, OWNERS, MuxPlan(raw, 0x2b00), CHECKS, MuxShapes(raw, 0x2b00));
    MuxTrace(script, banks, Run(script, banks, log, a).log, pdaf, 0x3000);
    TracesConcat(script, banks, log, a, MuxPlan(pdaf, 0x3000), CHECKS + MuxShapes(raw, 0x2b00), MuxShapes(pdaf, 0x3000));
    QueueTrace(script, banks, Run(script, banks, log, b).log, job);
    TracesConcat(script, banks, log, b, QueuePlan(job), CHECKS + MuxShapes(raw, 0x2b00) + MuxShapes(pdaf, 0x3000), QueueShapes(job));
  }

  /** The CQ writes of a submission, in the only place where they may stand. */
  ghost predicate QueueStarted(log: seq<Entry>, at: nat, job: Job) {
    && 3 <= at < |log|
    && log[at - 3].call == Write(Cq, 0x158, job.cq.size) && log[at - 3].answer.ret == 0
    && log[at - 2].call.Write? && log[at - 2].call.region == Cq && log[at - 2].call.offset == 0x150 && log[at - 2].answer.ret == 0
    && log[at - 1].call.Write? && log[at - 1].call.region == Cq && log[at - 1].call.offset == 0x14c && log[at - 1].answer.ret == 0
    && 0x1_0000_0000 * log[at - 2].call.value + log[at - 1].call.value == job.cq.dma
  }

  predicate Accesses(call: Call) {
    call.Read? || call.Write?
  }

  predicate Starts(call: Call) {
    call.Write? && call.region == Cq && call.offset == 0x14
  }

  /** Registers are touched only after the five checks; START only after the queue's size and address. */
  lemma SubmitOrder(log: seq<Entry>, out: Out, job: Job, k: nat)
    requires Traces(log, out, SubmitShapes(job)) && |log| <= k < |out.log|
    ensures Accesses(out.log[k].call) ==> k >= |log| + 5
    ensures Starts(out.log[k].call) ==> k == |log| + 24 && QueueStarted(out.log, k, job)
  {
    hide Merged;
    var shapes := SubmitShapes(job);
    assert Fits(out.log, |log| + (k - |log|), shapes[k - |log|]);
    if Starts(out.log[k].call) {
      assert k - |log| == 24;
      assert Fits(out.log, |log| + 21, shapes[21]) && Fits(out.log, |log| + 22, shapes[22]) && Fits(out.log, |log| + 23, shapes[23]);
    }
  }

  /**
   * For every backend, an eligible submission makes a prefix of the 28 calls, stopping at the first
   * failure; it counts as a hardware attempt exactly when the five checks passed.
   */
  lemma SubmitTrace(tx: Tx, job: Job, script: Script, banks: Banks, log: seq<Entry>)
    ensures var m := SubmitTx(tx, job, script, banks, log);
            if tx.firstError != 0 || tx.attempted || tx.offAttempted || ValidateCode(banks, job) != 0 then m.log == log && m.ret != 0
            else
              && Traces(log, Out(m.log, m.ret), SubmitShapes(job))
              && (m.tx.submitted && !tx.submitted ==> |m.log| == |log| + 28)
              && (m.tx.hwAttempted && !tx.hwAttempted <==>
                    !tx.hwAttempted && |m.log| >= |log| + 5 && m.log[|log| + 4].answer.ret == 0)
  {
    hide Run, SubmitPlan, SubmitShapes, PlanesFit, GroupsPartition, InRange, Overlap, Geometry;
    if !(tx.firstError != 0 || tx.attempted || tx.offAttempted || ValidateCode(banks, job) != 0) {
      PlanTrace(script, banks, log, job);
      ShapeCount(job);
      ChecksPassed(script, banks, log, job);
    }
  }

  lemma ShapeCount(job: Job)
    ensures |SubmitShapes(job)| == 28
  {}

  lemma ChecksPassed(script: Script, banks: Banks, log: seq<Entry>, job: Job)
    ensures var out := Run(script, banks, log, SubmitPlan(job));
            Run(script, banks, log, OWNERS).ret == 0 <==> |out.log| >= |log| + 5 && out.log[|log| + 4].answer.ret == 0
  {
    hide Run, MuxPlan, QueuePlan;
    var checks, rest := Run(script, banks, log, OWNERS), SubmitPlan(job)[5..];
    OwnersTrace(script, banks, log);
    RunSplit(script, banks, log, OWNERS, rest);
    assert OWNERS + rest == SubmitPlan(job);
    if checks.ret == 0 {
      RunGrows(script, banks, checks.log, rest);
      assert Run(script, banks, checks.log, rest).log[..|checks.log|][|log| + 4] == checks.log[|log| + 4];
    }
  }

  // ---------------------------------------------------------------- stopping

  /** Calls `from..to` only poll, and the last of them shows the unit idle. */
  ghost predicate Polled(log: seq<Entry>, from: nat, to: nat, region: Region, offset: nat) {
    && from <= to < |log| && to - from < 199_999
    && (forall k | from <= k <= to :: log[k].call == Read(region, offset) || log[k].call == Delay)
    && Idle(log[to], region, offset)
  }

  const QUIET_SHAPES: seq<Shape> :=
    [Exactly(Verify(Stopped)), Exactly(Clamp(31, true)), Exactly(Write(Dma, 0x20, 0)),
     Exactly(Write(Dma, 0x20, 1)), Exactly(Barrier)]

  const CORE_SHAPES: seq<Shape> :=
    [Exactly(Write(Central, 0x7c, 0)), Exactly(Write(Central, 0x1d0, 0)), Exactly(Write(Central, 0x1d0, 1)),
     Exactly(Write(Dma, 0x20, 0)), Exactly(Write(Central, 0x1d0, 0)), Exactly(Barrier)]

  const QUEUE_RESET_SHAPES: seq<Shape> :=
    [Exactly(Write(Cq, 0x10, 0)), Exactly(Write(Cq, 0x10, 1)), Exactly(Barrier)]

  const TOGGLE_SHAPES: seq<Shape> :=
    [Exactly(Write(Cq, 0x10, 0)), Exactly(Barrier),
     Exactly(Read(Cq, 0x100)), Masked(Cq, 0x100, 0x10000, 0x10000),
     Exactly(Read(Cq, 0x130)), Masked(Cq, 0x130, 0x10000, 0x10000),
     Exactly(Read(Cq, 0x130)), Masked(Cq, 0x130, 0x10000, 0),
     Exactly(Read(Cq, 0x100)), Masked(Cq, 0x100, 0x10000, 0)]

  const RELEASE_SHAPES: seq<Shape> := [Exactly(Barrier), Exactly(Clamp(31, false))]

  /** The calls from `at` on are these. */
  ghost predicate Segment(log: seq<Entry>, at: nat, shapes: seq<Shape>) {
    at + |shapes| <= |log| && forall k | 0 <= k < |shapes| :: Fits(log, at + k, shapes[k])
  }

  /** All the calls of a stop that succeeded, with the DMA seen idle at `d` and the queue at `c`. */
  ghost predicate Quiesced(log: seq<Entry>, out: seq<Entry>, d: nat, c: nat) {
    && Grows(log, Out(out, 0)) && |out| == c + 13 && |log| + 5 <= d && d + 10 <= c
    && Segment(out, |log|, QUIET_SHAPES) && Polled(out, |log| + 5, d, Dma, 0x20)
    && Segment(out, d + 1, CORE_SHAPES) && Segment(out, d + 7, QUEUE_RESET_SHAPES) && Polled(out, d + 10, c, Cq, 0x10)
    && Segment(out, c + 1, TOGGLE_SHAPES) && Segment(out, c + 11, RELEASE_SHAPES)
  }

  lemma QuietTrace(script: Script, banks: Banks, log: seq<Entry>)
    requires BanksFit(banks)
    ensures Traces(log, Run(script, banks, log, QUIET), QUIET_SHAPES)
  {
    hide Run, PlanShapes, Traces, Within, BanksFit;
    BankOffsets(banks);
    RunTraces(script, banks, log, QUIET);
    NoShapes();
    var plan := QUIET;
    assert plan[..0] == [] && plan[..5] == plan;
    PlanShapesStep(plan, 0);
    PlanShapesStep(plan, 1);
    PlanShapesStep(plan, 2);
    PlanShapesStep(plan, 3);
    PlanShapesStep(plan, 4);
    assert PlanShapes(QUIET) == QUIET_SHAPES;
  }

  lemma CoreTrace(script: Script, banks: Banks, log: seq<Entry>)
    requires BanksFit(banks)
    ensures Traces(log, Run(script, banks, log, CORE_RESET), CORE_SHAPES)
  {
    hide Run, PlanShapes, Traces, Within, BanksFit;
    BankOffsets(banks);
    RunTraces(script, banks, log, CORE_RESET);
    NoShapes();
    var plan := CORE_RESET;
    assert plan[..0] == [] && plan[..6] == plan;
    PlanShapesStep(plan, 0);
    PlanShapesStep(plan, 1);
    PlanShapesStep(plan, 2);
    PlanShapesStep(plan, 3);
    PlanShapesStep(plan, 4);
    PlanShapesStep(plan, 5);
    assert PlanShapes(CORE_RESET) == CORE_SHAPES;
  }

  lemma QueueResetTrace(script: Script, banks: Banks, log: seq<Entry>)
    requires BanksFit(banks)
    ensures Traces(log, Run(script, banks, log, QUEUE_RESET), QUEUE_RESET_SHAPES)
  {
    hide Run, PlanShapes, Traces, Within, BanksFit;
    BankOffsets(banks);
    RunTraces(script, banks, log, QUEUE_RESET);
    NoShapes();
    var plan := QUEUE_RESET;
    assert plan[..0] == [] && plan[..3] == plan;
    PlanShapesStep(plan, 0);
    PlanShapesStep(plan, 1);
    PlanShapesStep(plan, 2);
    assert PlanShapes(QUEUE_RESET) == QUEUE_RESET_SHAPES;
  }

  lemma ToggleTrace(script: Script, banks: Banks, log: seq<Entry>)
    requires BanksFit(banks)
    ensures Traces(log, Run(script, banks, log, TOGGLE), TOGGLE_SHAPES)
  {
    hide Run, PlanShapes, Traces, Within, BanksFit, Confined;
    BankOffsets(banks);
    MasksConfined();
    RunTraces(script, banks, log, TOGGLE);
    NoShapes();
    var plan := TOGGLE;
    assert plan[..0] == [] && plan[..6] == plan;
    PlanShapesStep(plan, 0);
    PlanShapesStep(plan, 1);
    PlanShapesStep(plan, 2);
    PlanShapesStep(plan, 3);
    PlanShapesStep(plan, 4);
    PlanShapesStep(plan, 5);
    assert PlanShapes(TOGGLE) == TOGGLE_SHAPES;
  }

  lemma ReleaseTrace(script: Script, banks: Banks, log: seq<Entry>)
    ensures Traces(log, Run(script, banks, log, RELEASE), RELEASE_SHAPES)
  {
    hide Run, PlanShapes, Traces;
    RunTraces(script, banks, log, RELEASE);
    NoShapes();
    var plan := RELEASE;
    assert plan[..0] == [] && plan[..2] == plan;
    PlanShapesStep(plan, 0);
    PlanShapesStep(plan, 1);
    assert PlanShapes(RELEASE) == RELEASE_SHAPES;
  }

  /** The logs between the stages of a stop. */
  datatype Stages = Stages(quiet: Out, dma: Out, core: Out, reset: Out, cq: Out, toggle: Out, release: Out)

  ghost function StopStages(script: Script, banks: Banks, log: seq<Entry>): Stages {
    var quiet := Run(script, banks, log, QUIET);
    var dma := Then(quiet, PollOut(script, quiet.log, Dma, DMA_RESET, POLLS));
    var core := Then(dma, Run(script, banks, dma.log, CORE_RESET));
    var reset := Then(core, Run(script, banks, core.log, QUEUE_RESET));
    var cq := Then(reset, PollOut(script, reset.log, Cq, CQ_RESET, POLLS));
    var toggle := Then(cq, Run(script, banks, cq.log, TOGGLE));
    Stages(quiet, dma, core, reset, cq, toggle, Then(toggle, Run(script, banks, toggle.log, RELEASE)))
  }

  /** The stop plan, stage by stage. */
  lemma RunStages(script: Script, banks: Banks, log: seq<Entry>)
    ensures Run(script, banks, log, STOP_PLAN) == StopStages(script, banks, log).release
  {
    hide Run, PollOut;
    var s := StopStages(script, banks, log);
    var a := QUIET + [AwaitIdle(Dma, DMA_RESET)];
    var b := a + CORE_RESET + QUEUE_RESET;
    var c := b + [AwaitIdle(Cq, CQ_RESET)];
    RunSplit(script, banks, log, QUIET, [AwaitIdle(Dma, DMA_RESET)]);
    RunOne(script, banks, s.quiet.log, AwaitIdle(Dma, DMA_RESET));
    RunSplit(script, banks, log, a, CORE_RESET);
    RunSplit(script, banks, log, a + CORE_RESET, QUEUE_RESET);
    RunSplit(script, banks, log, b, [AwaitIdle(Cq, CQ_RESET)]);
    RunOne(script, banks, s.reset.log, AwaitIdle(Cq, CQ_RESET));
    RunSplit(script, banks, log, c, TOGGLE);
    RunSplit(script, banks, log, c + TOGGLE, RELEASE);
  }

  /** What holds of a log's calls still holds when the log has grown. */
  lemma StillPolled(log: seq<Entry>, longer: seq<Entry>, from: nat, to: nat, region: Region, offset: nat)
    requires Polled(log, from, to, region, offset) && |log| <= |longer| && longer[..|log|] == log
    ensures Polled(longer, from, to, region, offset)
  {
    forall k | from <= k <= to ensures longer[k] == log[k] {
      assert longer[..|log|][k] == log[k];
    }
  }

  lemma PollPolled(script: Script, log: seq<Entry>, region: Region, offset: nat)
    requires PollOut(script, log, region, offset, POLLS).ret == 0
    ensures var out := PollOut(script, log, region, offset, POLLS).log;
            |out| > |log| && Polled(out, |log|, |out| - 1, region, offset)
  {
    hide PollOut;
    PollSound(script, log, region, offset, POLLS);
  }

  lemma TracedSegment(log: seq<Entry>, out: Out, shapes: seq<Shape>, longer: seq<Entry>)
    requires Traces(log, out, shapes) && out.ret == 0 && |out.log| <= |longer| && longer[..|out.log|] == out.log
    ensures Segment(longer, |log|, shapes)
  {
    forall k | 0 <= k < |shapes| ensures Fits(longer, |log| + k, shapes[k]) {
      var at := |log| + k;
      assert Fits(out.log, at, shapes[k]);
      assert longer[..|out.log|][at] == out.log[at] && (at > 0 ==> longer[..|out.log|][at - 1] == out.log[at - 1]);
    }
  }

  lemma TracesGrow(log: seq<Entry>, out: Out, shapes: seq<Shape>)
    requires Traces(log, out, shapes)
    ensures Grows(log, out) && (out.ret == 0 ==> |out.log| == |log| + |shapes|)
  {}

  lemma StopQuiesced(script: Script, banks: Banks, log: seq<Entry>) returns (d: nat, c: nat)
    requires BanksFit(banks) && Run(script, banks, log, STOP_PLAN).ret == 0
    ensures Quiesced(log, Run(script, banks, log, STOP_PLAN).log, d, c)
  {
    hide Run, PollOut, BanksFit, Polled, Traces, Segment;
    RunStages(script, banks, log);
    var s := StopStages(script, banks, log);
    var out := s.release;
    QuietTrace(script, banks, log);
    CoreTrace(script, banks, s.dma.log);
    QueueResetTrace(script, banks, s.core.log);
    ToggleTrace(script, banks, s.cq.log);
    ReleaseTrace(script, banks, s.toggle.log);
    TracesGrow(log, s.quiet, QUIET_SHAPES);
    PollSound(script, s.quiet.log, Dma, DMA_RESET, POLLS);
    PollPolled(script, s.quiet.log, Dma, DMA_RESET);
    TracesGrow(s.dma.log, s.core, CORE_SHAPES);
    TracesGrow(s.core.log, s.reset, QUEUE_RESET_SHAPES);
    PollSound(script, s.reset.log, Cq, CQ_RESET, POLLS);
    PollPolled(script, s.reset.log, Cq, CQ_RESET);
    TracesGrow(s.cq.log, s.toggle, TOGGLE_SHAPES);
    TracesGrow(s.toggle.log, out, RELEASE_SHAPES);
    d, c := |s.dma.log| - 1, |s.cq.log| - 1;
    GrowsTrans(s.cq.log, s.toggle, out);
    GrowsTrans(s.reset.log, s.cq, out);
    GrowsTrans(s.core.log, s.reset, out);
    GrowsTrans(s.dma.log, s.core, out);
    GrowsTrans(s.quiet.log, s.dma, out);
    GrowsTrans(log, s.quiet, out);
    TracedSegment(log, s.quiet, QUIET_SHAPES, out.log);
    StillPolled(s.dma.log, out.log, |log| + 5, d, Dma, DMA_RESET);
    TracedSegment(s.dma.log, s.core, CORE_SHAPES, out.log);
    TracedSegment(s.core.log, s.reset, QUEUE_RESET_SHAPES, out.log);
    StillPolled(s.cq.log, out.log, d + 10, c, Cq, CQ_RESET);
    TracedSegment(s.cq.log, s.toggle, TOGGLE_SHAPES, out.log);
    assert out.log[..|out.log|] == out.log;
    TracedSegment(s.toggle.log, out, RELEASE_SHAPES, out.log);
  }

  // ---------------------------------------------------------------- stopping against any backend

  /** A stretch of fixed calls, or a poll. */
  datatype Stage = Calls(shapes: seq<Shape>) | Poll(region: Region, offset: nat)

  const STOP_STAGES: seq<Stage> :=
    [Calls(QUIET_SHAPES), Poll(Dma, 0x20), Calls(CORE_SHAPES), Calls(QUEUE_RESET_SHAPES), Poll(Cq, 0x10),
     Calls(TOGGLE_SHAPES), Calls(RELEASE_SHAPES)]

  /** The stage's calls follow `log`: all of them, or up to a failure; a poll only reads and waits, within its bound. */
  ghost predicate StageTraces(log: seq<Entry>, out: Out, stage: Stage) {
    match stage
    case Calls(shapes) => Traces(log, out, shapes)
    case Poll(region, offset) =>
      && Grows(log, out) && |out.log| <= |log| + 200_000
      && (forall k | |log| <= k < |out.log| :: out.log[k].call == Read(region, offset) || out.log[k].call == Delay)
      && (forall k | |log| <= k < |out.log| :: PollLeads(out, k))
      && (out.ret == 0 ==> |out.log| > |log| && Idle(out.log[|out.log| - 1], region, offset))
      && (out.ret != 0 ==> (|out.log| > |log| && out.log[|out.log| - 1].answer.ret == out.ret)
                           || (out.ret == ETIMEDOUT && |out.log| == |log| + 200_000))
  }

  /** Stage after stage, none after a failing one. */
  ghost predicate Staged(log: seq<Entry>, out: Out, stages: seq<Stage>)
    decreases |stages|
  {
    if stages == [] then out == Out(log, 0)
    else
      var init, last := stages[..|stages| - 1], stages[|stages| - 1];
      exists mid: Out :: Staged(log, mid, init) && Continues(mid, out, last)
  }

  ghost predicate Continues(mid: Out, out: Out, stage: Stage) {
    if mid.ret != 0 then out == mid else StageTraces(mid.log, out, stage)
  }

  lemma StagedStep(log: seq<Entry>, mid: Out, next: Out, stages: seq<Stage>, i: nat)
    requires i < |stages| && Staged(log, mid, stages[..i]) && (mid.ret == 0 ==> StageTraces(mid.log, next, stages[i]))
    ensures Staged(log, Then(mid, next), stages[..i + 1])
  {
    hide StageTraces;
    assert stages[..i + 1][..i] == stages[..i];
    assert Continues(mid, Then(mid, next), stages[i]);
  }

  lemma PollStage(script: Script, log: seq<Entry>, region: Region, offset: nat)
    ensures StageTraces(log, PollOut(script, log, region, offset, POLLS), Poll(region, offset))
  {
    hide PollOut, PollLeads;
    PollSound(script, log, region, offset, POLLS);
    PollExact(script, log, region, offset, POLLS);
  }

  lemma StopStaged(script: Script, banks: Banks, log: seq<Entry>)
    requires BanksFit(banks)
    ensures Staged(log, Run(script, banks, log, STOP_PLAN), STOP_STAGES)
  {
    hide Run, PollOut, Staged, Traces, Idle, BanksFit;
    RunStages(script, banks, log);
    var s, stages := StopStages(script, banks, log), STOP_STAGES;
    NothingStaged(log);
    assert stages[..0] == [] && stages[..7] == stages;
    QuietTrace(script, banks, log);
    StagedStep(log, Out(log, 0), s.quiet, stages, 0);
    PollStage(script, s.quiet.log, Dma, DMA_RESET);
    StagedStep(log, s.quiet, PollOut(script, s.quiet.log, Dma, DMA_RESET, POLLS), stages, 1);
    CoreTrace(script, banks, s.dma.log);
    StagedStep(log, s.dma, Run(script, banks, s.dma.log, CORE_RESET), stages, 2);
    QueueResetTrace(script, banks, s.core.log);
    StagedStep(log, s.core, Run(script, banks, s.core.log, QUEUE_RESET), stages, 3);
    PollStage(script, s.reset.log, Cq, CQ_RESET);
    StagedStep(log, s.reset, PollOut(script, s.reset.log, Cq, CQ_RESET, POLLS), stages, 4);
    ToggleTrace(script, banks, s.cq.log);
    StagedStep(log, s.cq, Run(script, banks, s.cq.log, TOGGLE), stages, 5);
    ReleaseTrace(script, banks, s.toggle.log);
    StagedStep(log, s.toggle, Run(script, banks, s.toggle.log, RELEASE), stages, 6);
  }

  lemma NothingStaged(log: seq<Entry>)
    ensures Staged(log, Out(log, 0), [])
  {}

  /**
   * For every backend the calls of a stop are those of its seven stages, in order, up to the first failure;
   * the hardware counts as quiesced exactly if none failed, and a refused stop makes no call.
   */
  lemma StopTrace(tx: Tx, script: Script, banks: Banks, log: seq<Entry>)
    ensures var m, out := StopTx(tx, script, banks, log), Run(script, banks, log, STOP_PLAN);
            if !tx.attempted || ValidateCode(banks, tx.job) != 0 || tx.offAttempted then m.tx == tx && m.log == log && m.ret != 0
            else m.log == out.log && Staged(log, out, STOP_STAGES) && m.tx.quiesced == (tx.quiesced || out.ret == 0)
  {
    hide Run, Staged, PlanesFit, GroupsPartition, InRange, Overlap, Geometry;
    if tx.attempted && ValidateCode(banks, tx.job) == 0 && !tx.offAttempted {
      StopStaged(script, banks, log);
    }
  }

  // ---------------------------------------------------------------- backends that answer well

  /** Against a willing backend every valid submission succeeds, after all 28 calls. */
  lemma WillingSubmit(tx: Tx, job: Job, script: Script, banks: Banks, log: seq<Entry>)
    requires tx.firstError == 0 && !tx.attempted && !tx.offAttempted && ValidateCode(banks, job) == 0 && Willing(script)
    ensures var m := SubmitTx(tx, job, script, banks, log);
            m.ret == 0 && m.tx.submitted && m.tx.hwAttempted && m.tx.job == job && m.tx.firstError == 0 && |m.log| == |log| + 28
  {
    hide Run, SubmitPlan, SubmitShapes, PlanesFit, GroupsPartition, InRange, Overlap, Geometry, Traces, Honest, Willing, Programmed;
    PlanTrace(script, banks, log, job);
    RunHonest(script, banks, log, SubmitPlan(job));
    WillingTraces(script, log, Run(script, banks, log, SubmitPlan(job)), SubmitShapes(job));
    TracesGrow(log, Run(script, banks, log, SubmitPlan(job)), SubmitShapes(job));
    ShapeCount(job);
    SubmitStages(script, banks, log, job);
  }

  /** Every call succeeds, and every read shows the idle bit. */
  ghost predicate WillingIdle(script: Script) {
    Willing(script) && forall n: nat :: script(n).value / 2 % 2 == 1
  }

  lemma WillingStopRun(script: Script, banks: Banks, log: seq<Entry>)
    requires BanksFit(banks) && WillingIdle(script)
    ensures Run(script, banks, log, STOP_PLAN).ret == 0
  {
    hide Run, PollOut, BanksFit, Traces, Honest, Willing;
    RunStages(script, banks, log);
    var s := StopStages(script, banks, log);
    Answered(script, |s.quiet.log|);
    Answered(script, |s.reset.log|);
    QuietTrace(script, banks, log);
    RunHonest(script, banks, log, QUIET);
    WillingTraces(script, log, s.quiet, QUIET_SHAPES);
    IdlePoll(script, s.quiet.log, Dma, DMA_RESET);
    CoreTrace(script, banks, s.dma.log);
    RunHonest(script, banks, s.dma.log, CORE_RESET);
    WillingTraces(script, s.dma.log, s.core, CORE_SHAPES);
    QueueResetTrace(script, banks, s.core.log);
    RunHonest(script, banks, s.core.log, QUEUE_RESET);
    WillingTraces(script, s.core.log, s.reset, QUEUE_RESET_SHAPES);
    IdlePoll(script, s.reset.log, Cq, CQ_RESET);
    ToggleTrace(script, banks, s.cq.log);
    RunHonest(script, banks, s.cq.log, TOGGLE);
    WillingTraces(script, s.cq.log, s.toggle, TOGGLE_SHAPES);
    ReleaseTrace(script, banks, s.toggle.log);
    RunHonest(script, banks, s.toggle.log, RELEASE);
    WillingTraces(script, s.toggle.log, s.release, RELEASE_SHAPES);
  }

  lemma Answered(script: Script, n: nat)
    requires Willing(script)
    ensures script(n).ret == 0
  {}

  /** Against a willing and idle backend the first stop of an attempted transaction quiesces the hardware. */
  lemma WillingStop(tx: Tx, script: Script, banks: Banks, log: seq<Entry>)
    requires tx.attempted && !tx.offAttempted && ValidateCode(banks, tx.job) == 0 && WillingIdle(script)
    ensures var m := StopTx(tx, script, banks, log); m.tx.quiesced && !m.tx.submitted && m.ret == tx.firstError
  {
    hide Run, PlanesFit, GroupsPartition, InRange, Overlap, Geometry, WillingIdle;
    WillingStopRun(script, banks, log);
  }

  lemma NothingReported(tags: bv32)
    ensures Join(tags, 0) == tags
  {}

  // ---------------------------------------------------------------- the transaction as code

  class CaptureTransaction {
    var job: Job
    var attempted: bool
    var submitted: bool
    var completeTags: bv32
    var offAttempted: bool
    var quiesced: bool
    var hwAttempted: bool
    var firstError: int

    function State(): Tx
      reads this
    {
      Tx(job, attempted, submitted, completeTags, offAttempted, quiesced, hwAttempted, firstError)
    }

    constructor ()
      ensures State() == FRESH_TX
    {
      job, attempted, submitted, completeTags := NO_JOB, false, false, 0;
      offAttempted, quiesced, hwAttempted, firstError := false, false, false, 0;
    }

    /** The backend went as `out` says, and a failure was latched and reported as the first error. */
    ghost predicate Acted(io: Backend, before: Tx, out: Out, ret: int)
      reads this, io
    {
      io.log == out.log && State() == LatchTx(before, out.ret) && ret == if out.ret == 0 then 0 else firstError
    }

    method Error(error: int) returns (ret: int)
      modifies this`firstError
      ensures State() == LatchTx(old(State()), error) && ret == firstError
    {
      if error != 0 && firstError == 0 {
        firstError := error;
      }
      ret := firstError;
    }

    method Verify(io: Backend, party: Party) returns (ret: int)
      modifies this`firstError, io
      ensures Acted(io, old(State()), Ask(io.script, old(io.log), Call.Verify(party)), ret)
    {
      var answer := io.Do(Call.Verify(party));
      ret := answer.ret;
      if ret != 0 {
        ret := Error(ret);
      }
    }

    method Fence(io: Backend) returns (ret: int)
      modifies this`firstError, io
      ensures Acted(io, old(State()), Ask(io.script, old(io.log), Barrier), ret)
    {
      var answer := io.Do(Barrier);
      ret := answer.ret;
      if ret != 0 {
        ret := Error(ret);
      }
    }

    method SetClamp(io: Backend, enable: bool) returns (ret: int)
      modifies this`firstError, io
      ensures Acted(io, old(State()), Ask(io.script, old(io.log), Clamp(SMI_COMMON, enable)), ret)
    {
      var answer := io.Do(Clamp(SMI_COMMON, enable));
      ret := answer.ret;
      if ret != 0 {
        ret := Error(ret);
      }
    }

    method Write(io: Backend, region: Region, offset: nat, value: u32) returns (ret: int)
      modifies this`firstError, io
      ensures Acted(io, old(State()), PutOut(io.script, io.banks, old(io.log), region, offset, value), ret)
    {
      if !Within(io.banks, region, offset) {
        ret := Error(EINVAL);
        return;
      }
      var answer := io.Do(Call.Write(region, offset, value));
      ret := answer.ret;
      if ret != 0 {
        ret := Error(ret);
      }
    }

    method Update(io: Backend, region: Region, offset: nat, mask: u32, value: u32) returns (ret: int)
      modifies this`firstError, io
      ensures Acted(io, old(State()), UpdateOut(io.script, io.banks, old(io.log), region, offset, mask, value), ret)
    {
      hide PutOut, Merge, Within, Confined;
      if !Within(io.banks, region, offset) || !Confined(value, mask) {
        ret := Error(EINVAL);
        return;
      }
      var answer := io.Do(Read(region, offset));
      if answer.ret != 0 {
        ret := Error(answer.ret);
        return;
      }
      ret := Write(io, region, offset, Merge(answer.value, mask, value));
    }

    method PollIdle(io: Backend, region: Region, offset: nat) returns (ret: int)
      modifies this`firstError, io
      ensures Acted(io, old(State()), PollOut(io.script, old(io.log), region, offset, POLLS), ret)
    {
      hide IdleBit;
      for count := 0 to POLLS
        invariant State() == old(State())
        invariant PollOut(io.script, old(io.log), region, offset, POLLS) == PollOut(io.script, io.log, region, offset, POLLS - count)
      {
        var answer := io.Do(Read(region, offset));
        if answer.ret != 0 {
          ret := Error(answer.ret);
          return;
        }
        if IdleBit(answer.value) {
          return 0;
        }
        answer := io.Do(Delay);
        if answer.ret != 0 {
          ret := Error(answer.ret);
          return;
        }
      }
      ret := Error(ETIMEDOUT);
    }

    /** The route of one tag. */
    method RouteTag(io: Backend, offset: nat, dt: u32) returns (ret: int)
      modifies this`firstError, io
      ensures Acted(io, old(State()), Run(io.script, io.banks, old(io.log), MuxPlan(offset, dt)), ret)
    {
      hide Run, Ask, PutOut, UpdateOut, PollOut;
      ghost var plan, log, k := MuxPlan(offset, dt), io.log, 1;
      assert plan[..4] == plan && plan[..0] == [];
      RunNothing(io.script, io.banks, log);
      ret := Update(io, Seninf, offset, VC_MASK, 0);
      Extend(io.script, io.banks, log, plan, 0);
      if ret == 0 {
        ret := Update(io, Seninf, offset, DT_MASK, dt);
        Extend(io.script, io.banks, log, plan, 1);
        k := 2;
      }
      if ret == 0 {
        ret := Update(io, Seninf, offset, VC_EN, VC_EN);
        Extend(io.script, io.banks, log, plan, 2);
        k := 3;
      }
      if ret == 0 {
        ret := Update(io, Seninf, offset, DT_EN, DT_EN);
        Extend(io.script, io.banks, log, plan, 3);
        k := 4;
      }
      RunPrefix(io.script, io.banks, log, plan, k, 4);
    }

    /** Programs the queue's size and address, starts it, and enables it. */
    method StartQueue(io: Backend, job: Job) returns (ret: int)
      modifies this`firstError, io
      ensures Acted(io, old(State()), Run(io.script, io.banks, old(io.log), QueuePlan(job)), ret)
    {
      hide Run, Ask, PutOut, UpdateOut, PollOut;
      ghost var plan, log, k := QueuePlan(job), io.log, 1;
      assert plan[..6] == plan && plan[..0] == [];
      RunNothing(io.script, io.banks, log);
      ret := Write(io, Cq, CQ_SIZE, job.cq.size);
      Extend(io.script, io.banks, log, plan, 0);
      if ret == 0 {
        ret := Write(io, Cq, CQ_MSB, job.cq.dma / 0x1_0000_0000);
        Extend(io.script, io.banks, log, plan, 1);
        k := 2;
      }
      if ret == 0 {
        ret := Write(io, Cq, CQ_LSB, job.cq.dma % 0x1_0000_0000);
        Extend(io.script, io.banks, log, plan, 2);
        k := 3;
      }
      if ret == 0 {
        ret := Write(io, Cq, CQ_START, 1);
        Extend(io.script, io.banks, log, plan, 3);
        k := 4;
      }
      if ret == 0 {
        ret := Fence(io);
        Extend(io.script, io.banks, log, plan, 4);
        k := 5;
      }
      if ret == 0 {
        ret := Update(io, Cq, CQ_EN, 0x1000, 0x1000);
        Extend(io.script, io.banks, log, plan, 5);
        k := 6;
      }
      RunPrefix(io.script, io.banks, log, plan, k, 6);
    }

    /** Checks that capture stopped, clamps the SMI and requests the DMA reset. */
    method Quiet(io: Backend) returns (ret: int)
      modifies this`firstError, io
      ensures Acted(io, old(State()), Run(io.script, io.banks, old(io.log), QUIET), ret)
    {
      hide Run, Ask, PutOut, UpdateOut, PollOut;
      ghost var plan, log, k := QUIET, io.log, 1;
      assert plan[..5] == plan && plan[..0] == [];
      RunNothing(io.script, io.banks, log);
      ret := Verify(io, Stopped);
      Extend(io.script, io.banks, log, plan, 0);
      if ret == 0 {
        ret := SetClamp(io, true);
        Extend(io.script, io.banks, log, plan, 1);
        k := 2;
      }
      if ret == 0 {
        ret := Write(io, Dma, DMA_RESET, 0);
        Extend(io.script, io.banks, log, plan, 2);
        k := 3;
      }
      if ret == 0 {
        ret := Write(io, Dma, DMA_RESET, 1);
        Extend(io.script, io.banks, log, plan, 3);
        k := 4;
      }
      if ret == 0 {
        ret := Fence(io);
        Extend(io.script, io.banks, log, plan, 4);
        k := 5;
      }
      RunPrefix(io.script, io.banks, log, plan, k, 5);
    }

    /** Resets the idle core. */
    method ResetCore(io: Backend) returns (ret: int)
      modifies this`firstError, io
      ensures Acted(io, old(State()), Run(io.script, io.banks, old(io.log), CORE_RESET), ret)
    {
      hide Run, Ask, PutOut, UpdateOut, PollOut;
      ghost var plan, log, k := CORE_RESET, io.log, 1;
      assert plan[..6] == plan && plan[..0] == [];
      RunNothing(io.script, io.banks, log);
      ret := Write(io, Central, DCM_DIS, 0);
      Extend(io.script, io.banks, log, plan, 0);
      if ret == 0 {
        ret := Write(io, Central, SW_CTL, 0);
        Extend(io.script, io.banks, log, plan, 1);
        k := 2;
      }
      if ret == 0 {
        ret := Write(io, Central, SW_CTL, 1);
        Extend(io.script, io.banks, log, plan, 2);
        k := 3;
      }
      if ret == 0 {
        ret := Write(io, Dma, DMA_RESET, 0);
        Extend(io.script, io.banks, log, plan, 3);
        k := 4;
      }
      if ret == 0 {
        ret := Write(io, Central, SW_CTL, 0);
        Extend(io.script, io.banks, log, plan, 4);
        k := 5;
      }
      if ret == 0 {
        ret := Fence(io);
        Extend(io.script, io.banks, log, plan, 5);
        k := 6;
      }
      RunPrefix(io.script, io.banks, log, plan, k, 6);
    }

    /** Requests the queue reset. */
    method ResetQueue(io: Backend) returns (ret: int)
      modifies this`firstError, io
      ensures Acted(io, old(State()), Run(io.script, io.banks, old(io.log), QUEUE_RESET), ret)
    {
      hide Run, Ask, PutOut, UpdateOut, PollOut;
      ghost var plan, log, k := QUEUE_RESET, io.log, 1;
      assert plan[..3] == plan && plan[..0] == [];
      RunNothing(io.script, io.banks, log);
      ret := Write(io, Cq, CQ_RESET, 0);
      Extend(io.script, io.banks, log, plan, 0);
      if ret == 0 {
        ret := Write(io, Cq, CQ_RESET, 1);
        Extend(io.script, io.banks, log, plan, 1);
        k := 2;
      }
      if ret == 0 {
        ret := Fence(io);
        Extend(io.script, io.banks, log, plan, 2);
        k := 3;
      }
      RunPrefix(io.script, io.banks, log, plan, k, 3);
    }

    /** Ends the queue reset and toggles its enables. */
    method Toggle(io: Backend) returns (ret: int)
      modifies this`firstError, io
      ensures Acted(io, old(State()), Run(io.script, io.banks, old(io.log), TOGGLE), ret)
    {
      hide Run, Ask, PutOut, UpdateOut, PollOut;
      ghost var plan, log, k := TOGGLE, io.log, 1;
      assert plan[..6] == plan && plan[..0] == [];
      RunNothing(io.script, io.banks, log);
      ret := Write(io, Cq, CQ_RESET, 0);
      Extend(io.script, io.banks, log, plan, 0);
      if ret == 0 {
        ret := Fence(io);
        Extend(io.script, io.banks, log, plan, 1);
        k := 2;
      }
      if ret == 0 {
        ret := Update(io, Cq, CQ_EN, 0x10000, 0x10000);
        Extend(io.script, io.banks, log, plan, 2);
        k := 3;
      }
      if ret == 0 {
        ret := Update(io, Cq, CQ_SUB_EN, 0x10000, 0x10000);
        Extend(io.script, io.banks, log, plan, 3);
        k := 4;
      }
      if ret == 0 {
        ret := Update(io, Cq, CQ_SUB_EN, 0x10000, 0);
        Extend(io.script, io.banks, log, plan, 4);
        k := 5;
      }
      if ret == 0 {
        ret := Update(io, Cq, CQ_EN, 0x10000, 0);
        Extend(io.script, io.banks, log, plan, 5);
        k := 6;
      }
      RunPrefix(io.script, io.banks, log, plan, k, 6);
    }

    /** Releases the SMI clamp. */
    method Release(io: Backend) returns (ret: int)
      modifies this`firstError, io
      ensures Acted(io, old(State()), Run(io.script, io.banks, old(io.log), RELEASE), ret)
    {
      hide Run, Ask, PutOut, UpdateOut, PollOut;
      ghost var plan, log, k := RELEASE, io.log, 1;
      assert plan[..2] == plan && plan[..0] == [];
      RunNothing(io.script, io.banks, log);
      ret := Fence(io);
      Extend(io.script, io.banks, log, plan, 0);
      if ret == 0 {
        ret := SetClamp(io, false);
        Extend(io.script, io.banks, log, plan, 1);
        k := 2;
      }
      RunPrefix(io.script, io.banks, log, plan, k, 2);
    }

    /** Owner checks in order, none after a failing one. */
    method CheckOwners(io: Backend) returns (ret: int)
      modifies this`firstError, io
      ensures Acted(io, old(State()), Run(io.script, io.banks, old(io.log), OWNERS), ret)
    {
      hide Run, Ask;
      var owners := [Resources, Iommu, Route, Irq, Composer];
      ret := 0;
      assert OWNERS[..0] == [] && OWNERS[..5] == OWNERS;
      RunNothing(io.script, io.banks, io.log);
      for owner := 0 to 5
        invariant ret == 0 && State() == old(State())
        invariant Run(io.script, io.banks, old(io.log), OWNERS[..owner]) == Out(io.log, 0)
      {
        ret := Verify(io, owners[owner]);
        Extend(io.script, io.banks, old(io.log), OWNERS, owner);
        if ret != 0 {
          RunPrefix(io.script, io.banks, old(io.log), OWNERS, owner + 1, 5);
          return;
        }
      }
    }

    method Program(io: Backend, job: Job) returns (ret: int)
      modifies this`firstError, io
      ensures Acted(io, old(State()), Programmed(io.script, io.banks, old(io.log), job), ret)
    {
      hide Run, MuxPlan, QueuePlan, MuxOffset;
      ret := RouteTag(io, MuxOffset(job, job.rawTag), 0x2b00);
      if ret == 0 {
        ret := RouteTag(io, MuxOffset(job, job.pdafTag), 0x3000);
      }
      if ret == 0 {
        ret := StartQueue(io, job);
      }
    }

    method Submit(io: Backend, job: Job) returns (ret: int)
      modifies this, io
      ensures Moved(State(), io.log, ret) == SubmitTx(old(State()), job, io.script, io.banks, old(io.log))
    {
      hide Run, ValidateCode, Programmed, SubmitPlan;
      if firstError != 0 {
        return firstError;
      }
      if attempted || offAttempted {
        return EALREADY;
      }
      ret := ValidateCode(io.banks, job);
      if ret != 0 {
        ret := Error(ret);
        return;
      }
      attempted, this.job := true, job;
      SubmitStages(io.script, io.banks, io.log, job);
      ret := CheckOwners(io);
      if ret != 0 {
        return;
      }
      hwAttempted := true;
      ret := Program(io, job);
      if ret != 0 {
        return;
      }
      submitted := true;
    }

    method Done(status: u32, sequence: u32) returns (ret: int)
      modifies this
      ensures ret == DoneCode(old(State()), status, sequence) && State() == DoneTx(old(State()), status, sequence)
    {
      hide Group, Mask, Flagged, Join, Contains;
      if !submitted || offAttempted || firstError != 0 {
        return EINVAL;
      }
      if sequence != job.sequence {
        return ESTALE;
      }
      var tags: bv32 := 0;
      for group := 0 to 4
        invariant tags == Reported(job, status, group)
      {
        if Flagged(status, group) {
          tags := Join(tags, Group(job, group));
        }
      }
      NothingReported(completeTags);
      if tags == 0 {
        return 0;
      }
      if Contains(completeTags, tags) {
        return EALREADY;
      }
      completeTags := Join(completeTags, tags);
      ret := if completeTags == Mask(job) then 1 else 0;
    }

    method Stop(io: Backend) returns (ret: int)
      modifies this, io
      ensures Moved(State(), io.log, ret) == StopTx(old(State()), io.script, io.banks, old(io.log))
    {
      hide Run, PollOut, ValidateCode;
      if !attempted || ValidateCode(io.banks, job) != 0 {
        return EINVAL;
      }
      if offAttempted {
        return if firstError != 0 then firstError else EALREADY;
      }
      offAttempted := true;
      ghost var log := io.log;
      RunStages(io.script, io.banks, log);
      ret := Quiet(io);
      if ret == 0 {
        ret := PollIdle(io, Dma, DMA_RESET);
      }
      if ret == 0 {
        ret := ResetCore(io);
      }
      if ret == 0 {
        ret := ResetQueue(io);
      }
      if ret == 0 {
        ret := PollIdle(io, Cq, CQ_RESET);
      }
      if ret == 0 {
        ret := Toggle(io);
      }
      if ret == 0 {
        ret := Release(io);
      }
      if ret != 0 {
        return;
      }
      quiesced, submitted := true, false;
      ret := firstError;
    }
  }
}

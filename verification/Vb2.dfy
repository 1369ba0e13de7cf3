/**
 * The bridge between a capture transaction and the two video buffers it writes: who owns
 * the buffers after any sequence of submissions, completion interrupts and stops.
 */
module Vb2 {
  import opened Errno
  import opened Words
  import opened Capture
  import opened Bus
  import opened Transaction

  datatype QueueKind = VideoCapture | MetaCapture | OtherKind

  datatype VbQueue = VbQueue(id: nat, kind: QueueKind, device: nat, dmaContig: bool)

  /** A buffer as vb2 describes it; `id` is its identity. */
  datatype VbBuffer = VbBuffer(
    id: nat, queue: Option<VbQueue>, planes: nat, active: bool, dataOffset: nat, size: u64, cookie: bool, dma: u64)

  /** A buffer given back to vb2, with the fields that were set before. */
  datatype Handover =
    | Done(buffer: VbBuffer, sequence: u32, timestamp: u64, payload: u32)
    | Failed(buffer: VbBuffer, payload: u32)

  datatype Pair = Pair(raw: Option<VbBuffer>, pdaf: Option<VbBuffer>, tx: Tx, completed: bool)

  /** The pair, everything that was asked of backends, and everything that was given back. */
  datatype World = World(pair: Pair, log: seq<Entry>, handed: seq<Handover>)

  /** The device that owns DMA, the IOMMU domain that the caller verified, and the live one. */
  datatype Domain = Domain(device: Option<nat>, verified: Option<nat>, live: Option<nat>)

  datatype Result = Result(w: World, ret: int)

  // ---------------------------------------------------------------- the three operations

  function MapCode(buffer: VbBuffer, device: nat): int {
    if buffer.queue.None? || buffer.queue.value.device != device || buffer.planes != 1 || !buffer.queue.value.dmaContig
       || !buffer.active || buffer.dataOffset != 0 then EINVAL
    else if buffer.size == 0 || buffer.size > 0xffff_ffff || !buffer.cookie then EINVAL
    else 0
  }

  function Mapped(buffer: VbBuffer): Buffer {
    Buffer(buffer.dma, buffer.size % 0x1_0000_0000, 1)
  }

  predicate Usable(pair: Pair, raw: Option<VbBuffer>, pdaf: Option<VbBuffer>, d: Domain) {
    && raw.Some? && pdaf.Some? && raw.value.id != pdaf.value.id
    && pair.raw.None? && pair.pdaf.None? && !pair.tx.attempted && !pair.completed
    && d.device.Some? && d.verified.Some? && d.live == d.verified
    && raw.value.queue.Some? && pdaf.value.queue.Some? && raw.value.queue.value.id != pdaf.value.queue.value.id
    && raw.value.queue.value.kind == VideoCapture && pdaf.value.queue.value.kind == MetaCapture
  }

  function SubmitPair(w: World, raw: Option<VbBuffer>, pdaf: Option<VbBuffer>, d: Domain, job: Job, script: Script, banks: Banks): Result {
    if !Usable(w.pair, raw, pdaf, d) then Result(w, EINVAL)
    else
      var mapped := job.(raw := Mapped(raw.value), pdaf := Mapped(pdaf.value));
      if MapCode(raw.value, d.device.value) != 0 || MapCode(pdaf.value, d.device.value) != 0 || ValidateCode(banks, mapped) != 0 then
        Result(w, EINVAL)
      else
        var m := SubmitTx(w.pair.tx, mapped, script, banks, w.log);
        if m.ret != 0 && !m.tx.hwAttempted then Result(w.(pair := w.pair.(tx := m.tx), log := m.log), m.ret)
        else Result(w.(pair := w.pair.(raw := raw, pdaf := pdaf, tx := m.tx), log := m.log), m.ret)
  }

  function DonePair(w: World, status: u32, sequence: u32, timestamp: u64): Result {
    var p := w.pair;
    if p.raw.None? || p.pdaf.None? || p.completed then Result(w, EINVAL)
    else if LayoutCode(p.tx.job.rawLayout, p.raw.value.size % 0x1_0000_0000) != 0
            || LayoutCode(p.tx.job.pdafLayout, p.pdaf.value.size % 0x1_0000_0000) != 0 then Result(w, ERANGE)
    else
      var ret, tx := DoneCode(p.tx, status, sequence), DoneTx(p.tx, status, sequence);
      if ret != 1 then Result(w.(pair := p.(tx := tx)), ret)
      else
        Result(w.(pair := p.(tx := tx, completed := true),
                  handed := w.handed + [Done(p.raw.value, sequence, timestamp, tx.job.rawLayout.sizeimage),
                                        Done(p.pdaf.value, sequence, timestamp, tx.job.pdafLayout.sizeimage)]), 1)
  }

  function StopPair(w: World, script: Script, banks: Banks): Result {
    var p := w.pair;
    if p.raw.None? || p.pdaf.None? then Result(w, EINVAL)
    else
      var m := StopTx(p.tx, script, banks, w.log);
      if !m.tx.quiesced || p.completed then Result(w.(pair := p.(tx := m.tx), log := m.log), m.ret)
      else
        Result(World(p.(tx := m.tx, completed := true), m.log, w.handed + [Failed(p.raw.value, 0), Failed(p.pdaf.value, 0)]), m.ret)
  }

  // ---------------------------------------------------------------- runs

  /** One call under the owner's mutex; every call may meet a different backend. */
  datatype Step =
    | Submit(raw: Option<VbBuffer>, pdaf: Option<VbBuffer>, domain: Domain, job: Job, script: Script, banks: Banks)
    | Interrupt(status: u32, sequence: u32, timestamp: u64)
    | Stop(script: Script, banks: Banks)

  function Next(w: World, s: Step): World {
    match s
    case Submit(raw, pdaf, domain, job, script, banks) => SubmitPair(w, raw, pdaf, domain, job, script, banks).w
    case Interrupt(status, sequence, timestamp) => DonePair(w, status, sequence, timestamp).w
    case Stop(script, banks) => StopPair(w, script, banks).w
  }

  ghost predicate Run(ws: seq<World>, steps: seq<Step>) {
    && |ws| == |steps| + 1 && ws[0].pair == Pair(None, None, FRESH_TX, false) && ws[0].handed == []
    && forall i | 0 <= i < |steps| :: ws[i + 1] == Next(ws[i], steps[i])
  }

  /** Exactly this pair was given back, complete or failed. */
  predicate BothDone(p: Pair, handed: seq<Handover>) {
    && p.raw.Some? && p.pdaf.Some? && |handed| == 2 && handed[0].Done?
    && handed == [Done(p.raw.value, p.tx.job.sequence, handed[0].timestamp, p.tx.job.rawLayout.sizeimage),
                  Done(p.pdaf.value, p.tx.job.sequence, handed[0].timestamp, p.tx.job.pdafLayout.sizeimage)]
  }

  predicate BothFailed(p: Pair, handed: seq<Handover>) {
    p.raw.Some? && p.pdaf.Some? && handed == [Failed(p.raw.value, 0), Failed(p.pdaf.value, 0)]
  }

  /** What the hardware was given for a plane is this very buffer: one active contiguous plane of the right queue that holds its layout. */
  predicate Given(buffer: VbBuffer, kind: QueueKind, given: Buffer, layout: Layout) {
    && buffer.queue.Some? && buffer.queue.value.kind == kind && buffer.queue.value.dmaContig && buffer.planes == 1
    && buffer.active && buffer.dataOffset == 0 && buffer.cookie && 0 < buffer.size <= 0xffff_ffff
    && given == Buffer(buffer.dma, buffer.size, 1) && LayoutCode(layout, buffer.size) == 0
  }

  ghost predicate Inv(w: World) {
    var p := w.pair;
    && (p.raw.Some? <==> p.pdaf.Some?) && (p.raw.Some? <==> p.tx.hwAttempted)
    && (p.raw.Some? ==> p.tx.attempted && p.raw.value.id != p.pdaf.value.id && p.tx.job.rawTag <= 7 && p.tx.job.pdafTag <= 7)
    && (p.raw.Some? ==> Given(p.raw.value, VideoCapture, p.tx.job.raw, p.tx.job.rawLayout)
                        && Given(p.pdaf.value, MetaCapture, p.tx.job.pdaf, p.tx.job.pdafLayout))
    && (!p.tx.attempted ==> !p.tx.hwAttempted && p.tx.firstError == 0 && !p.tx.offAttempted)
    && (!p.tx.hwAttempted ==> !p.tx.submitted && p.tx.completeTags == 0 && !p.tx.quiesced)
    && (p.tx.submitted ==> p.tx.hwAttempted) && (p.tx.submitted && !p.tx.offAttempted ==> p.tx.firstError == 0)
    && (p.tx.quiesced ==> p.tx.offAttempted)
    && (!p.completed ==> w.handed == [] && !p.tx.quiesced)
    && (p.completed ==> (BothDone(p, w.handed) && p.tx.completeTags == Mask(p.tx.job)) || (BothFailed(p, w.handed) && p.tx.quiesced))
  }

  lemma SubmitKeeps(w: World, s: Step)
    requires Inv(w) && s.Submit?
    ensures Inv(Next(w, s))
    ensures w.pair.tx.hwAttempted ==> Next(w, s) == w
  {
    hide Bus.Run, ValidateCode, SubmitPlan, MapCode, Mapped, Mask, Given;
    if s.raw.Some? && s.pdaf.Some? {
      var mapped := s.job.(raw := Mapped(s.raw.value), pdaf := Mapped(s.pdaf.value));
      HwBeforeSuccess(w.pair.tx, mapped, s.script, s.banks, w.log);
      if ValidateCode(s.banks, mapped) == 0 {
        ValidTags(s.banks, mapped);
        if Usable(w.pair, s.raw, s.pdaf, s.domain) && MapCode(s.raw.value, s.domain.device.value) == 0
           && MapCode(s.pdaf.value, s.domain.device.value) == 0 {
          MappedGiven(s.raw.value, s.domain.device.value, VideoCapture, mapped.rawLayout);
          MappedGiven(s.pdaf.value, s.domain.device.value, MetaCapture, mapped.pdafLayout);
        }
      }
    }
  }

  lemma MappedGiven(buffer: VbBuffer, device: nat, kind: QueueKind, layout: Layout)
    requires MapCode(buffer, device) == 0 && buffer.queue.value.kind == kind && LayoutCode(layout, Mapped(buffer).size) == 0
    ensures Given(buffer, kind, Mapped(buffer), layout)
  {
    hide LayoutCode;
  }

  lemma ValidTags(banks: Banks, job: Job)
    requires ValidateCode(banks, job) == 0
    ensures job.rawTag <= 7 && job.pdafTag <= 7
    ensures LayoutCode(job.rawLayout, job.raw.size) == 0 && LayoutCode(job.pdafLayout, job.pdaf.size) == 0
  {
    hide LayoutCode, GroupsPartition, InRange, Overlap, Geometry;
  }

  /** A submission that succeeded passed its checks. */
  lemma HwBeforeSuccess(tx: Tx, job: Job, script: Script, banks: Banks, log: seq<Entry>)
    ensures SubmitTx(tx, job, script, banks, log).ret == 0 ==> SubmitTx(tx, job, script, banks, log).tx.hwAttempted
  {
    hide Bus.Run, ValidateCode, Programmed, SubmitPlan;
    SubmitStages(script, banks, log, job);
  }

  lemma InterruptKeeps(w: World, s: Step)
    requires Inv(w) && s.Interrupt?
    ensures Inv(Next(w, s))
  {
    hide LayoutCode, Reported, Join, Contains, Mask, Given;
  }

  lemma StopKeeps(w: World, s: Step)
    requires Inv(w) && s.Stop?
    ensures Inv(Next(w, s))
  {
    hide Bus.Run, ValidateCode, Mask, Given;
  }

  /** What no step changes: the first error, and once hardware was attempted the pinned buffers, the job, and anything given back. */
  ghost predicate Keeps(v: World, w: World) {
    && Inv(w)
    && (v.pair.tx.firstError != 0 ==> w.pair.tx.firstError == v.pair.tx.firstError)
    && (v.pair.tx.hwAttempted ==> w.pair.tx.hwAttempted && w.pair.raw == v.pair.raw && w.pair.pdaf == v.pair.pdaf
                                  && w.pair.tx.job == v.pair.tx.job)
    && (v.pair.completed ==> w.pair.completed && w.handed == v.handed)
  }

  lemma StepKeeps(w: World, s: Step)
    requires Inv(w)
    ensures Keeps(w, Next(w, s))
  {
    hide Bus.Run, ValidateCode, LayoutCode, Reported, Join, Contains, Mask, BothDone, BothFailed, Given;
    match s
    case Submit(_, _, _, _, _, _) => SubmitKeeps(w, s);
    case Interrupt(_, _, _) => InterruptKeeps(w, s);
    case Stop(_, _) => StopKeeps(w, s);
  }

  lemma {:induction false} RunKeeps(ws: seq<World>, steps: seq<Step>, i: nat, j: nat)
    requires Run(ws, steps) && i <= j < |ws|
    ensures Inv(ws[i]) && Keeps(ws[i], ws[j])
    decreases j
  {
    hide Next, BothDone, BothFailed;
    if i < j {
      RunKeeps(ws, steps, i, j - 1);
      StepKeeps(ws[j - 1], steps[j - 1]);
    } else if i > 0 {
      RunKeeps(ws, steps, i - 1, i - 1);
      StepKeeps(ws[i - 1], steps[i - 1]);
    }
  }

  // ---------------------------------------------------------------- when buffers come back

  /** Some interrupt before `i`, under the submitted job's sequence, flagged a group with this tag. */
  ghost predicate TagReported(ws: seq<World>, steps: seq<Step>, i: nat, tag: bv32) {
    exists k | 0 <= k < i && k < |steps| && k < |ws| :: Reports(ws[k], steps[k], tag)
  }

  predicate Reports(w: World, s: Step, tag: bv32) {
    && s.Interrupt? && w.pair.tx.submitted && s.sequence == w.pair.tx.job.sequence
    && exists g: nat | g < 4 :: Bit(s.status, 16 + g) == 1 && HasTag(Group(w.pair.tx.job, g), tag)
  }

  predicate HasTag(tags: bv32, tag: bv32) {
    Meet(tag, tags) != 0
  }

  lemma JoinTag(a: bv32, b: bv32, tag: bv32)
    ensures HasTag(Join(a, b), tag) ==> HasTag(a, tag) || HasTag(b, tag)
    ensures !HasTag(0, tag)
  {
    hide Meet, Join;
    Distribute(tag, a, b);
    NoBits(Meet(tag, a), Meet(tag, b));
    MeetZero(tag);
  }

  lemma MeetZero(tag: bv32)
    ensures Meet(tag, 0) == 0
  {}

  lemma {:induction false} ReportedTag(job: Job, status: u32, groups: nat, tag: bv32)
    requires groups <= 4 && HasTag(Reported(job, status, groups), tag)
    ensures exists g: nat | g < groups :: Bit(status, 16 + g) == 1 && HasTag(Group(job, g), tag)
  {
    hide Flagged, HasTag, Join, Group, Bit;
    JoinTag(0, 0, tag);
    var g := groups - 1;
    FlagMeans(status, g);
    JoinTag(Reported(job, status, g), Group(job, g), tag);
    if HasTag(Reported(job, status, g), tag) {
      ReportedTag(job, status, g, tag);
    }
  }

  /** A tag is complete only if some interrupt of the run reported it. */
  lemma {:induction false} CompleteReported(ws: seq<World>, steps: seq<Step>, i: nat, tag: bv32)
    requires Run(ws, steps) && i < |ws| && HasTag(ws[i].pair.tx.completeTags, tag)
    ensures TagReported(ws, steps, i, tag)
  {
    hide Inv, Next, HasTag, Reports;
    JoinTag(0, 0, tag);
    if i > 0 {
      var w, s := ws[i - 1], steps[i - 1];
      if HasTag(w.pair.tx.completeTags, tag) {
        CompleteReported(ws, steps, i - 1, tag);
        var k :| 0 <= k < i - 1 && k < |steps| && k < |ws| && Reports(ws[k], steps[k], tag);
      } else {
        NewTag(w, s, tag);
      }
    }
  }

  lemma NewTag(w: World, s: Step, tag: bv32)
    requires !HasTag(w.pair.tx.completeTags, tag) && HasTag(Next(w, s).pair.tx.completeTags, tag)
    ensures Reports(w, s, tag)
  {
    hide Bus.Run, ValidateCode, LayoutCode, Join, Contains, Mask, HasTag, Reported, Flagged, Group, Bit;
    assert s.Interrupt?;
    JoinTag(w.pair.tx.completeTags, Reported(w.pair.tx.job, s.status, 4), tag);
    ReportedTag(w.pair.tx.job, s.status, 4, tag);
  }

  lemma MaskTags(job: Job)
    requires job.rawTag <= 7 && job.pdafTag <= 7
    ensures HasTag(Mask(job), TagBit(job.rawTag)) && HasTag(Mask(job), TagBit(job.pdafTag))
  {
    hide TagBit, HasTag;
    TagBitSet(job.rawTag);
    TagBitSet(job.pdafTag);
    TagBits(TagBit(job.rawTag), TagBit(job.pdafTag));
  }

  lemma TagBitSet(tag: u32)
    requires tag <= 7
    ensures TagBit(tag) != 0
  {}

  lemma TagBits(a: bv32, b: bv32)
    requires a != 0 && b != 0
    ensures HasTag(a | b, a) && HasTag(a | b, b)
  {}

  /** The stop that quiesced the hardware: both units seen idle and the clamp released. */
  ghost predicate QuietStop(v: World, s: Step, w: World) {
    s.Stop? && exists d: nat, c: nat :: Quiesced(v.log, w.log, d, c)
  }

  lemma StopIsQuiet(w: World, s: Step)
    requires !w.pair.tx.quiesced && Next(w, s).pair.tx.quiesced
    ensures QuietStop(w, s, Next(w, s))
  {
    hide Bus.Run, LayoutCode, Reported, Join, Contains, Mask, PlanesFit, GroupsPartition, InRange, Overlap, Geometry, Quiesced, BanksFit;
    assert s.Stop?;
    var d, c := StopQuiesced(s.script, s.banks, w.log);
    assert Quiesced(w.log, Next(w, s).log, d, c);
  }

  lemma {:induction false} QuiescedBefore(ws: seq<World>, steps: seq<Step>, i: nat)
    requires Run(ws, steps) && i < |ws| && ws[i].pair.tx.quiesced
    ensures exists k | 0 <= k < i :: QuietStop(ws[k], steps[k], ws[k + 1])
  {
    hide Next, QuietStop;
    if i > 0 {
      if ws[i - 1].pair.tx.quiesced {
        QuiescedBefore(ws, steps, i - 1);
      } else {
        StopIsQuiet(ws[i - 1], steps[i - 1]);
        assert QuietStop(ws[i - 1], steps[i - 1], ws[i - 1 + 1]);
      }
    }
  }

  /**
   * In every run each buffer of the pair is given back at most once, both together: complete only after
   * interrupts of the submitted sequence reported both tags, failed only after a stop that
   * quiesced the hardware.  Otherwise, once hardware was attempted, the pair stays pinned; and what the
   * hardware was given for each plane is the address and size of that plane's own buffer.
   */
  lemma BufferOwnership(ws: seq<World>, steps: seq<Step>, i: nat, j: nat)
    requires Run(ws, steps) && i <= j < |ws|
    ensures var p, handed := ws[j].pair, ws[j].handed;
            && (handed == [] || ((BothDone(p, handed) || BothFailed(p, handed)) && p.raw.value.id != p.pdaf.value.id))
            && (ws[i].handed != [] ==> handed == ws[i].handed)
            && (p.raw.Some? && p.pdaf.Some? ==> Given(p.raw.value, VideoCapture, p.tx.job.raw, p.tx.job.rawLayout)
                                                && Given(p.pdaf.value, MetaCapture, p.tx.job.pdaf, p.tx.job.pdafLayout))
            && (ws[i].pair.tx.hwAttempted ==> p.raw.Some? && p.raw == ws[i].pair.raw && p.pdaf.Some? && p.pdaf == ws[i].pair.pdaf)
            && (handed != [] && BothDone(p, handed) ==>
                  TagReported(ws, steps, j, TagBit(p.tx.job.rawTag)) && TagReported(ws, steps, j, TagBit(p.tx.job.pdafTag)))
            && (handed != [] && BothFailed(p, handed) ==> exists k | 0 <= k < j :: QuietStop(ws[k], steps[k], ws[k + 1]))
  {
    hide Next, TagReported, QuietStop, TagBit, HasTag, Mask, Given;
    RunKeeps(ws, steps, i, j);
    var p, handed := ws[j].pair, ws[j].handed;
    if handed != [] && BothDone(p, handed) {
      MaskTags(p.tx.job);
      CompleteReported(ws, steps, j, TagBit(p.tx.job.rawTag));
      CompleteReported(ws, steps, j, TagBit(p.tx.job.pdafTag));
    }
    if handed != [] && BothFailed(p, handed) {
      QuiescedBefore(ws, steps, j);
    }
  }

  // ---------------------------------------------------------------- nothing is withheld

  /** Against a willing backend a usable pair whose own buffers fit the job is submitted and pinned. */
  lemma WillingPair(w: World, raw: VbBuffer, pdaf: VbBuffer, d: Domain, job: Job, script: Script, banks: Banks)
    requires Inv(w) && Usable(w.pair, Some(raw), Some(pdaf), d) && Willing(script)
    requires MapCode(raw, d.device.value) == 0 && MapCode(pdaf, d.device.value) == 0
    requires ValidateCode(banks, job.(raw := Buffer(raw.dma, raw.size, 1), pdaf := Buffer(pdaf.dma, pdaf.size, 1))) == 0
    ensures var r := SubmitPair(w, Some(raw), Some(pdaf), d, job, script, banks);
            && r.ret == 0 && r.w.pair.raw == Some(raw) && r.w.pair.pdaf == Some(pdaf) && r.w.pair.tx.submitted
            && r.w.pair.tx.job == job.(raw := Buffer(raw.dma, raw.size, 1), pdaf := Buffer(pdaf.dma, pdaf.size, 1))
  {
    hide Bus.Run, ValidateCode, SubmitTx, Willing;
    MappedIs(raw, d.device.value);
    MappedIs(pdaf, d.device.value);
    WillingSubmit(w.pair.tx, job.(raw := Mapped(raw), pdaf := Mapped(pdaf)), script, banks, w.log);
  }

  lemma MappedIs(buffer: VbBuffer, device: nat)
    requires MapCode(buffer, device) == 0
    ensures Mapped(buffer) == Buffer(buffer.dma, buffer.size, 1)
  {}

  /** What a stop needs to know of the pinned job, in every run. */
  ghost predicate Sound(w: World) {
    var p := w.pair;
    && Covered(p.tx.completeTags, Mask(p.tx.job)) && GroupsCovered(p.tx.job)
    && (p.tx.hwAttempted && p.tx.completeTags == Mask(p.tx.job) ==> p.completed)
  }

  predicate GroupsCovered(job: Job) {
    Covered(Group(job, 0), Mask(job)) && Covered(Group(job, 1), Mask(job)) && Covered(Group(job, 2), Mask(job)) && Covered(Group(job, 3), Mask(job))
  }

  lemma CoveredJoin(a: bv32, b: bv32, m: bv32)
    requires Covered(a, m) && Covered(b, m)
    ensures Covered(Join(a, b), m)
  {}

  lemma ZeroCovered(m: bv32)
    ensures Covered(0, m)
  {}

  lemma {:induction false} ReportedCovered(job: Job, status: u32, groups: nat)
    requires GroupsCovered(job) && groups <= 4
    ensures Covered(Reported(job, status, groups), Mask(job))
  {
    hide Covered, Mask, Group, Flagged, Join;
    ZeroCovered(Mask(job));
    if groups > 0 {
      ReportedCovered(job, status, groups - 1);
      CoveredJoin(Reported(job, status, groups - 1), Group(job, groups - 1), Mask(job));
    }
  }

  lemma PartitionCovered(banks: Banks, job: Job)
    requires ValidateCode(banks, job) == 0
    ensures GroupsCovered(job)
  {
    hide PlanesFit, InRange, Overlap, Geometry, Mask, Group, Covered, Disjoint, Join;
  }

  lemma MaskNotEmpty(job: Job)
    requires job.rawTag <= 7 && job.pdafTag <= 7
    ensures Mask(job) != 0
  {
    hide Mask, TagBit, HasTag;
    MaskTags(job);
    JoinTag(0, 0, TagBit(job.rawTag));
  }

  lemma FreshSound()
    ensures Sound(World(Pair(None, None, FRESH_TX, false), [], []))
  {
    hide Mask;
    ZeroCovered(Mask(NO_JOB));
  }

  lemma SubmitSound(w: World, s: Step)
    requires Inv(w) && Sound(w) && s.Submit?
    ensures Sound(Next(w, s))
  {
    hide Bus.Run, ValidateCode, SubmitPlan, MapCode, Mapped, Mask, Given, Covered, GroupsCovered;
    if s.raw.Some? && s.pdaf.Some? {
      var mapped := s.job.(raw := Mapped(s.raw.value), pdaf := Mapped(s.pdaf.value));
      ZeroCovered(Mask(mapped));
      if ValidateCode(s.banks, mapped) == 0 {
        PartitionCovered(s.banks, mapped);
        ValidTags(s.banks, mapped);
        MaskNotEmpty(mapped);
      }
    }
  }

  lemma InterruptSound(w: World, s: Step)
    requires Inv(w) && Sound(w) && s.Interrupt?
    ensures Sound(Next(w, s))
  {
    hide LayoutCode, Reported, Join, Contains, Mask, Given, Covered, GroupsCovered, BothDone, BothFailed;
    var tx := w.pair.tx;
    ReportedCovered(tx.job, s.status, 4);
    CoveredJoin(tx.completeTags, Reported(tx.job, s.status, 4), Mask(tx.job));
    NothingReported(tx.completeTags);
  }

  lemma StopSound(w: World, s: Step)
    requires Inv(w) && Sound(w) && s.Stop?
    ensures Sound(Next(w, s))
  {
    hide Bus.Run, ValidateCode, Mask, Given, Covered, GroupsCovered, BothDone, BothFailed;
  }

  /** What later steps never take back. */
  ghost predicate Later(v: World, w: World) {
    && Keeps(v, w) && Sound(w) && (v.pair.tx.offAttempted ==> w.pair.tx.offAttempted)
    && (v.pair.tx.hwAttempted ==> Contains(w.pair.tx.completeTags, v.pair.tx.completeTags))
  }

  lemma ContainsSelf(a: bv32, b: bv32)
    ensures Contains(a, a) && Contains(Join(a, b), a)
  {}

  lemma ContainsTrans(a: bv32, b: bv32, c: bv32)
    requires Contains(b, a) && Contains(c, b)
    ensures Contains(c, a)
  {}

  lemma StepLater(w: World, s: Step)
    requires Inv(w) && Sound(w)
    ensures Later(w, Next(w, s))
  {
    hide Bus.Run, ValidateCode, LayoutCode, Reported, Join, Contains, Mask, Given, Sound, Keeps;
    StepKeeps(w, s);
    ContainsSelf(w.pair.tx.completeTags, 0);
    match s
    case Submit(_, _, _, _, _, _) => SubmitSound(w, s);
    case Interrupt(status, _, _) =>
      InterruptSound(w, s);
      ContainsSelf(w.pair.tx.completeTags, Reported(w.pair.tx.job, status, 4));
    case Stop(_, _) => StopSound(w, s);
  }

  lemma {:induction false} RunLater(ws: seq<World>, steps: seq<Step>, i: nat, j: nat)
    requires Run(ws, steps) && i <= j < |ws|
    ensures Inv(ws[i]) && Sound(ws[i]) && Later(ws[i], ws[j])
    decreases j
  {
    hide Next, BothDone, BothFailed, Contains, Sound, Given;
    if i < j {
      RunLater(ws, steps, i, j - 1);
      StepLater(ws[j - 1], steps[j - 1]);
      if ws[i].pair.tx.hwAttempted {
        ContainsTrans(ws[i].pair.tx.completeTags, ws[j - 1].pair.tx.completeTags, ws[j].pair.tx.completeTags);
      }
    } else {
      ContainsSelf(ws[i].pair.tx.completeTags, 0);
      if i == 0 {
        SoundAnyLog(ws[0]);
      } else {
        RunLater(ws, steps, i - 1, i - 1);
        StepLater(ws[i - 1], steps[i - 1]);
      }
    }
  }

  lemma SoundAnyLog(w: World)
    requires w.pair == Pair(None, None, FRESH_TX, false)
    ensures Sound(w)
  {
    hide Mask;
    FreshSound();
  }

  lemma {:induction false} FlaggedReported(job: Job, status: u32, groups: nat, g: nat, tag: bv32)
    requires g < groups <= 4 && Bit(status, 16 + g) == 1 && HasTag(Group(job, g), tag)
    ensures HasTag(Reported(job, status, groups), tag)
  {
    hide Flagged, HasTag, Join, Group, Bit;
    var last := groups - 1;
    FlagMeans(status, last);
    TagJoins(Reported(job, status, last), Group(job, last), tag);
    if g < last {
      FlaggedReported(job, status, last, g, tag);
    }
  }

  lemma TagJoins(a: bv32, b: bv32, tag: bv32)
    ensures HasTag(a, tag) ==> HasTag(Join(a, b), tag)
    ensures HasTag(b, tag) ==> HasTag(Join(a, b), tag)
  {
    hide Meet, Join;
    Distribute(tag, a, b);
    NoBits(Meet(tag, a), Meet(tag, b));
  }

  lemma TagContained(all: bv32, tags: bv32, tag: bv32)
    requires Contains(all, tags) && HasTag(tags, tag)
    ensures HasTag(all, tag)
  {}

  /** A report under the submitted sequence counts, unless the pair was given back before. */
  lemma ReportCounts(w: World, s: Step, tag: bv32)
    requires Inv(w) && Reports(w, s, tag) && !w.pair.tx.offAttempted && !w.pair.completed
    ensures HasTag(Next(w, s).pair.tx.completeTags, tag)
  {
    hide LayoutCode, Reported, Join, Contains, Mask, HasTag, Group, Bit;
    var tx := w.pair.tx;
    var g: nat :| g < 4 && Bit(s.status, 16 + g) == 1 && HasTag(Group(tx.job, g), tag);
    var tags := Reported(tx.job, s.status, 4);
    FlaggedReported(tx.job, s.status, 4, g, tag);
    TagJoins(tx.completeTags, tags, tag);
    JoinTag(0, 0, tag);
    if Contains(tx.completeTags, tags) {
      TagContained(tx.completeTags, tags, tag);
    }
    SmallSize(w.pair.raw.value.size);
    SmallSize(w.pair.pdaf.value.size);
  }

  lemma SmallSize(size: u64)
    ensures size <= 0xffff_ffff ==> size % 0x1_0000_0000 == size
  {}

  lemma {:induction false} ReportedComplete(ws: seq<World>, steps: seq<Step>, i: nat, tag: bv32)
    requires Run(ws, steps) && i < |ws| && TagReported(ws, steps, i, tag) && !ws[i].pair.tx.offAttempted
    ensures ws[i].pair.completed || HasTag(ws[i].pair.tx.completeTags, tag)
  {
    hide Next, Contains, HasTag, Sound, Given, BothDone, BothFailed, Inv;
    var k :| 0 <= k < i && k < |steps| && k < |ws| && Reports(ws[k], steps[k], tag);
    RunLater(ws, steps, k, i);
    RunLater(ws, steps, k, k + 1);
    RunLater(ws, steps, k + 1, i);
    SubmittedAttempted(ws[k]);
    if !ws[k].pair.completed {
      ReportCounts(ws[k], steps[k], tag);
      TagContained(ws[i].pair.tx.completeTags, ws[k + 1].pair.tx.completeTags, tag);
    }
  }

  lemma SubmittedAttempted(w: World)
    requires Inv(w)
    ensures w.pair.tx.submitted ==> w.pair.tx.hwAttempted
  {}

  lemma TagPresent(tags: bv32, tag: u32)
    requires tag <= 7 && HasTag(tags, TagBit(tag))
    ensures Contains(tags, TagBit(tag))
  {}

  lemma BothPresent(tags: bv32, a: bv32, b: bv32)
    requires Contains(tags, a) && Contains(tags, b) && Covered(tags, Join(a, b))
    ensures tags == Join(a, b)
  {}

  lemma AllTags(w: World)
    requires Inv(w) && Sound(w) && w.pair.tx.hwAttempted
    requires HasTag(w.pair.tx.completeTags, TagBit(w.pair.tx.job.rawTag)) && HasTag(w.pair.tx.completeTags, TagBit(w.pair.tx.job.pdafTag))
    ensures w.pair.completed
  {
    hide HasTag, TagBit, Contains, Covered, Join, Given, BothDone, BothFailed, GroupsCovered;
    var job := w.pair.tx.job;
    TagPresent(w.pair.tx.completeTags, job.rawTag);
    TagPresent(w.pair.tx.completeTags, job.pdafTag);
    assert Mask(job) == Join(TagBit(job.rawTag), TagBit(job.pdafTag)) by {
      MaskJoins(job);
    }
    BothPresent(w.pair.tx.completeTags, TagBit(job.rawTag), TagBit(job.pdafTag));
  }

  lemma MaskJoins(job: Job)
    ensures Mask(job) == Join(TagBit(job.rawTag), TagBit(job.pdafTag))
  {
    hide TagBit;
  }

  /** A transaction whose tags are all complete reports completion no second time. */
  lemma DoneOnce(tx: Tx, status: u32, sequence: u32)
    requires GroupsCovered(tx.job) && tx.completeTags == Mask(tx.job)
    ensures DoneCode(tx, status, sequence) != 1
    ensures DoneCode(tx, status, sequence) == 0 ==> Reported(tx.job, status, 4) == 0
  {
    hide Reported, Mask, GroupsCovered, Covered, Contains;
    ReportedCovered(tx.job, status, 4);
    CoveredContains(Mask(tx.job), Reported(tx.job, status, 4));
  }

  lemma CoveredContains(all: bv32, tags: bv32)
    requires Covered(tags, all)
    ensures Contains(all, tags)
  {}

  /** Whatever a submission changes, it changes only for distinct live buffers of the two queues, in the verified domain. */
  lemma SubmitGuarded(w: World, raw: Option<VbBuffer>, pdaf: Option<VbBuffer>, d: Domain, job: Job, script: Script, banks: Banks)
    requires SubmitPair(w, raw, pdaf, d, job, script, banks).w != w
    ensures raw.Some? && pdaf.Some? && raw.value.id != pdaf.value.id && raw.value.queue.Some? && pdaf.value.queue.Some?
    ensures raw.value.queue.value.id != pdaf.value.queue.value.id
    ensures d.device.Some? && d.verified.Some? && d.live == d.verified
    ensures raw.value.queue.value.device == d.device.value == pdaf.value.queue.value.device
    ensures w.pair.raw.None? && w.pair.pdaf.None? && !w.pair.tx.attempted && !w.pair.completed
    ensures raw.value.active && pdaf.value.active && raw.value.cookie && pdaf.value.cookie
  {
    hide SubmitTx, ValidateCode;
  }

  /**
   * The converse of ownership: once interrupts under the submitted sequence have reported both tags, and no stop
   * was tried, both buffers have been given back as complete.
   */
  lemma CompletionDelivered(ws: seq<World>, steps: seq<Step>, i: nat)
    requires Run(ws, steps) && i < |ws| && !ws[i].pair.tx.offAttempted && ws[i].pair.tx.hwAttempted
    requires TagReported(ws, steps, i, TagBit(ws[i].pair.tx.job.rawTag)) && TagReported(ws, steps, i, TagBit(ws[i].pair.tx.job.pdafTag))
    ensures BothDone(ws[i].pair, ws[i].handed)
  {
    hide Next, TagReported, TagBit, HasTag, Sound, Contains, Given, Mask;
    RunLater(ws, steps, i, i);
    ReportedComplete(ws, steps, i, TagBit(ws[i].pair.tx.job.rawTag));
    ReportedComplete(ws, steps, i, TagBit(ws[i].pair.tx.job.pdafTag));
    if !ws[i].pair.completed {
      AllTags(ws[i]);
    }
  }

  /** The first stop of a pinned pair, against a willing and idle backend, gives back what was not given back before. */
  lemma WillingRelease(w: World, script: Script, banks: Banks)
    requires Inv(w) && w.pair.raw.Some? && !w.pair.tx.offAttempted && ValidateCode(banks, w.pair.tx.job) == 0 && WillingIdle(script)
    ensures var r := StopPair(w, script, banks);
            && r.w.pair.tx.quiesced && r.ret == w.pair.tx.firstError
            && r.w.handed == if w.handed == [] then [Failed(w.pair.raw.value, 0), Failed(w.pair.pdaf.value, 0)] else w.handed
  {
    hide StopTx, ValidateCode, WillingIdle, Given, Mask;
    WillingStop(w.pair.tx, script, banks, w.log);
  }

  // ---------------------------------------------------------------- the pair as an object

  class BufferPair {
    var raw: Option<VbBuffer>
    var pdaf: Option<VbBuffer>
    const tx: CaptureTransaction
    var completed: bool
    var handed: seq<Handover>

    function State(log: seq<Entry>): World
      reads this, tx
    {
      World(Pair(raw, pdaf, tx.State(), completed), log, handed)
    }

    constructor ()
      ensures fresh(tx) && State([]) == World(Pair(None, None, FRESH_TX, false), [], [])
    {
      raw, pdaf, completed, handed := None, None, false, [];
      tx := new CaptureTransaction();
    }

    method Submit(raw: Option<VbBuffer>, pdaf: Option<VbBuffer>, d: Domain, io: Backend, job: Job) returns (ret: int)
      modifies this, tx, io
      ensures Result(State(io.log), ret) == SubmitPair(old(State(io.log)), raw, pdaf, d, job, io.script, io.banks)
    {
      hide Bus.Run, ValidateCode, MapCode, Mapped, SubmitTx;
      if !Usable(Pair(this.raw, this.pdaf, tx.State(), completed), raw, pdaf, d) {
        return EINVAL;
      }
      var mapped := job.(raw := Mapped(raw.value), pdaf := Mapped(pdaf.value));
      ret := MapCode(raw.value, d.device.value);
      if ret == 0 {
        ret := MapCode(pdaf.value, d.device.value);
      }
      if ret == 0 {
        ret := ValidateCode(io.banks, mapped);
      }
      if ret != 0 {
        CodesAgree(raw.value, pdaf.value, d.device.value, io.banks, mapped);
        return;
      }
      this.raw, this.pdaf := raw, pdaf;
      ret := tx.Submit(io, mapped);
      if ret != 0 && !tx.hwAttempted {
        this.raw, this.pdaf := None, None;
      }
    }

    method Done(status: u32, sequence: u32, timestamp: u64, ghost log: seq<Entry>) returns (ret: int)
      modifies this, tx
      ensures Result(State(log), ret) == DonePair(old(State(log)), status, sequence, timestamp)
    {
      hide LayoutCode, DoneTx, DoneCode;
      if raw.None? || pdaf.None? || completed {
        return EINVAL;
      }
      if LayoutCode(tx.job.rawLayout, raw.value.size % 0x1_0000_0000) != 0
         || LayoutCode(tx.job.pdafLayout, pdaf.value.size % 0x1_0000_0000) != 0 {
        return ERANGE;
      }
      ret := tx.Done(status, sequence);
      if ret != 1 {
        return;
      }
      completed := true;
      handed := handed + [Handover.Done(raw.value, sequence, timestamp, tx.job.rawLayout.sizeimage),
                          Handover.Done(pdaf.value, sequence, timestamp, tx.job.pdafLayout.sizeimage)];
    }

    method Stop(io: Backend) returns (ret: int)
      modifies this, tx, io
      ensures Result(State(io.log), ret) == StopPair(old(State(io.log)), io.script, io.banks)
    {
      hide StopTx;
      if raw.None? || pdaf.None? {
        return EINVAL;
      }
      ret := tx.Stop(io);
      if !tx.quiesced {
        return;
      }
      if !completed {
        completed := true;
        handed := handed + [Failed(raw.value, 0), Failed(pdaf.value, 0)];
      }
    }
  }

  lemma CodesAgree(raw: VbBuffer, pdaf: VbBuffer, device: nat, banks: Banks, job: Job)
    ensures MapCode(raw, device) in {0, EINVAL} && MapCode(pdaf, device) in {0, EINVAL} && ValidateCode(banks, job) in {0, EINVAL}
  {
    hide PlanesFit, GroupsPartition, InRange, Overlap, Geometry, BanksFit;
  }
}

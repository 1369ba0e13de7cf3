/**
 * Bus operations against an arbitrary backend: `script` is whatever it will answer to its n-th
 * call.  Plans of operations stop at their first failure.
 */
module Bus {
  import opened Errno
  import opened Words
  import opened Capture

  datatype Region = Central | Dma | Cq | Seninf
  datatype Party = Resources | Iommu | Route | Irq | Composer | Stopped

  datatype Call =
    | Verify(party: Party)
    | Read(region: Region, offset: nat)
    | Write(region: Region, offset: nat, value: u32)
    | Barrier
    | Delay
    | Clamp(common: nat, enable: bool)

  datatype Answer = Answer(ret: int, value: u32)
  datatype Entry = Entry(call: Call, answer: Answer)
  type Script = nat -> Answer

  const POLLS: nat := 100000
  const SMI_COMMON: nat := 31

  // ---------------------------------------------------------------- bus operations

  /** What the drivers do to the bus; each is one or more backend calls. */
  datatype Op =
    | Check(party: Party)
    | Put(region: Region, offset: nat, value: u32)
    | Update(region: Region, offset: nat, mask: u32, value: u32)
    | Fence
    | SetClamp(enable: bool)
    | AwaitIdle(region: Region, offset: nat)

  datatype Out = Out(log: seq<Entry>, ret: int)

  function BankSize(banks: Banks, region: Region): nat {
    match region
    case Central => banks.central
    case Dma => banks.dma
    case Cq => banks.cq
    case Seninf => banks.seninf
  }

  predicate Within(banks: Banks, region: Region, offset: nat) {
    BankSize(banks, region) >= 4 && offset % 4 == 0 && offset <= BankSize(banks, region) - 4
  }

  /** `word` with the bits of `mask` replaced by `value`. */
  function Merge(word: u32, mask: u32, value: u32): u32 {
    OrWord(And(word, Not(mask)), value);
    Or(And(word, Not(mask)), value)
  }

  predicate Confined(value: u32, mask: u32) {
    And(value, Not(mask)) == 0
  }

  predicate IdleBit(value: u32) {
    And(value, 2) != 0
  }

  /** Bit by bit, `written` is `value` under the mask and `read` elsewhere. */
  ghost predicate Merged(read: u32, mask: u32, value: u32, written: u32) {
    forall i | 0 <= i < 32 :: Bit(written, i) == if Bit(mask, i) == 1 then Bit(value, i) else Bit(read, i)
  }

  lemma ConfinedBit(value: u32, mask: u32, i: nat)
    requires Confined(value, mask) && i < 32
    ensures Bit(value, i) == 1 ==> Bit(mask, i) == 1
  {
    hide Bit, And, Not;
    AndBit(value, Not(mask), i);
    NotBit(mask, i);
    ZeroBit(i);
    BitRange(mask, i);
  }

  lemma {:induction false} BitRange(a: nat, i: nat)
    ensures Bit(a, i) == 0 || Bit(a, i) == 1
  {
    if i > 0 {
      BitRange(a / 2, i - 1);
    }
  }

  lemma MergeBits(word: u32, mask: u32, value: u32)
    requires Confined(value, mask)
    ensures Merged(word, mask, value, Merge(word, mask, value))
  {
    hide Bit, And, Or, Not, Confined;
    forall i | 0 <= i < 32 ensures Bit(Merge(word, mask, value), i) == if Bit(mask, i) == 1 then Bit(value, i) else Bit(word, i) {
      OrBit(And(word, Not(mask)), value, i);
      AndBit(word, Not(mask), i);
      NotBit(mask, i);
      ConfinedBit(value, mask, i);
      BitRange(mask, i);
      BitRange(word, i);
      BitRange(value, i);
    }
  }

  /** The bit that ends a poll. */
  lemma IdleMeans(value: u32)
    ensures IdleBit(value) <==> value / 2 % 2 == 1
  {
    hide And;
    assert Shl(1, 1) == 2;
    AndOneBit(value, 1);
  }

  function Ask(script: Script, log: seq<Entry>, call: Call): Out {
    Out(log + [Entry(call, script(|log|))], script(|log|).ret)
  }

  function PutOut(script: Script, banks: Banks, log: seq<Entry>, region: Region, offset: nat, value: u32): Out {
    if !Within(banks, region, offset) then Out(log, EINVAL) else Ask(script, log, Write(region, offset, value))
  }

  function UpdateOut(script: Script, banks: Banks, log: seq<Entry>, region: Region, offset: nat, mask: u32, value: u32): Out {
    if !Within(banks, region, offset) || !Confined(value, mask) then Out(log, EINVAL)
    else
      var read := Ask(script, log, Read(region, offset));
      if read.ret != 0 then read
      else PutOut(script, banks, read.log, region, offset, Merge(script(|log|).value, mask, value))
  }

  /** At most `polls` reads, one delay after each that does not show the idle bit. */
  function PollOut(script: Script, log: seq<Entry>, region: Region, offset: nat, polls: nat): Out
    decreases polls
  {
    if polls == 0 then Out(log, ETIMEDOUT)
    else
      var read := Ask(script, log, Read(region, offset));
      if read.ret != 0 || IdleBit(script(|log|).value) then read
      else
        var delay := Ask(script, read.log, Delay);
        if delay.ret != 0 then delay else PollOut(script, delay.log, region, offset, polls - 1)
  }

  function Perform(script: Script, banks: Banks, log: seq<Entry>, op: Op): Out {
    match op
    case Check(party) => Ask(script, log, Verify(party))
    case Put(region, offset, value) => PutOut(script, banks, log, region, offset, value)
    case Update(region, offset, mask, value) => UpdateOut(script, banks, log, region, offset, mask, value)
    case Fence => Ask(script, log, Barrier)
    case SetClamp(enable) => Ask(script, log, Clamp(SMI_COMMON, enable))
    case AwaitIdle(region, offset) => PollOut(script, log, region, offset, POLLS)
  }

  /** Performs a plan up to its first failing operation. */
  function Run(script: Script, banks: Banks, log: seq<Entry>, plan: seq<Op>): Out {
    if plan == [] then Out(log, 0)
    else
      var before := Run(script, banks, log, plan[..|plan| - 1]);
      if before.ret != 0 then before else Perform(script, banks, before.log, plan[|plan| - 1])
  }

  // ---------------------------------------------------------------- what plans do for every backend

  lemma Extend(script: Script, banks: Banks, log: seq<Entry>, plan: seq<Op>, i: nat)
    requires i < |plan|
    ensures var before := Run(script, banks, log, plan[..i]);
            Run(script, banks, log, plan[..i + 1]) == if before.ret != 0 then before else Perform(script, banks, before.log, plan[i])
  {
    assert plan[..i + 1][..i] == plan[..i];
  }

  /** The log only grows, and only its last new call can have failed. */
  ghost predicate Grows(log: seq<Entry>, out: Out) {
    && |log| <= |out.log| && out.log[..|log|] == log
    && (forall k | |log| <= k < |out.log| - 1 :: out.log[k].answer.ret == 0)
    && (out.ret == 0 ==> forall k | |log| <= k < |out.log| :: out.log[k].answer.ret == 0)
  }

  lemma GrowsTrans(log: seq<Entry>, first: Out, second: Out)
    requires Grows(log, first) && first.ret == 0 && Grows(first.log, second)
    ensures Grows(log, second)
  {
    assert second.log[..|log|] == second.log[..|first.log|][..|log|];
    forall k | |log| <= k < |first.log| ensures second.log[k].answer.ret == 0 {
      assert second.log[k] == second.log[..|first.log|][k];
    }
  }

  /** An idle poll ends in a successful read that shows the idle bit, after at most `polls` reads. */
  lemma {:induction false} PollSound(script: Script, log: seq<Entry>, region: Region, offset: nat, polls: nat)
    ensures var out := PollOut(script, log, region, offset, polls);
            && Grows(log, out) && |out.log| <= |log| + 2 * polls
            && (forall k | |log| <= k < |out.log| :: out.log[k].call == Read(region, offset) || out.log[k].call == Delay)
            && (out.ret == 0 ==> |out.log| > |log| && |out.log| < |log| + 2 * polls && Idle(out.log[|out.log| - 1], region, offset))
    decreases polls
  {
    hide IdleBit;
    if polls > 0 {
      var read := Ask(script, log, Read(region, offset));
      var delay := Ask(script, read.log, Delay);
      IdleMeans(script(|log|).value);
      if read.ret == 0 && !IdleBit(script(|log|).value) && delay.ret == 0 {
        PollSound(script, delay.log, region, offset, polls - 1);
        GrowsTrans(log, read, delay);
        GrowsTrans(log, delay, PollOut(script, delay.log, region, offset, polls - 1));
        var out := PollOut(script, log, region, offset, polls);
        forall k | |log| <= k < |out.log| ensures out.log[k].call == Read(region, offset) || out.log[k].call == Delay {
          if k < |delay.log| {
            assert out.log[k] == out.log[..|delay.log|][k];
          }
        }
      }
    }
  }

  /** What each call of a poll leads to: an idle read ends it with success, any other successful read is followed by a delay. */
  ghost predicate PollLeads(out: Out, k: nat)
    requires k < |out.log|
  {
    out.log[k].call.Read? && out.log[k].answer.ret == 0 ==>
      if out.log[k].answer.value / 2 % 2 == 1 then k == |out.log| - 1 && out.ret == 0
      else k + 1 < |out.log| && out.log[k + 1].call == Delay
  }

  /** A poll fails only with the error of its last call, or with ETIMEDOUT after exactly `polls` reads. */
  lemma {:induction false} PollExact(script: Script, log: seq<Entry>, region: Region, offset: nat, polls: nat)
    ensures var out := PollOut(script, log, region, offset, polls);
            && |log| <= |out.log| && (forall k | |log| <= k < |out.log| :: PollLeads(out, k))
            && (out.ret != 0 ==> (|out.log| > |log| && out.log[|out.log| - 1].answer.ret == out.ret)
                                 || (out.ret == ETIMEDOUT && |out.log| == |log| + 2 * polls))
    decreases polls
  {
    hide IdleBit;
    if polls > 0 {
      var read := Ask(script, log, Read(region, offset));
      var delay := Ask(script, read.log, Delay);
      IdleMeans(script(|log|).value);
      if read.ret == 0 && !IdleBit(script(|log|).value) && delay.ret == 0 {
        var out := PollOut(script, delay.log, region, offset, polls - 1);
        PollExact(script, delay.log, region, offset, polls - 1);
        PollSound(script, delay.log, region, offset, polls - 1);
        assert out.log[|log|] == out.log[..|delay.log|][|log|] && out.log[|log| + 1] == out.log[..|delay.log|][|log| + 1];
      }
    }
  }

  predicate Idle(e: Entry, region: Region, offset: nat) {
    e.call == Read(region, offset) && e.answer.ret == 0 && e.answer.value / 2 % 2 == 1
  }

  lemma PerformGrows(script: Script, banks: Banks, log: seq<Entry>, op: Op)
    ensures Grows(log, Perform(script, banks, log, op))
  {
    hide PollOut;
    if op.AwaitIdle? {
      PollSound(script, log, op.region, op.offset, POLLS);
    }
  }

  lemma {:induction false} RunGrows(script: Script, banks: Banks, log: seq<Entry>, plan: seq<Op>)
    ensures Grows(log, Run(script, banks, log, plan))
  {
    hide Perform, Grows;
    if plan == [] {
      GrowsRefl(log);
    } else {
      var before := Run(script, banks, log, plan[..|plan| - 1]);
      RunGrows(script, banks, log, plan[..|plan| - 1]);
      if before.ret == 0 {
        PerformGrows(script, banks, before.log, plan[|plan| - 1]);
        GrowsTrans(log, before, Perform(script, banks, before.log, plan[|plan| - 1]));
      }
    }
  }

  lemma GrowsRefl(log: seq<Entry>)
    ensures Grows(log, Out(log, 0))
  {}

  /** A longer plan continues a shorter one, or stops where the shorter one failed. */
  lemma {:induction false} RunPrefix(script: Script, banks: Banks, log: seq<Entry>, plan: seq<Op>, i: nat, j: nat)
    requires i <= j <= |plan|
    ensures var a, b := Run(script, banks, log, plan[..i]), Run(script, banks, log, plan[..j]);
            && (a.ret != 0 ==> b == a) && |a.log| <= |b.log| && b.log[..|a.log|] == a.log
    decreases j - i
  {
    hide Perform, Run;
    if i < j {
      RunPrefix(script, banks, log, plan, i, j - 1);
      Extend(script, banks, log, plan, j - 1);
      var a, c := Run(script, banks, log, plan[..i]), Run(script, banks, log, plan[..j - 1]);
      if c.ret == 0 {
        PerformGrows(script, banks, c.log, plan[j - 1]);
        assert Perform(script, banks, c.log, plan[j - 1]).log[..|a.log|] == c.log[..|a.log|];
      }
    }
  }

  // ---------------------------------------------------------------- the submission trace

  /** What one backend call must look like: exact, or the value just read with its `mask` bits set to `value`. */
  datatype Shape = Exactly(call: Call) | Masked(region: Region, offset: nat, mask: u32, value: u32)

  ghost predicate Fits(log: seq<Entry>, k: nat, shape: Shape)
    requires k < |log|
  {
    match shape
    case Exactly(call) => log[k].call == call
    case Masked(region, offset, mask, value) =>
      k > 0 && log[k].call.Write? && log[k].call.region == region && log[k].call.offset == offset
      && Merged(log[k - 1].answer.value, mask, value, log[k].call.value)
  }

  /** An operation that makes a fixed number of calls, all of them legal. */
  predicate Fixed(banks: Banks, op: Op) {
    && !op.AwaitIdle?
    && (op.Put? || op.Update? ==> Within(banks, op.region, op.offset))
    && (op.Update? ==> Confined(op.value, op.mask))
  }

  function Shapes(op: Op): seq<Shape> {
    match op
    case Check(party) => [Exactly(Verify(party))]
    case Put(region, offset, value) => [Exactly(Write(region, offset, value))]
    case Update(region, offset, mask, value) => [Exactly(Read(region, offset)), Masked(region, offset, mask, value)]
    case Fence => [Exactly(Barrier)]
    case SetClamp(enable) => [Exactly(Clamp(SMI_COMMON, enable))]
    case AwaitIdle(_, _) => []
  }

  function PlanShapes(plan: seq<Op>): seq<Shape> {
    if plan == [] then [] else PlanShapes(plan[..|plan| - 1]) + Shapes(plan[|plan| - 1])
  }

  /** The calls after `log` are the first of `shapes`; all of them if `out` succeeded, else up to the failing one. */
  ghost predicate Traces(log: seq<Entry>, out: Out, shapes: seq<Shape>) {
    && Grows(log, out) && |out.log| <= |log| + |shapes|
    && (forall k | 0 <= k < |out.log| - |log| :: Fits(out.log, |log| + k, shapes[k]))
    && (out.ret == 0 ==> |out.log| == |log| + |shapes|)
    && (out.ret != 0 ==> |out.log| > |log| && out.log[|out.log| - 1].answer.ret == out.ret)
  }

  lemma TracesNothing(log: seq<Entry>)
    ensures Traces(log, Out(log, 0), [])
  {}

  lemma TracesTrans(log: seq<Entry>, first: Out, shapes: seq<Shape>, second: Out, more: seq<Shape>)
    requires Traces(log, first, shapes) && first.ret == 0 && Traces(first.log, second, more)
    ensures Traces(log, second, shapes + more)
  {
    GrowsTrans(log, first, second);
    forall k | 0 <= k < |second.log| - |log| ensures Fits(second.log, |log| + k, (shapes + more)[k]) {
      var at := |log| + k;
      if at < |first.log| {
        assert Fits(first.log, at, shapes[k]);
        assert second.log[..|first.log|][at] == first.log[at] && (at > 0 ==> second.log[..|first.log|][at - 1] == first.log[at - 1]);
      } else {
        assert Fits(second.log, at, more[at - |first.log|]);
      }
    }
  }

  /** After a failure the rest of the plan adds nothing. */
  lemma TracesStop(log: seq<Entry>, out: Out, shapes: seq<Shape>, more: seq<Shape>)
    requires Traces(log, out, shapes) && out.ret != 0
    ensures Traces(log, out, shapes + more)
  {
    forall k | 0 <= k < |out.log| - |log| ensures Fits(out.log, |log| + k, (shapes + more)[k]) {
      assert (shapes + more)[k] == shapes[k];
    }
  }

  lemma AskTraces(script: Script, log: seq<Entry>, call: Call, shape: Shape)
    requires Fits(log + [Entry(call, script(|log|))], |log|, shape)
    ensures Traces(log, Ask(script, log, call), [shape])
  {}

  lemma UpdateTraces(script: Script, banks: Banks, log: seq<Entry>, region: Region, offset: nat, mask: u32, value: u32)
    requires Within(banks, region, offset) && Confined(value, mask)
    ensures Traces(log, UpdateOut(script, banks, log, region, offset, mask, value),
                   [Exactly(Read(region, offset)), Masked(region, offset, mask, value)])
  {
    hide Traces, Within, Merge, Merged, Confined;
    var first, second := Exactly(Read(region, offset)), Masked(region, offset, mask, value);
    var read := Ask(script, log, Read(region, offset));
    AskTraces(script, log, Read(region, offset), first);
    assert [first] + [second] == [first, second];
    if read.ret == 0 {
      var write := Write(region, offset, Merge(script(|log|).value, mask, value));
      MergeBits(script(|log|).value, mask, value);
      AskTraces(script, read.log, write, second);
      TracesTrans(log, read, [first], Ask(script, read.log, write), [second]);
    } else {
      TracesStop(log, read, [first], [second]);
    }
  }

  lemma PerformTraces(script: Script, banks: Banks, log: seq<Entry>, op: Op)
    requires Fixed(banks, op)
    ensures Traces(log, Perform(script, banks, log, op), Shapes(op))
  {
    hide PollOut, UpdateOut, Within, Traces, Ask;
    match op
    case Check(party) => AskTraces(script, log, Verify(party), Exactly(Verify(party)));
    case Put(region, offset, value) => AskTraces(script, log, Write(region, offset, value), Exactly(Write(region, offset, value)));
    case Update(region, offset, mask, value) => UpdateTraces(script, banks, log, region, offset, mask, value);
    case Fence => AskTraces(script, log, Barrier, Exactly(Barrier));
    case SetClamp(enable) => AskTraces(script, log, Clamp(SMI_COMMON, enable), Exactly(Clamp(SMI_COMMON, enable)));
  }

  lemma {:induction false} RunTraces(script: Script, banks: Banks, log: seq<Entry>, plan: seq<Op>)
    requires forall i | 0 <= i < |plan| :: Fixed(banks, plan[i])
    ensures Traces(log, Run(script, banks, log, plan), PlanShapes(plan))
  {
    hide Perform, Fixed, Traces;
    if plan == [] {
      TracesNothing(log);
    } else {
      var init, last := plan[..|plan| - 1], plan[|plan| - 1];
      var before := Run(script, banks, log, init);
      RunTraces(script, banks, log, init);
      assert Fixed(banks, last);
      if before.ret == 0 {
        PerformTraces(script, banks, before.log, last);
        TracesTrans(log, before, PlanShapes(init), Perform(script, banks, before.log, last), Shapes(last));
      } else {
        TracesStop(log, before, PlanShapes(init), Shapes(last));
      }
    }
  }

  lemma PlanShapesStep(plan: seq<Op>, i: nat)
    requires i < |plan|
    ensures PlanShapes(plan[..i + 1]) == PlanShapes(plan[..i]) + Shapes(plan[i])
  {
    assert plan[..i + 1][..i] == plan[..i];
  }

  lemma {:induction false} RunSplit(script: Script, banks: Banks, log: seq<Entry>, a: seq<Op>, b: seq<Op>)
    ensures var first := Run(script, banks, log, a);
            Run(script, banks, log, a + b) == if first.ret != 0 then first else Run(script, banks, first.log, b)
    decreases |b|
  {
    hide Perform;
    if b == [] {
      assert a + b == a;
    } else {
      RunSplit(script, banks, log, a, b[..|b| - 1]);
      assert (a + b)[..|a + b| - 1] == a + b[..|b| - 1];
    }
  }

  lemma RunOne(script: Script, banks: Banks, log: seq<Entry>, op: Op)
    ensures Run(script, banks, log, [op]) == Perform(script, banks, log, op)
  {
    hide Perform;
    assert [op][..0] == [];
    assert Run(script, banks, log, []) == Out(log, 0);
  }

  lemma RunNothing(script: Script, banks: Banks, log: seq<Entry>)
    ensures Run(script, banks, log, []) == Out(log, 0)
  {}

  lemma TracesConcat(script: Script, banks: Banks, log: seq<Entry>, a: seq<Op>, b: seq<Op>, sa: seq<Shape>, sb: seq<Shape>)
    requires var first := Run(script, banks, log, a);
             Traces(log, first, sa) && (first.ret == 0 ==> Traces(first.log, Run(script, banks, first.log, b), sb))
    ensures Traces(log, Run(script, banks, log, a + b), sa + sb)
  {
    hide Run, Traces;
    var first := Run(script, banks, log, a);
    RunSplit(script, banks, log, a, b);
    if first.ret == 0 {
      TracesTrans(log, first, sa, Run(script, banks, first.log, b), sb);
    } else {
      TracesStop(log, first, sa, sb);
    }
  }

  // ---------------------------------------------------------------- backends that answer well

  /** The new entries carry the backend's own answers. */
  ghost predicate Honest(script: Script, log: seq<Entry>, out: Out) {
    |log| <= |out.log| && out.log[..|log|] == log && forall k | |log| <= k < |out.log| :: out.log[k].answer == script(k)
  }

  lemma HonestTrans(script: Script, log: seq<Entry>, first: Out, second: Out)
    requires Honest(script, log, first) && Honest(script, first.log, second)
    ensures Honest(script, log, second)
  {
    assert second.log[..|log|] == second.log[..|first.log|][..|log|];
    forall k | |log| <= k < |second.log| ensures second.log[k].answer == script(k) {
      if k < |first.log| {
        assert second.log[k] == second.log[..|first.log|][k];
      }
    }
  }

  lemma {:induction false} PollHonest(script: Script, log: seq<Entry>, region: Region, offset: nat, polls: nat)
    ensures Honest(script, log, PollOut(script, log, region, offset, polls))
    decreases polls
  {
    hide IdleBit;
    if polls > 0 {
      var read := Ask(script, log, Read(region, offset));
      var delay := Ask(script, read.log, Delay);
      HonestTrans(script, log, read, delay);
      PollHonest(script, delay.log, region, offset, polls - 1);
      HonestTrans(script, log, delay, PollOut(script, delay.log, region, offset, polls - 1));
    }
  }

  lemma PerformHonest(script: Script, banks: Banks, log: seq<Entry>, op: Op)
    ensures Honest(script, log, Perform(script, banks, log, op))
  {
    hide PollOut, Merge, Confined, Within;
    if op.AwaitIdle? {
      PollHonest(script, log, op.region, op.offset, POLLS);
    }
    if op.Update? {
      var read := Ask(script, log, Read(op.region, op.offset));
      var write := Ask(script, read.log, Write(op.region, op.offset, Merge(script(|log|).value, op.mask, op.value)));
      HonestTrans(script, log, read, write);
    }
  }

  lemma {:induction false} RunHonest(script: Script, banks: Banks, log: seq<Entry>, plan: seq<Op>)
    ensures Honest(script, log, Run(script, banks, log, plan))
  {
    hide Perform;
    if plan != [] {
      var before := Run(script, banks, log, plan[..|plan| - 1]);
      RunHonest(script, banks, log, plan[..|plan| - 1]);
      PerformHonest(script, banks, before.log, plan[|plan| - 1]);
      HonestTrans(script, log, before, Perform(script, banks, before.log, plan[|plan| - 1]));
    }
  }

  /** Every call succeeds. */
  ghost predicate Willing(script: Script) {
    forall n: nat :: script(n).ret == 0
  }

  /** Against a willing backend a fixed sequence of calls is made to its end. */
  lemma WillingTraces(script: Script, log: seq<Entry>, out: Out, shapes: seq<Shape>)
    requires Willing(script) && Honest(script, log, out) && Traces(log, out, shapes)
    ensures out.ret == 0
  {}

  /** A unit that is idle at once ends its poll at once. */
  lemma IdlePoll(script: Script, log: seq<Entry>, region: Region, offset: nat)
    requires script(|log|).ret == 0 && script(|log|).value / 2 % 2 == 1
    ensures PollOut(script, log, region, offset, POLLS).ret == 0
  {
    hide IdleBit;
    IdleMeans(script(|log|).value);
  }

  /** Answers its n-th call as the script says, and records it. */
  class Backend {
    const script: Script
    const banks: Banks
    var log: seq<Entry>

    constructor (script: Script, banks: Banks)
      ensures this.script == script && this.banks == banks && log == []
    {
      this.script, this.banks, log := script, banks, [];
    }

    method Do(call: Call) returns (answer: Answer)
      modifies this
      ensures Out(log, answer.ret) == Ask(script, old(log), call) && answer == script(|old(log)|)
    {
      answer := script(|log|);
      log := log + [Entry(call, answer)];
    }
  }
}

/** Capture jobs: DMA buffers, output layouts and the checks made before any register access. */
module Capture {
  import opened Errno
  import opened Words

  const FMT_BAYER8 := 0
  const FMT_BAYER10 := 1
  const FMT_BAYER10_MIPI := 80

  datatype Buffer = Buffer(dma: u64, size: u32, mapped: u32)

  datatype Layout = Layout(
    format: u32, width: u32, height: u32, bytesperline: u32, sizeimage: u32, pixelModeShift: u32)

  /** `groups` holds the tag mask of each of the four completion groups. */
  datatype Job = Job(
    svId: u32, width: u32, height: u32, sequence: u32, rawTag: u32, pdafTag: u32, groups: seq<bv32>,
    raw: Buffer, pdaf: Buffer, cq: Buffer, rawLayout: Layout, pdafLayout: Layout)

  /** Sizes of the four register banks that a backend offers. */
  datatype Banks = Banks(central: nat, dma: nat, cq: nat, seninf: nat)

  // ---------------------------------------------------------------- layouts

  function BitsPerPixel(format: u32): Option<nat> {
    if format == FMT_BAYER8 then Some(8)
    else if format == FMT_BAYER10 || format == FMT_BAYER10_MIPI then Some(10)
    else None
  }

  /** `(16 << shift) / 8` bytes. */
  function BusBytes(shift: u32): nat
    requires shift <= 4
  {
    if shift == 0 then 2 else if shift == 1 then 4 else if shift == 2 then 8 else if shift == 3 then 16 else 32
  }

  function RoundUp(x: nat, unit: nat): nat
    requires unit > 0
  {
    (x + unit - 1) / unit * unit
  }

  function LayoutCode(l: Layout, capacity: u32): int {
    if l.width == 0 || l.height == 0 || l.width > 65535 || l.height > 65535 || l.pixelModeShift > 4 then EINVAL
    else if BitsPerPixel(l.format).None? then EOPNOTSUPP
    else
      var bus := BusBytes(l.pixelModeShift);
      var row := RoundUp((l.width * BitsPerPixel(l.format).value + 7) / 8, bus);
      if l.bytesperline < row || l.bytesperline > 65535 || l.bytesperline % bus != 0
         || l.sizeimage != l.bytesperline * l.height % 0x1_0000_0000 || l.sizeimage > capacity then ERANGE
      else 0
  }

  /** What an accepted layout means, without rounding or machine arithmetic: 8 or 10 bits a pixel, a bus of 2, 4, ... 32 bytes. */
  ghost predicate LayoutFits(l: Layout, capacity: u32) {
    && 0 < l.width <= 65535 && 0 < l.height <= 65535 && l.pixelModeShift <= 4
    && (l.format == 0 || l.format == 1 || l.format == 80)
    && l.bytesperline <= 65535 && l.bytesperline % Shl(2, l.pixelModeShift) == 0
    && RowBits(l) <= 8 * l.bytesperline
    && l.sizeimage == l.bytesperline * l.height
    && l.sizeimage <= capacity
  }

  /** The packed bits of one row. */
  function RowBits(l: Layout): nat {
    if l.format == 0 then 8 * l.width else 10 * l.width
  }

  lemma BusIs(shift: u32)
    requires shift <= 4
    ensures BusBytes(shift) == Shl(2, shift)
  {
    assert Shl(2, 0) == 2;
    assert Shl(2, 1) == 4;
    assert Shl(2, 2) == 8;
    assert Shl(2, 3) == 16;
    assert Shl(2, 4) == 32;
  }

  lemma Quotient(x: nat, unit: nat)
    requires unit > 0
    ensures x / unit * unit <= x < x / unit * unit + unit
    ensures x % unit == 0 ==> x / unit * unit == x
  {}

  lemma RoundUpLeast(x: nat, unit: nat, y: nat)
    requires unit > 0 && y % unit == 0
    ensures RoundUp(x, unit) <= y <==> x <= y
  {
    var q, k := (x + unit - 1) / unit, y / unit;
    Quotient(x + unit - 1, unit);
    Quotient(y, unit);
    if q <= k {
      Scaled(q, k, unit);
    } else {
      Scaled(k + 1, q, unit);
      assert (k + 1) * unit == k * unit + unit;
    }
  }

  lemma NoWrap(a: nat, b: nat)
    requires a <= 65535 && b <= 65535
    ensures 0 <= a * b < 0x1_0000_0000 && a * b % 0x1_0000_0000 == a * b
  {
    Scaled(a, 65535, b);
    SmallRemainder(a * b);
  }

  lemma Scaled(a: nat, limit: nat, b: nat)
    requires a <= limit
    ensures 0 <= a * b <= limit * b
  {}

  lemma SmallRemainder(x: nat)
    requires x < 0x1_0000_0000
    ensures x % 0x1_0000_0000 == x
  {}

  /** The checked layouts are exactly those whose true sizes fit. */
  lemma LayoutExact(l: Layout, capacity: u32)
    ensures LayoutCode(l, capacity) == 0 <==> LayoutFits(l, capacity)
  {
    if 0 < l.width <= 65535 && 0 < l.height <= 65535 && l.pixelModeShift <= 4 && BitsPerPixel(l.format).Some? {
      var bus, bits := BusBytes(l.pixelModeShift), l.width * BitsPerPixel(l.format).value;
      BusIs(l.pixelModeShift);
      if l.bytesperline <= 65535 && l.bytesperline % bus == 0 {
        NoWrap(l.bytesperline, l.height);
        RoundUpLeast((bits + 7) / 8, bus, l.bytesperline);
      }
    }
  }

  /** Every row's packed pixels lie inside that row's stride, and every stride inside the buffer. */
  lemma RowsInside(l: Layout, capacity: u32, row: nat)
    requires LayoutCode(l, capacity) == 0 && row < l.height
    ensures 8 * (row * l.bytesperline) + RowBits(l) <= 8 * ((row + 1) * l.bytesperline)
    ensures (row + 1) * l.bytesperline <= l.sizeimage <= capacity
  {
    hide LayoutCode;
    LayoutExact(l, capacity);
    RowEnd(row, l.height, l.bytesperline);
  }

  lemma RowEnd(row: nat, height: nat, stride: nat)
    requires row < height
    ensures (row + 1) * stride == row * stride + stride && (row + 1) * stride <= stride * height
  {
    Scaled(row + 1, height, stride);
  }

  // ---------------------------------------------------------------- address ranges

  /** Both the mapping and the request are non-empty, and the mapping lies below 2^34. */
  predicate InRange(b: Buffer, required: u32) {
    b.mapped == 1 && b.size >= required && required > 0 && b.dma < DMA_LIMIT && b.size <= DMA_LIMIT - b.dma
  }

  /** Interval overlap on 64-bit sums, which wrap for unchecked buffers. */
  predicate Overlap(a: Buffer, b: Buffer) {
    a.dma < (b.dma + b.size) % 0x1_0000_0000_0000_0000 && b.dma < (a.dma + a.size) % 0x1_0000_0000_0000_0000
  }

  predicate Covers(b: Buffer, address: int) {
    b.dma <= address < b.dma + b.size
  }

  /** For mapped buffers the overlap test means a shared address. */
  lemma OverlapExact(a: Buffer, b: Buffer)
    requires InRange(a, a.size) && InRange(b, b.size)
    ensures Overlap(a, b) <==> exists x: int :: Covers(a, x) && Covers(b, x)
  {
    if Overlap(a, b) {
      var x: int := if a.dma < b.dma then b.dma else a.dma;
      assert Covers(a, x) && Covers(b, x);
    }
  }

  // ---------------------------------------------------------------- tags

  /** `1 << tag` for the eight tags. */
  function TagBit(tag: u32): bv32 {
    if tag == 0 then 1 else if tag == 1 then 2 else if tag == 2 then 4 else if tag == 3 then 8
    else if tag == 4 then 16 else if tag == 5 then 32 else if tag == 6 then 64 else if tag == 7 then 128 else 0
  }

  /** The table is a shift. */
  lemma TagBitIs(tag: u32)
    requires tag <= 7
    ensures TagBit(tag) == (1 as bv32) << tag
  {
    if tag == 0 {
    } else if tag == 1 {
    } else if tag == 2 {
    } else if tag == 3 {
    } else if tag == 4 {
    } else if tag == 5 {
    } else if tag == 6 {
    } else {
    }
  }

  function Mask(job: Job): bv32 {
    TagBit(job.rawTag) | TagBit(job.pdafTag)
  }

  function Group(job: Job, i: nat): bv32 {
    if i < |job.groups| then job.groups[i] else 0
  }

  predicate Covered(tags: bv32, mask: bv32) {
    tags & !mask == 0
  }

  function Meet(a: bv32, b: bv32): bv32 {
    a & b
  }

  predicate Disjoint(a: bv32, b: bv32) {
    Meet(a, b) == 0
  }

  function Join(a: bv32, b: bv32): bv32 {
    a | b
  }

  /** The four passes of the group scan: inside the mask, no tag seen before, all tags covered. */
  predicate Partitions(m: bv32, g0: bv32, g1: bv32, g2: bv32, g3: bv32) {
    && Covered(g0, m)
    && Covered(g1, m) && Disjoint(g1, g0)
    && Covered(g2, m) && Disjoint(g2, Join(g0, g1))
    && Covered(g3, m) && Disjoint(g3, Join(Join(g0, g1), g2))
    && Join(Join(Join(g0, g1), g2), g3) == m
  }

  lemma DisjointJoin(g: bv32, a: bv32, b: bv32)
    ensures Disjoint(g, Join(a, b)) <==> Disjoint(g, a) && Disjoint(g, b)
  {
    hide Meet, Join;
    Distribute(g, a, b);
    NoBits(Meet(g, a), Meet(g, b));
  }

  lemma Distribute(g: bv32, a: bv32, b: bv32)
    ensures Meet(g, Join(a, b)) == Join(Meet(g, a), Meet(g, b))
  {}

  lemma NoBits(x: bv32, y: bv32)
    ensures Join(x, y) == 0 <==> x == 0 && y == 0
  {}

  lemma JoinCovers(a: bv32, b: bv32, c: bv32)
    ensures Covered(b, Join(a, b)) && (Covered(c, a) ==> Covered(c, Join(a, b)))
  {}

  lemma CoversItself(a: bv32)
    ensures Covered(a, a)
  {}

  /** Accepted groups are pairwise disjoint and together are exactly the two tags. */
  lemma PartitionExact(m: bv32, g0: bv32, g1: bv32, g2: bv32, g3: bv32)
    ensures Partitions(m, g0, g1, g2, g3) <==>
            && Join(Join(Join(g0, g1), g2), g3) == m && Disjoint(g1, g0)
            && Disjoint(g2, g0) && Disjoint(g2, g1) && Disjoint(g3, g0) && Disjoint(g3, g1) && Disjoint(g3, g2)
  {
    hide Covered, Disjoint, Join;
    var a, b := Join(g0, g1), Join(Join(g0, g1), g2);
    DisjointJoin(g2, g0, g1);
    DisjointJoin(g3, a, g2);
    DisjointJoin(g3, g0, g1);
    CoversItself(g0);
    JoinCovers(g0, g1, g0);
    JoinCovers(a, g2, g0);
    JoinCovers(a, g2, g1);
    JoinCovers(b, g3, g0);
    JoinCovers(b, g3, g1);
    JoinCovers(b, g3, g2);
  }

  predicate GroupsPartition(job: Job) {
    Partitions(Mask(job), Group(job, 0), Group(job, 1), Group(job, 2), Group(job, 3))
  }

  // ---------------------------------------------------------------- jobs

  predicate Geometry(job: Job) {
    (job.width == 4000 && job.height == 3000) || (job.width == 4096 && job.height == 2304)
  }

  predicate PlanesFit(job: Job) {
    && job.rawLayout.width == job.width && job.rawLayout.height == job.height
    && (job.rawLayout.format == FMT_BAYER10 || job.rawLayout.format == FMT_BAYER10_MIPI)
    && LayoutCode(job.rawLayout, job.raw.size) == 0
    && LayoutCode(job.pdafLayout, job.pdaf.size) == 0
    && InRange(job.raw, job.rawLayout.sizeimage)
    && InRange(job.pdaf, job.pdafLayout.sizeimage)
    && !Overlap(job.raw, job.pdaf)
  }

  predicate BanksFit(banks: Banks) {
    banks.central == 0x1000 && banks.dma == 0x1000 && banks.cq == 0x1000 && banks.seninf == 0x18000
  }

  function ValidateCode(banks: Banks, job: Job): int {
    if !BanksFit(banks) || job.svId > 1 || job.rawTag > 7 || job.pdafTag > 7 || job.rawTag == job.pdafTag
       || !Geometry(job) then EINVAL
    else if !PlanesFit(job) || !InRange(job.cq, job.cq.size) || job.cq.size > 0xffff
            || Overlap(job.raw, job.cq) || Overlap(job.pdaf, job.cq) then EINVAL
    else if GroupsPartition(job) then 0 else EINVAL
  }

  /** One pass of the group scan: the tags seen so far, or None once a group was rejected. */
  function Pass(tags: bv32, seen: Option<bv32>, group: bv32): Option<bv32> {
    if seen.Some? && Covered(group, tags) && Disjoint(group, seen.value) then Some(Join(seen.value, group)) else None
  }

  function Scan(job: Job, n: nat): Option<bv32> {
    if n == 0 then Some(0) else Pass(Mask(job), Scan(job, n - 1), Group(job, n - 1))
  }

  method CheckGroups(job: Job) returns (ok: bool)
    ensures ok == GroupsPartition(job)
  {
    hide Mask, Group, Pass, GroupsPartition;
    var tags, seen: Option<bv32> := Mask(job), Some(0);
    for i := 0 to 4
      invariant seen == Scan(job, i)
    {
      seen := Pass(tags, seen, Group(job, i));
    }
    ScanIsPartition(job);
    ok := seen == Some(tags);
  }

  lemma ScanIsPartition(job: Job)
    ensures GroupsPartition(job) <==> Scan(job, 4) == Some(Mask(job))
  {
    hide Mask, Group, Pass, Partitions;
    assert Scan(job, 1) == Pass(Mask(job), Some(0), Group(job, 0));
    assert Scan(job, 3) == Pass(Mask(job), Pass(Mask(job), Scan(job, 1), Group(job, 1)), Group(job, 2));
    FourPasses(Mask(job), Group(job, 0), Group(job, 1), Group(job, 2), Group(job, 3));
  }

  lemma FourPasses(m: bv32, g0: bv32, g1: bv32, g2: bv32, g3: bv32)
    ensures Pass(m, Pass(m, Pass(m, Pass(m, Some(0), g0), g1), g2), g3) == Some(m) <==> Partitions(m, g0, g1, g2, g3)
  {
    hide Covered, Disjoint, Join;
    FirstPass(g0);
  }

  lemma FirstPass(group: bv32)
    ensures Disjoint(group, 0) && Join(0, group) == group
  {}

  // ---------------------------------------------------------------- what validation means

  /** A mapping of the whole buffer, below 2^34. */
  ghost predicate MappedBuffer(b: Buffer) {
    b.mapped == 1 && b.size > 0 && b.dma + b.size <= 0x4_0000_0000
  }

  ghost predicate Separate(a: Buffer, b: Buffer) {
    a.dma + a.size <= b.dma || b.dma + b.size <= a.dma
  }

  lemma InRangeIs(b: Buffer, required: u32)
    ensures InRange(b, required) <==> MappedBuffer(b) && 0 < required <= b.size
  {}

  lemma OverlapIs(a: Buffer, b: Buffer)
    requires MappedBuffer(a) && MappedBuffer(b)
    ensures Overlap(a, b) <==> !Separate(a, b)
  {}

  /** A job that may be given to hardware, in plain terms. */
  ghost predicate Capturable(banks: Banks, job: Job) {
    && banks == Banks(0x1000, 0x1000, 0x1000, 0x18000)
    && job.svId <= 1 && job.rawTag <= 7 && job.pdafTag <= 7 && job.rawTag != job.pdafTag
    && ((job.width == 4000 && job.height == 3000) || (job.width == 4096 && job.height == 2304))
    && job.rawLayout.width == job.width && job.rawLayout.height == job.height && job.rawLayout.format != 0
    && LayoutFits(job.rawLayout, job.raw.size) && LayoutFits(job.pdafLayout, job.pdaf.size)
    && MappedBuffer(job.raw) && MappedBuffer(job.pdaf) && MappedBuffer(job.cq) && job.cq.size <= 0xffff
    && Separate(job.raw, job.pdaf) && Separate(job.raw, job.cq) && Separate(job.pdaf, job.cq)
    && Divided(Join((1 as bv32) << job.rawTag, (1 as bv32) << job.pdafTag), Group(job, 0), Group(job, 1), Group(job, 2), Group(job, 3))
  }

  /** Pairwise disjoint groups that together are the mask. */
  predicate Divided(m: bv32, g0: bv32, g1: bv32, g2: bv32, g3: bv32) {
    && Join(Join(Join(g0, g1), g2), g3) == m && Disjoint(g1, g0)
    && Disjoint(g2, g0) && Disjoint(g2, g1) && Disjoint(g3, g0) && Disjoint(g3, g1) && Disjoint(g3, g2)
  }

  lemma PositiveImage(l: Layout, capacity: u32)
    requires LayoutFits(l, capacity)
    ensures 0 < l.sizeimage <= capacity
  {
    assert l.bytesperline > 0;
    Scaled(1, l.bytesperline, l.height);
  }

  lemma PlanesExact(job: Job)
    ensures PlanesFit(job) <==>
            && job.rawLayout.width == job.width && job.rawLayout.height == job.height && job.rawLayout.format != 0
            && LayoutFits(job.rawLayout, job.raw.size) && LayoutFits(job.pdafLayout, job.pdaf.size)
            && MappedBuffer(job.raw) && MappedBuffer(job.pdaf) && Separate(job.raw, job.pdaf)
  {
    hide LayoutCode, InRange, Overlap;
    LayoutExact(job.rawLayout, job.raw.size);
    LayoutExact(job.pdafLayout, job.pdaf.size);
    InRangeIs(job.raw, job.rawLayout.sizeimage);
    InRangeIs(job.pdaf, job.pdafLayout.sizeimage);
    if LayoutFits(job.rawLayout, job.raw.size) && LayoutFits(job.pdafLayout, job.pdaf.size) {
      PositiveImage(job.rawLayout, job.raw.size);
      PositiveImage(job.pdafLayout, job.pdaf.size);
    }
    if MappedBuffer(job.raw) && MappedBuffer(job.pdaf) {
      OverlapIs(job.raw, job.pdaf);
    }
  }

  lemma GroupsExact(job: Job)
    requires job.rawTag <= 7 && job.pdafTag <= 7
    ensures GroupsPartition(job) <==>
            Divided(Join((1 as bv32) << job.rawTag, (1 as bv32) << job.pdafTag), Group(job, 0), Group(job, 1), Group(job, 2), Group(job, 3))
  {
    hide Partitions, Disjoint, Join, TagBit, Mask;
    TagBitIs(job.rawTag);
    TagBitIs(job.pdafTag);
    MaskIs(job);
    PartitionExact(Mask(job), Group(job, 0), Group(job, 1), Group(job, 2), Group(job, 3));
  }

  lemma MaskIs(job: Job)
    ensures Mask(job) == Join(TagBit(job.rawTag), TagBit(job.pdafTag))
  {
    hide TagBit;
  }

  /** Validation accepts exactly the capturable jobs. */
  lemma ValidateExact(banks: Banks, job: Job)
    ensures ValidateCode(banks, job) == 0 <==> Capturable(banks, job)
  {
    hide LayoutFits, PlanesFit, GroupsPartition, InRange, Overlap, Group, Join, Divided;
    PlanesExact(job);
    InRangeIs(job.cq, job.cq.size);
    if job.rawTag <= 7 && job.pdafTag <= 7 {
      GroupsExact(job);
    }
    if MappedBuffer(job.raw) && MappedBuffer(job.pdaf) && MappedBuffer(job.cq) {
      OverlapIs(job.raw, job.cq);
      OverlapIs(job.pdaf, job.cq);
    }
  }
}

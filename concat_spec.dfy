/** Value-level specification of what the concat planner computes: which
    sources get a slot, their offsets, the destination's concat extent, the
    (block, stride) records of the destination's blocking, the work-group
    arithmetic and the internal-padding eligibility rules. The planner's
    methods are proved to fill their objects with these values. */
module ConcatSpec {
  import opened Arith
  import opened ConcatTypes

  /* ---------- Slots ---------- */

  /** The indices, among the first `n` sources, of those whose padded concat
      extent is nonzero, in order: source i gets the next slot only if it is
      not empty. */
  function NonemptyUpTo(srcs: seq<SrcMd>, n: nat): (idx: seq<nat>)
    requires n <= |srcs|
    ensures |idx| <= n
    ensures forall k :: 0 <= k < |idx| ==> idx[k] < n && srcs[idx[k]].paddedConcat != 0
  {
    if n == 0 then []
    else
      NonemptyUpTo(srcs, n - 1) + (if srcs[n - 1].paddedConcat == 0 then [] else [n - 1])
  }

  /** Slots keep the sources' order. */
  lemma {:induction false} NonemptyOrdered(srcs: seq<SrcMd>, n: nat)
    requires n <= |srcs|
    ensures forall k, l :: 0 <= k < l < |NonemptyUpTo(srcs, n)| ==> NonemptyUpTo(srcs, n)[k] < NonemptyUpTo(srcs, n)[l]
  {
    if n > 0 {
      NonemptyOrdered(srcs, n - 1);
    }
  }

  /** The slots of all sources: slot k holds source Nonempty(srcs)[k]. */
  function Nonempty(srcs: seq<SrcMd>): seq<nat>
  {
    NonemptyUpTo(srcs, |srcs|)
  }

  /** No nonempty source is left without a slot. */
  lemma {:induction false} NonemptyComplete(srcs: seq<SrcMd>, n: nat, i: nat)
    requires i < n <= |srcs| && srcs[i].paddedConcat != 0
    ensures i in NonemptyUpTo(srcs, n)
  {
    if i < n - 1 {
      NonemptyComplete(srcs, n - 1, i);
    }
  }

  /** Every slot is filled by exactly one source: a source of nonzero padded
      extent has a slot, and a source of zero padded extent has none. */
  lemma SlotIff(srcs: seq<SrcMd>, i: nat)
    requires i < |srcs|
    ensures i in Nonempty(srcs) <==> srcs[i].paddedConcat != 0
  {
    if srcs[i].paddedConcat != 0 {
      NonemptyComplete(srcs, |srcs|, i);
    }
  }

  /** Appending a source adds a slot exactly when it is not empty: the
      same slots, plus that source at the end. */
  lemma NonemptyStep(srcs: seq<SrcMd>, n: nat)
    requires n < |srcs|
    ensures |NonemptyUpTo(srcs, n + 1)| == |NonemptyUpTo(srcs, n)| + (if srcs[n].paddedConcat == 0 then 0 else 1)
    ensures NonemptyUpTo(srcs, n + 1)[..|NonemptyUpTo(srcs, n)|] == NonemptyUpTo(srcs, n)
    ensures srcs[n].paddedConcat == 0 ==> NonemptyUpTo(srcs, n + 1) == NonemptyUpTo(srcs, n)
    ensures srcs[n].paddedConcat != 0 ==> NonemptyUpTo(srcs, n + 1) == NonemptyUpTo(srcs, n) + [n]
  {
    assert NonemptyUpTo(srcs, n) + [] == NonemptyUpTo(srcs, n);
  }

  /** All sources empty means no slot at all. */
  lemma {:induction false} NoSlots(srcs: seq<SrcMd>, n: nat)
    requires n <= |srcs|
    requires forall i :: 0 <= i < n ==> srcs[i].paddedConcat == 0
    ensures NonemptyUpTo(srcs, n) == []
  {
    if n > 0 {
      NoSlots(srcs, n - 1);
    }
  }

  /* ---------- Offsets ---------- */

  /** A per-slot quantity of a normalized source: its logical or padded
      concat extent, or its outer stride in bytes. */
  datatype SlotField = LogicalExtent | PaddedExtent | ExternBytes

  function FieldOf(view: NormalizedView, src: Layout, f: SlotField): int
  {
    match f
    case LogicalExtent => src.dims.concat
    case PaddedExtent => src.paddedDims.concat
    case ExternBytes => src.strides.outer * view.dataTypeSize
  }

  /** The quantity `f` of each slot among the first `n` sources, in slot
      order. */
  function SlotValues(pd: ConcatPd, view: NormalizedView, f: SlotField, n: nat): (xs: seq<int>)
    requires n <= |pd.srcs| == |view.srcs|
    ensures |xs| == |NonemptyUpTo(pd.srcs, n)|
  {
    if n == 0 then []
    else
      SlotValues(pd, view, f, n - 1)
      + (if pd.srcs[n - 1].paddedConcat == 0 then [] else [FieldOf(view, view.srcs[n - 1], f)])
  }

  /** Slot k's value is the one of the source in slot k. */
  lemma {:induction false} SlotValuesAt(pd: ConcatPd, view: NormalizedView, f: SlotField, n: nat)
    requires n <= |pd.srcs| == |view.srcs|
    ensures forall k :: 0 <= k < |NonemptyUpTo(pd.srcs, n)| ==>
      SlotValues(pd, view, f, n)[k] == FieldOf(view, view.srcs[NonemptyUpTo(pd.srcs, n)[k]], f)
  {
    if n > 0 {
      SlotValuesAt(pd, view, f, n - 1);
    }
  }

  /** Offset of slot k: the extents of the slots before it added up. */
  lemma SumStep(xs: seq<int>, k: nat)
    requires k < |xs|
    ensures Sum(xs[..k + 1]) == Sum(xs[..k]) + xs[k]
  {
    assert xs[..k + 1][..k] == xs[..k];
  }

  /** Offsets never decrease along the slots when extents are not negative,
      and no offset passes the total. */
  lemma {:induction false} OffsetsMonotone(xs: seq<int>, j: nat, k: nat)
    requires j <= k <= |xs|
    requires forall i :: 0 <= i < |xs| ==> xs[i] >= 0
    ensures Sum(xs[..j]) <= Sum(xs[..k])
    decreases k - j
  {
    if j < k {
      OffsetsMonotone(xs, j, k - 1);
      SumStep(xs, k - 1);
    }
  }

  /** The offsets of the slots: for each, the sum of the extents before it
      (an exclusive prefix sum). */
  function Offsets(xs: seq<int>): (os: seq<int>)
    ensures |os| == |xs|
  {
    if xs == [] then [] else Offsets(xs[..|xs| - 1]) + [Sum(xs[..|xs| - 1])]
  }

  /** Offset k is the sum of the extents before slot k. */
  lemma {:induction false} OffsetsArePrefixSums(xs: seq<int>)
    ensures forall k :: 0 <= k < |xs| ==> Offsets(xs)[k] == Sum(xs[..k])
  {
    if xs != [] {
      var pre := xs[..|xs| - 1];
      OffsetsArePrefixSums(pre);
      assert forall k :: 0 <= k < |pre| ==> pre[..k] == xs[..k];
    }
  }

  /** Each offset plus its slot's extent is the next slot's offset: the
      slots tile the concat axis without gaps or overlaps. */
  lemma OffsetsTile(xs: seq<int>, k: nat)
    requires k + 1 < |xs|
    ensures Offsets(xs)[k] + xs[k] == Offsets(xs)[k + 1]
  {
    OffsetsArePrefixSums(xs);
    SumStep(xs, k);
  }

  lemma SumSnoc(xs: seq<int>, x: int)
    ensures Sum(xs + [x]) == Sum(xs) + x
    ensures Offsets(xs + [x]) == Offsets(xs) + [Sum(xs)]
  {
    assert (xs + [x])[..|xs|] == xs;
  }

  /** The largest byte size among the destination and the first `n` sources
      that have a slot. */
  function MaxBytesUpTo(pd: ConcatPd, n: nat): (m: int)
    requires n <= |pd.srcs|
    ensures m >= pd.dst.bytes
    ensures forall i :: 0 <= i < n && pd.srcs[i].paddedConcat != 0 ==> m >= pd.srcs[i].bytes
    ensures m == pd.dst.bytes || exists i :: 0 <= i < n && pd.srcs[i].paddedConcat != 0 && m == pd.srcs[i].bytes
  {
    if n == 0 then pd.dst.bytes
    else
      var m := MaxBytesUpTo(pd, n - 1);
      if pd.srcs[n - 1].paddedConcat == 0 then m else Max(m, pd.srcs[n - 1].bytes)
  }

  function MaxBytes(pd: ConcatPd): int
  {
    MaxBytesUpTo(pd, |pd.srcs|)
  }

  /** 64-bit indexing is needed exactly when the destination or a source
      with a slot is larger than INT_MAX bytes. */
  lemma LargeIndexIff(pd: ConcatPd)
    ensures MaxBytes(pd) > IntMax <==>
      pd.dst.bytes > IntMax || exists i :: 0 <= i < |pd.srcs| && pd.srcs[i].paddedConcat != 0 && pd.srcs[i].bytes > IntMax
  {
  }

  /** The padding after the last slot's logical extent among the first `n`
      sources (zero without slots). */
  function FinalPaddingUpTo(pd: ConcatPd, view: NormalizedView, n: nat): int
    requires n <= |pd.srcs| == |view.srcs|
  {
    if n == 0 then 0
    else if pd.srcs[n - 1].paddedConcat == 0 then FinalPaddingUpTo(pd, view, n - 1)
    else view.srcs[n - 1].paddedDims.concat - view.srcs[n - 1].dims.concat
  }

  /** The final padding is the last slot's padding, or zero without slots. */
  lemma {:induction false} FinalPaddingOfLastSlot(pd: ConcatPd, view: NormalizedView, n: nat)
    requires n <= |pd.srcs| == |view.srcs|
    ensures var idx := NonemptyUpTo(pd.srcs, n);
      FinalPaddingUpTo(pd, view, n)
      == if idx == [] then 0
         else view.srcs[idx[|idx| - 1]].paddedDims.concat - view.srcs[idx[|idx| - 1]].dims.concat
  {
    if n > 0 {
      FinalPaddingOfLastSlot(pd, view, n - 1);
    }
  }

  /** dst_concat_axis: the logical concat extent the kernel writes: the sum
      of the slots' logical extents plus the last slot's padding, cut at the
      destination's padded extent. */
  function DstConcatAxis(pd: ConcatPd, view: NormalizedView): (r: int)
    requires |pd.srcs| == |view.srcs|
    ensures r <= view.dst.paddedDims.concat
    ensures r == view.dst.paddedDims.concat
      || r == Sum(SlotValues(pd, view, LogicalExtent, |pd.srcs|)) + FinalPaddingUpTo(pd, view, |pd.srcs|)
  {
    Min(view.dst.paddedDims.concat,
        Sum(SlotValues(pd, view, LogicalExtent, |pd.srcs|)) + FinalPaddingUpTo(pd, view, |pd.srcs|))
  }

  /* ---------- Destination blocking ---------- */

  /** One (block, stride) pair the kernel receives as BLOCK_B<k> / BLOCK_S<k>. */
  datatype BlockRecord = BlockRecord(block: int, stride: int)

  function Sizes(bs: seq<InnerBlock>): (s: seq<int>)
    ensures |s| == |bs|
    ensures forall j :: 0 <= j < |bs| ==> s[j] == bs[j].size
  {
    seq(|bs|, j requires 0 <= j < |bs| => bs[j].size)
  }

  /** The inner blocks with the innermost (last) block's size converted from
      elements of `dts` bytes to elements of `ts` bytes. */
  function RescaleInnermost(bs: seq<InnerBlock>, dts: nat, ts: nat): seq<InnerBlock>
    requires ts > 0
  {
    if bs == [] then []
    else
      var last := bs[|bs| - 1];
      bs[..|bs| - 1] + [InnerBlock(last.size * dts / ts, last.axis)]
  }

  /** Only the innermost block changes, and it keeps its axis. */
  lemma RescaleKeepsOuterBlocks(bs: seq<InnerBlock>, dts: nat, ts: nat, j: nat)
    requires ts > 0 && j < |bs|
    ensures |RescaleInnermost(bs, dts, ts)| == |bs|
    ensures RescaleInnermost(bs, dts, ts)[j].axis == bs[j].axis
    ensures j < |bs| - 1 ==> RescaleInnermost(bs, dts, ts)[j] == bs[j]
    ensures j == |bs| - 1 ==> RescaleInnermost(bs, dts, ts)[j].size == bs[j].size * dts / ts
  {
  }

  /** Converting to the same element size changes nothing. */
  lemma RescaleSameSize(bs: seq<InnerBlock>, d: nat)
    requires d > 0
    ensures RescaleInnermost(bs, d, d) == bs
  {
    if bs != [] {
      MulDivCancel(bs[|bs| - 1].size, d);
      assert bs[..|bs| - 1] + [bs[|bs| - 1]] == bs;
    }
  }

  /** The records of the blocks at positions >= i on the concat axis, the
      innermost first; each stride is the product of every block inside it. */
  function BlocksFrom(bs: seq<InnerBlock>, i: nat): seq<BlockRecord>
    requires i <= |bs|
    decreases |bs| - i
  {
    if i == |bs| then []
    else
      BlocksFrom(bs, i + 1)
      + (if bs[i].axis == Concat then [BlockRecord(bs[i].size, Product(Sizes(bs)[i + 1..]))] else [])
  }

  function ConcatBlocks(bs: seq<InnerBlock>): seq<BlockRecord>
  {
    BlocksFrom(bs, 0)
  }

  /** The positions at >= i of the blocks on the concat axis, innermost
      (largest position) first. */
  function ConcatPositions(bs: seq<InnerBlock>, i: nat): (ps: seq<nat>)
    requires i <= |bs|
    ensures forall k :: 0 <= k < |ps| ==> i <= ps[k] < |bs| && bs[ps[k]].axis == Concat
    ensures forall k, l :: 0 <= k < l < |ps| ==> ps[k] > ps[l]
    decreases |bs| - i
  {
    if i == |bs| then []
    else ConcatPositions(bs, i + 1) + (if bs[i].axis == Concat then [i] else [])
  }

  /** There is a record for each concat block. */
  lemma {:induction false} BlocksCount(bs: seq<InnerBlock>, i: nat)
    requires i <= |bs|
    ensures |BlocksFrom(bs, i)| == |ConcatPositions(bs, i)|
    decreases |bs| - i
  {
    if i < |bs| {
      BlocksCount(bs, i + 1);
    }
  }

  /** Record k is the k-th concat block counted from the innermost: its size
      and the product of all the blocks inside it. */
  lemma {:induction false} BlockAt(bs: seq<InnerBlock>, i: nat, k: nat)
    requires i <= |bs| && k < |BlocksFrom(bs, i)|
    ensures k < |ConcatPositions(bs, i)|
    ensures var p := ConcatPositions(bs, i)[k];
      BlocksFrom(bs, i)[k] == BlockRecord(bs[p].size, Product(Sizes(bs)[p + 1..]))
    decreases |bs| - i
  {
    BlocksCount(bs, i);
    BlocksCount(bs, i + 1);
    var rs, ps := BlocksFrom(bs, i + 1), ConcatPositions(bs, i + 1);
    if k < |rs| {
      BlockAt(bs, i + 1, k);
      if bs[i].axis == Concat {
        assert BlocksFrom(bs, i)[k] == rs[k];
        assert ConcatPositions(bs, i)[k] == ps[k];
      } else {
        assert BlocksFrom(bs, i) == rs;
        assert ConcatPositions(bs, i) == ps;
      }
    }
  }

  /** Where the concat blocks are depends on the blocks' axes only. */
  lemma {:induction false} PositionsByAxes(bs: seq<InnerBlock>, cs: seq<InnerBlock>, i: nat)
    requires |bs| == |cs| && i <= |bs|
    requires forall j :: 0 <= j < |bs| ==> bs[j].axis == cs[j].axis
    ensures ConcatPositions(bs, i) == ConcatPositions(cs, i)
    decreases |bs| - i
  {
    if i < |bs| {
      PositionsByAxes(bs, cs, i + 1);
    }
  }

  /** Rescaling the innermost block keeps the number of concat blocks. */
  lemma RescaleKeepsConcatCount(bs: seq<InnerBlock>, dts: nat, ts: nat)
    requires ts > 0
    ensures |ConcatBlocks(RescaleInnermost(bs, dts, ts))| == |ConcatPositions(bs, 0)|
  {
    var r := RescaleInnermost(bs, dts, ts);
    forall j | 0 <= j < |bs|
      ensures |r| == |bs| && r[j].axis == bs[j].axis
    {
      RescaleKeepsOuterBlocks(bs, dts, ts, j);
    }
    if bs != [] {
      RescaleKeepsOuterBlocks(bs, dts, ts, 0);
    }
    PositionsByAxes(r, bs, 0);
    BlocksCount(r, 0);
  }

  /** A block on the concat axis always gets a record. */
  lemma {:induction false} ConcatBlockRecorded(bs: seq<InnerBlock>, i: nat, j: nat)
    requires i <= j < |bs| && bs[j].axis == Concat
    ensures j in ConcatPositions(bs, i)
    decreases |bs| - i
  {
    if i < j {
      ConcatBlockRecorded(bs, i + 1, j);
    }
  }

  lemma {:induction false} ProductSplit(s: seq<int>, a: nat, b: nat)
    requires a <= b <= |s|
    ensures Product(s[a..]) == Product(s[a..b]) * Product(s[b..])
  {
    assert s[a..] == s[a..b] + s[b..];
    ProductAppend(s[a..b], s[b..]);
  }

  /** Record k's block times its stride is the product of its block and
      all the blocks inside it. */
  lemma RecordSpan(bs: seq<InnerBlock>, k: nat)
    requires k < |ConcatBlocks(bs)|
    ensures k < |ConcatPositions(bs, 0)|
    ensures var p := ConcatPositions(bs, 0)[k];
      ConcatBlocks(bs)[k].block * ConcatBlocks(bs)[k].stride == Product(Sizes(bs)[p..])
  {
    BlockAt(bs, 0, k);
    var p := ConcatPositions(bs, 0)[k];
    var s := Sizes(bs);
    assert s[p..] == [s[p]] + s[p + 1..];
  }

  /** Nested blocking: each record's stride is a multiple of the inner
      record's block times its stride, so a concat index decomposes into
      the records' digits. */
  lemma StridesNest(bs: seq<InnerBlock>, k: nat)
    requires forall j :: 0 <= j < |bs| ==> bs[j].size > 0
    requires k + 1 < |ConcatBlocks(bs)|
    ensures var r := ConcatBlocks(bs);
      r[k].block * r[k].stride > 0 && r[k + 1].stride % (r[k].block * r[k].stride) == 0
  {
    RecordSpan(bs, k);
    BlockAt(bs, 0, k + 1);
    var ps := ConcatPositions(bs, 0);
    var s := Sizes(bs);
    var p, q := ps[k], ps[k + 1];
    assert q < p;
    ProductSplit(s, q + 1, p);
    var outer, inner := Product(s[q + 1..p]), Product(s[p..]);
    ProductPositive(s[p..]);
    MulDivCancel(outer, inner);
  }

  /* ---------- Work-group arithmetic of the general kernel ---------- */

  /** gws0_block: inner_axis * read_block / gcd(inner_axis, read_block). */
  function Gws0Block(inner: nat, rb: nat): nat
    requires rb > 0
  {
    GcdDivides(inner, rb);
    inner * rb / Gcd(inner, rb)
  }

  /** Dividing a product by a divisor of one factor. */
  lemma DivideFactor(a: nat, b: nat, g: nat)
    requires g > 0 && b % g == 0
    ensures a * b / g == a * (b / g)
  {
    ExactDivision(b, g);
    assert a * b == (a * (b / g)) * g by {
      assert a * b == a * ((b / g) * g);
    }
    MulDivCancel(a * (b / g), g);
  }

  /** gws0_block is a positive common multiple of inner_axis and read_block;
      read_overlap (gws0_block / inner_axis) is read_block / gcd, and
      gws0_block / read_block is inner_axis / gcd. */
  lemma Gws0CommonMultiple(inner: nat, rb: nat)
    requires inner > 0 && rb > 0
    ensures Gcd(inner, rb) > 0
    ensures Gws0Block(inner, rb) == inner * (rb / Gcd(inner, rb)) == rb * (inner / Gcd(inner, rb))
    ensures Gws0Block(inner, rb) % inner == 0 && Gws0Block(inner, rb) % rb == 0
    ensures Gws0Block(inner, rb) / inner == rb / Gcd(inner, rb) > 0
    ensures Gws0Block(inner, rb) / rb == inner / Gcd(inner, rb)
  {
    GcdDivides(inner, rb);
    var g := Gcd(inner, rb);
    var x, y := rb / g, inner / g;
    DivideFactor(inner, rb, g);
    DivideFactor(rb, inner, g);
    assert rb * inner == inner * rb;
    assert inner * x == x * inner && rb * y == y * rb;
    MulDivCancel(x, inner);
    MulDivCancel(y, rb);
    assert x > 0 by {
      ExactDivision(rb, g);
    }
  }

  /** gws_d[0] = gws0_block * simd / read_block is simd work items per
      inner_axis / gcd chunk. */
  lemma Gws0Items(inner: nat, rb: nat, simd: nat)
    requires inner > 0 && rb > 0
    ensures Gcd(inner, rb) > 0
    ensures Gws0Block(inner, rb) * simd / rb == (inner / Gcd(inner, rb)) * simd
  {
    Gws0CommonMultiple(inner, rb);
    var g := Gws0Block(inner, rb);
    var y := inner / Gcd(inner, rb);
    assert g == rb * y;
    MulRearrange(rb, y, simd);
    MulDivCancel(y * simd, rb);
  }

  lemma MulRearrange(a: int, b: int, c: int)
    ensures (a * b) * c == (b * c) * a
  {
  }

  /** The padding-waste rule of the general path: byte-sized writes into a
      destination whose padded concat extent is at least four times its
      logical extent. */
  predicate PaddingWaste(writeBlock: int, typeSize: int, dst: Layout)
  {
    writeBlock * typeSize == 1 && 4 * dst.dims.concat <= dst.paddedDims.concat
  }

  /* ---------- Internal-padding kernel ---------- */

  /** Bytes per work item of the internal-padding kernel: 16, or 8 for
      8-byte elements. */
  function BytesPerWorkitem(dts: nat): (r: nat)
    ensures r == 8 || r == 16
  {
    if dts == 8 then 8 else 16
  }

  /** The block-multiple conditions a width must meet for the internal-padding
      kernel: usable on the device, not above the destination's element count,
      and its elements per sub-group read a positive multiple of the first
      concat block, which it is not narrower than. */
  predicate IpSimdFits(dev: Device, simd: nat, dstBytes: nat, dts: nat, b0: nat)
    requires dts > 0 && b0 > 0
  {
    var elemsPerSimd := simd * (BytesPerWorkitem(dts) / dts);
    && SimdUsable(dev, simd)
    && simd <= dstBytes / dts
    && elemsPerSimd % b0 == 0
    && elemsPerSimd >= b0
    && simd >= b0
  }


  /** The first width of `ws` meeting the conditions, or 1 when none does. */
  function FirstIpSimd(dev: Device, ws: seq<nat>, dstBytes: nat, dts: nat, b0: nat): (r: nat)
    requires dts > 0 && b0 > 0
    ensures r == 1 || (r in ws && IpSimdFits(dev, r, dstBytes, dts, b0))
    ensures forall k :: 0 <= k < |ws| && ws[k] != r ==> !IpSimdFits(dev, ws[k], dstBytes, dts, b0) || exists l :: 0 <= l < k && ws[l] == r
  {
    if ws == [] then 1
    else if IpSimdFits(dev, ws[0], dstBytes, dts, b0) then ws[0]
    else FirstIpSimd(dev, ws[1..], dstBytes, dts, b0)
  }

  /** A width that fits makes every element-load count positive: the kernel's
      division by simd * loads_per_thread is safe. */
  lemma IpLoadsPositive(dev: Device, simd: nat, dstBytes: nat, dts: nat, b0: nat)
    requires dts > 0 && b0 > 0 && IpSimdFits(dev, simd, dstBytes, dts, b0)
    ensures simd > 0 && BytesPerWorkitem(dts) / dts > 0
  {
  }

  /** The sub-group alignment check: elements narrower than 4 bytes need a
      first concat block of at least 4 bytes. */
  predicate CanSubgroupRead(dts: nat, nBlocks: nat, b0: int)
  {
    dts < 4 ==> nBlocks > 0 && dts * b0 >= 4
  }

  predicate SupportedBlockSize(nBlocks: nat, b0: int)
  {
    nBlocks > 0 && (b0 == 4 || b0 == 8 || b0 == 16 || b0 == 32)
  }

  /** Every rule the internal-padding kernel needs besides the width search:
      two slots, aligned sub-group reads, rows longer than one sub-group
      read, a supported first block and a destination over 500000 bytes. */
  predicate IpEligible(n: nat, simd: nat, dts: nat, nBlocks: nat, b0: int, innerDim: nat, dstBytes: nat)
    requires dts > 0
  {
    && n == 2
    && CanSubgroupRead(dts, nBlocks, b0)
    && b0 * innerDim > simd * (BytesPerWorkitem(dts) / dts)
    && SupportedBlockSize(nBlocks, b0)
    && dstBytes > 500000
  }

  /** gws_d[0] of the internal-padding kernel. */
  function IpGws0(paddedConcat: nat, innerDim: nat, simd: nat, loads: nat): nat
    requires simd > 0 && loads > 0
  {
    DivUp(paddedConcat * innerDim, simd * loads) * simd
  }

  /** The work items of the internal-padding kernel cover the padded concat
      by inner plane, loads elements each, in whole sub-groups. */
  lemma IpGwsCovers(paddedConcat: nat, innerDim: nat, simd: nat, loads: nat)
    requires simd > 0 && loads > 0
    ensures IpGws0(paddedConcat, innerDim, simd, loads) % simd == 0
    ensures IpGws0(paddedConcat, innerDim, simd, loads) * loads >= paddedConcat * innerDim
  {
    var d := DivUp(paddedConcat * innerDim, simd * loads);
    MulDivCancel(d, simd);
    assert d * simd * loads == d * (simd * loads);
  }
}

/** The configuration planner of the reusable simple concat kernel
    (reusable_simple_concat.cpp, lines 30-366): the compile-time parameters
    and the runtime parameters are objects whose fields and fixed-size
    arrays the planner fills in place. */
module ConcatPlan {
  import opened Arith
  import opened ConcatTypes
  import opened ConcatSelect
  import opened ConcatSpec

  /** reusable_simple_concat_params_t: what the kernel is compiled with. The
      arrays `blocks` and `strides` have the fixed capacity the structure
      declares. */
  class ConcatParams {
    var n: int
    var simd: int
    var dataTypeSize: int
    var nBlocks: int
    const blocks: array<int>
    const strides: array<int>
    var readBlock: int
    var writeBlock: int
    var useInternalPaddingKernel: bool
    var useLargeIndex: bool
    var bytesPerWorkitem: int

    predicate Valid()
    {
      blocks != strides && blocks.Length == strides.Length
    }

    /** A value-initialized parameter structure. */
    constructor (maxBlocks: nat)
      ensures Valid() && fresh(blocks) && fresh(strides) && blocks.Length == maxBlocks
      ensures n == 0 && simd == 0 && dataTypeSize == 0 && nBlocks == 0
      ensures readBlock == 0 && writeBlock == 0 && bytesPerWorkitem == 0
      ensures !useInternalPaddingKernel && !useLargeIndex
    {
      n, simd, dataTypeSize, nBlocks := 0, 0, 0, 0;
      blocks := new int[maxBlocks](_ => 0);
      strides := new int[maxBlocks](_ => 0);
      readBlock, writeBlock, bytesPerWorkitem := 0, 0, 0;
      useInternalPaddingKernel, useLargeIndex := false, false;
    }
  }

  /** reusable_simple_concat_runtime_params_t: what the kernel receives as
      arguments. The three per-slot arrays have the fixed capacity the
      structure declares. */
  class RuntimeParams {
    const srcExternDimSizes: array<int>
    const offset: array<int>
    const paddedOffset: array<int>
    var dstExternDimSize: int
    var dstPaddedConcatAxis: int
    var dstConcatAxis: int
    var innerAxis: int
    var dstOffset0: int
    var gws0Block: int
    var readOverlap: int
    var srcConcatAxis0: int
    var paddedSrcConcatAxis0: int
    var srcConcatAxis1: int
    var paddedSrcConcatAxis1: int
    var gws: seq<int>
    var lws: seq<int>

    predicate Valid()
    {
      && srcExternDimSizes != offset && offset != paddedOffset && srcExternDimSizes != paddedOffset
      && srcExternDimSizes.Length == offset.Length == paddedOffset.Length
    }

    constructor (maxInputs: nat)
      ensures Valid() && fresh(srcExternDimSizes) && fresh(offset) && fresh(paddedOffset)
      ensures offset.Length == maxInputs
      ensures gws == [0, 0, 0] && lws == [0, 0, 0]
    {
      srcExternDimSizes := new int[maxInputs](_ => 0);
      offset := new int[maxInputs](_ => 0);
      paddedOffset := new int[maxInputs](_ => 0);
      dstExternDimSize, dstPaddedConcatAxis, dstConcatAxis, innerAxis := 0, 0, 0, 0;
      dstOffset0, gws0Block, readOverlap := 0, 0, 0;
      srcConcatAxis0, paddedSrcConcatAxis0, srcConcatAxis1, paddedSrcConcatAxis1 := 0, 0, 0, 0;
      gws, lws := [0, 0, 0], [0, 0, 0];
    }
  }

  /* ---------- What the planner leaves in the objects ---------- */

  /** The two structures share no array. */
  predicate Separate(conf: ConcatParams, rt: RuntimeParams)
  {
    {conf.blocks, conf.strides} !! {rt.srcExternDimSizes, rt.offset, rt.paddedOffset}
  }

  /** For each slot of the first `n` sources, in order, the per-slot arrays
      hold its offset and padded offset (the extents of the slots before it
      added up) and, when `withExtern`, its outer-stride byte size. */
  predicate SlotsRecorded(rt: RuntimeParams, pd: ConcatPd, view: NormalizedView, n: nat, withExtern: bool)
    requires n <= |pd.srcs| == |view.srcs|
    reads rt.offset, rt.paddedOffset, rt.srcExternDimSizes
  {
    var count := |NonemptyUpTo(pd.srcs, n)|;
    && count <= rt.offset.Length && count <= rt.paddedOffset.Length && count <= rt.srcExternDimSizes.Length
    && rt.offset[..count] == Offsets(SlotValues(pd, view, LogicalExtent, n))
    && rt.paddedOffset[..count] == Offsets(SlotValues(pd, view, PaddedExtent, n))
    && (withExtern ==> rt.srcExternDimSizes[..count] == SlotValues(pd, view, ExternBytes, n))
  }

  /** The first nBlocks entries of `blocks` and `strides` are the records. */
  predicate BlocksRecorded(conf: ConcatParams, recs: seq<BlockRecord>)
    reads conf`nBlocks, conf.blocks, conf.strides
  {
    && conf.nBlocks == |recs|
    && |recs| <= conf.blocks.Length && |recs| <= conf.strides.Length
    && forall k :: 0 <= k < |recs| ==> conf.blocks[k] == recs[k].block && conf.strides[k] == recs[k].stride
  }

  /** The entries of `a` from index `from` on still hold `a0`: the planner
      writes only the entries of the slots and records it makes. */
  predicate TailKept(a: array<int>, from: int, a0: seq<int>)
    reads a
  {
    |a0| == a.Length && forall k :: 0 <= k < a.Length && from <= k ==> a[k] == a0[k]
  }

  /** The offset arrays past the first `count` slots still hold `o0`, `p0`. */
  predicate OffsetTailsKept(rt: RuntimeParams, count: int, o0: seq<int>, p0: seq<int>)
    reads rt.offset, rt.paddedOffset
  {
    TailKept(rt.offset, count, o0) && TailKept(rt.paddedOffset, count, p0)
  }

  /** The three per-slot arrays past the first `count` slots still hold
      `e0`, `o0`, `p0`. */
  predicate SlotTailsKept(rt: RuntimeParams, count: int, e0: seq<int>, o0: seq<int>, p0: seq<int>)
    reads rt.srcExternDimSizes, rt.offset, rt.paddedOffset
  {
    TailKept(rt.srcExternDimSizes, count, e0) && OffsetTailsKept(rt, count, o0, p0)
  }

  /** `blocks` and `strides` past the first `count` records still hold
      `b0`, `s0`. */
  predicate BlockTailsKept(conf: ConcatParams, count: int, b0: seq<int>, s0: seq<int>)
    reads conf.blocks, conf.strides
  {
    TailKept(conf.blocks, count, b0) && TailKept(conf.strides, count, s0)
  }

  /** The destination fields both paths fill the same way. */
  predicate DstRecorded(rt: RuntimeParams, pd: ConcatPd, view: NormalizedView)
    requires |pd.srcs| == |view.srcs|
    reads rt`dstExternDimSize, rt`dstPaddedConcatAxis, rt`dstConcatAxis
  {
    && rt.dstExternDimSize == view.dst.strides.outer * view.dataTypeSize
    && rt.dstPaddedConcatAxis == view.dst.paddedDims.concat
    && rt.dstConcatAxis == DstConcatAxis(pd, view)
  }

  /** The inner extent of the destination in elements of the candidate's
      width; the source divides by it. */
  function InnerAxis(view: NormalizedView, info: PrbInfo): int
    requires info.typeSize > 0
  {
    view.dst.paddedDims.inner * view.dataTypeSize / info.typeSize
  }

  /** No candidate the selection may choose turns the destination's inner
      extent into zero elements (the general path divides by it). */
  predicate InnerAxisPositive(dev: Device, pd: ConcatPd, view: NormalizedView)
    requires DeviceOk(dev)
  {
    var cs := AllCandidates(dev, pd.dst.bytes, view.maxReadSize, view.maxWriteSize);
    forall c :: c in cs && IsBest(cs, c) ==> c.typeSize > 0 && InnerAxis(view, c) > 0
  }

  /** The kernel shape the general path derives from a candidate `info`:
      its width and block sizes, the inner extent and offset in the
      candidate's elements, and the work-group arithmetic (gws_d[2] is
      `concatDimSize`, the padded extents of the slots added up). */
  predicate ShapePlanned(conf: ConcatParams, rt: RuntimeParams, view: NormalizedView, info: PrbInfo, concatDimSize: int)
    requires info.typeSize > 0 && info.block > 0
    reads conf`simd, conf`dataTypeSize, conf`readBlock, conf`writeBlock
    reads rt`innerAxis, rt`dstOffset0, rt`gws0Block, rt`readOverlap, rt`gws
  {
    var dts, ts := view.dataTypeSize, info.typeSize;
    var inner := InnerAxis(view, info);
    && conf.simd == info.simd
    && conf.dataTypeSize == ts
    && rt.innerAxis == view.dst.strides.concat * dts / ts
    && rt.dstOffset0 == view.dst.offset0 * dts / ts
    && conf.readBlock == info.block
    && conf.writeBlock == Min(info.block, view.maxWriteSize / ts)
    && inner > 0
    && rt.gws0Block == Gws0Block(inner, info.block)
    && rt.readOverlap == rt.gws0Block / inner
    && rt.readOverlap > 0
    && rt.gws == [rt.gws0Block * info.simd / info.block, view.dst.dims.outer / rt.readOverlap, concatDimSize]
  }

  /** The layout part of the general path's state: one slot per nonempty
      source with its offsets and byte size, the destination fields, and the
      records of the destination's blocking with the innermost block in the
      candidate's elements. */
  predicate LayoutPlanned(conf: ConcatParams, rt: RuntimeParams, pd: ConcatPd, view: NormalizedView, ts: nat)
    requires |view.srcs| == |pd.srcs| && ts > 0
    reads conf`n, conf`nBlocks, conf.blocks, conf.strides
    reads rt`dstExternDimSize, rt`dstPaddedConcatAxis, rt`dstConcatAxis, rt.offset, rt.paddedOffset, rt.srcExternDimSizes
  {
    && conf.n == |Nonempty(pd.srcs)|
    && SlotsRecorded(rt, pd, view, |pd.srcs|, true)
    && DstRecorded(rt, pd, view)
    && BlocksRecorded(conf, ConcatBlocks(RescaleInnermost(view.dst.innerBlocks, view.dataTypeSize, ts)))
  }

  /** The state the general path leaves once a candidate `info` is chosen. */
  predicate GeneralPlanned(conf: ConcatParams, rt: RuntimeParams, pd: ConcatPd, view: NormalizedView, info: PrbInfo)
    requires |view.srcs| == |pd.srcs| && info.typeSize > 0 && info.block > 0
    reads conf, conf.blocks, conf.strides, rt, rt.offset, rt.paddedOffset, rt.srcExternDimSizes
  {
    && LayoutPlanned(conf, rt, pd, view, info.typeSize)
    && ShapePlanned(conf, rt, view, info, Sum(SlotValues(pd, view, PaddedExtent, |pd.srcs|)))
  }

  /* ---------- Shared steps ---------- */

  /** The destination-blocking loop (lines 108-121 and 217-228): walk the
      inner blocks innermost first, record each block on the concat axis
      with the product of the blocks inside it. The general path hands in
      the blocks with the innermost one already rescaled. */
  method RecordConcatBlocks(conf: ConcatParams, bs: seq<InnerBlock>)
    requires conf.Valid() && |ConcatBlocks(bs)| <= conf.blocks.Length
    modifies conf`nBlocks, conf.blocks, conf.strides
    ensures BlocksRecorded(conf, ConcatBlocks(bs))
    ensures BlockTailsKept(conf, conf.nBlocks, old(conf.blocks[..]), old(conf.strides[..]))
  {
    ghost var blocks0 := conf.blocks[..];
    ghost var strides0 := conf.strides[..];
    conf.nBlocks := 0;
    var stride := 1;
    var i := |bs| - 1;
    while i >= 0
      invariant -1 <= i < |bs|
      invariant stride == Product(Sizes(bs)[i + 1..])
      invariant BlocksRecordedFrom(conf, bs, i + 1, blocks0, strides0)
    {
      stride := RecordConcatBlock(conf, bs, i, stride, blocks0, strides0);
      i := i - 1;
    }
  }

  /** The records of the blocks from `i` on are in place, and the entries
      of `blocks` and `strides` past them still hold `blocks0`, `strides0`. */
  predicate BlocksRecordedFrom(conf: ConcatParams, bs: seq<InnerBlock>, i: nat, blocks0: seq<int>, strides0: seq<int>)
    requires i <= |bs|
    reads conf`nBlocks, conf.blocks, conf.strides
  {
    && BlocksRecorded(conf, BlocksFrom(bs, i))
    && |BlocksFrom(bs, i)| <= |ConcatBlocks(bs)|
    && BlockTailsKept(conf, conf.nBlocks, blocks0, strides0)
  }

  /** One turn of the destination-blocking loop: block `i`, inside which
      the blocks multiply to `stride`, is recorded when it is on the concat
      axis; the stride of the block outside it is returned. */
  method RecordConcatBlock(conf: ConcatParams, bs: seq<InnerBlock>, i: nat, stride: int,
                           ghost blocks0: seq<int>, ghost strides0: seq<int>)
    returns (outer: int)
    requires conf.Valid() && i < |bs| && |ConcatBlocks(bs)| <= conf.blocks.Length
    requires stride == Product(Sizes(bs)[i + 1..])
    requires BlocksRecordedFrom(conf, bs, i + 1, blocks0, strides0)
    modifies conf`nBlocks, conf.blocks, conf.strides
    ensures outer == Product(Sizes(bs)[i..])
    ensures BlocksRecordedFrom(conf, bs, i, blocks0, strides0)
  {
    var blk := bs[i].size;
    BlocksFromPrefix(bs, i);
    if bs[i].axis == Concat {
      assert BlocksFrom(bs, i) == BlocksFrom(bs, i + 1) + [BlockRecord(blk, stride)];
      conf.blocks[conf.nBlocks] := blk;
      conf.strides[conf.nBlocks] := stride;
      conf.nBlocks := conf.nBlocks + 1;
    } else {
      assert BlocksFrom(bs, i) == BlocksFrom(bs, i + 1);
    }
    assert Sizes(bs)[i..] == [blk] + Sizes(bs)[i + 1..];
    outer := stride * blk;
  }

  /** Processing one more (outer) block appends at most one record, and the
      records of the inner blocks are a prefix of all records. */
  lemma {:induction false} BlocksFromPrefix(bs: seq<InnerBlock>, i: nat)
    requires i < |bs|
    ensures |BlocksFrom(bs, i + 1)| <= |BlocksFrom(bs, i)| <= |ConcatBlocks(bs)|
    decreases i
  {
    if i > 0 {
      BlocksFromPrefix(bs, i - 1);
    }
  }

  /* ---------- The general path ---------- */

  /** normalize_reusable_simple_concat (lines 30-155). Picks a candidate,
      then plans with it; nothing is written when no candidate is usable. */
  method NormalizeReusableSimpleConcat(conf: ConcatParams, rt: RuntimeParams, dev: Device, pd: ConcatPd, view: NormalizedView)
    returns (st: Status, ghost info: PrbInfo)
    requires DeviceOk(dev) && ViewFor(pd, view) && conf.Valid() && rt.Valid() && Separate(conf, rt)
    requires |Nonempty(pd.srcs)| <= rt.offset.Length
    requires |ConcatPositions(view.dst.innerBlocks, 0)| <= conf.blocks.Length
    requires InnerAxisPositive(dev, pd, view)
    modifies conf`n, conf`nBlocks, conf`simd, conf`dataTypeSize, conf`readBlock, conf`writeBlock, conf`useLargeIndex
    modifies conf.blocks, conf.strides
    modifies rt`dstExternDimSize, rt`dstPaddedConcatAxis, rt`dstConcatAxis, rt`innerAxis, rt`dstOffset0
    modifies rt`gws0Block, rt`readOverlap, rt`gws, rt`lws
    modifies rt.srcExternDimSizes, rt.offset, rt.paddedOffset
    ensures var cs := AllCandidates(dev, pd.dst.bytes, view.maxReadSize, view.maxWriteSize);
      !(|cs| > 0 && cs[0].block > 0) ==> st == Unimplemented && unchanged(conf, rt, conf.blocks, conf.strides, rt.offset, rt.paddedOffset, rt.srcExternDimSizes)
    ensures var cs := AllCandidates(dev, pd.dst.bytes, view.maxReadSize, view.maxWriteSize);
      |cs| > 0 && cs[0].block > 0 ==>
        && IsBest(cs, info) && SoundCandidate(dev, info, pd.dst.bytes, view.maxWriteSize) && info.block > 0
        && GeneralPlanned(conf, rt, pd, view, info)
        && (st == Success <==> !PaddingWaste(conf.writeBlock, conf.dataTypeSize, view.dst))
    ensures st == Success ==> rt.lws == dev.optimalLws(rt.gws) && (conf.useLargeIndex <==> MaxBytes(pd) > IntMax)
    ensures st != Success ==> rt.lws == old(rt.lws) && conf.useLargeIndex == old(conf.useLargeIndex)
    ensures SlotTailsKept(rt, |Nonempty(pd.srcs)|, old(rt.srcExternDimSizes[..]), old(rt.offset[..]), old(rt.paddedOffset[..]))
    ensures BlockTailsKept(conf, conf.nBlocks, old(conf.blocks[..]), old(conf.strides[..]))
  {
    var best;
    st, best := SelectBestCandidate(dev, pd.dst.bytes, view.maxReadSize, view.maxWriteSize);
    info := best;
    if st != Success {
      return;
    }
    assert InnerAxis(view, best) > 0;
    RescaleKeepsConcatCount(view.dst.innerBlocks, view.dataTypeSize, best.typeSize);
    st := PlanWithCandidate(conf, rt, dev.optimalLws, pd, view, best);
  }

  /** Lines 77-154 for the chosen candidate `info`; `optimalLws` is
      get_optimal_lws on the device's architecture. */
  method PlanWithCandidate(conf: ConcatParams, rt: RuntimeParams, optimalLws: seq<int> -> seq<int>, pd: ConcatPd, view: NormalizedView, info: PrbInfo)
    returns (st: Status)
    requires ViewFor(pd, view) && conf.Valid() && rt.Valid() && Separate(conf, rt)
    requires |Nonempty(pd.srcs)| <= rt.offset.Length
    requires 1 <= info.typeSize <= 8 && info.block > 0 && InnerAxis(view, info) > 0
    requires |ConcatBlocks(RescaleInnermost(view.dst.innerBlocks, view.dataTypeSize, info.typeSize))| <= conf.blocks.Length
    modifies conf`n, conf`nBlocks, conf`simd, conf`dataTypeSize, conf`readBlock, conf`writeBlock, conf`useLargeIndex
    modifies conf.blocks, conf.strides
    modifies rt`dstExternDimSize, rt`dstPaddedConcatAxis, rt`dstConcatAxis, rt`innerAxis, rt`dstOffset0
    modifies rt`gws0Block, rt`readOverlap, rt`gws, rt`lws
    modifies rt.srcExternDimSizes, rt.offset, rt.paddedOffset
    ensures GeneralPlanned(conf, rt, pd, view, info)
    ensures st == Success <==> !PaddingWaste(conf.writeBlock, conf.dataTypeSize, view.dst)
    ensures st == Success ==> rt.lws == optimalLws(rt.gws) && (conf.useLargeIndex <==> MaxBytes(pd) > IntMax)
    ensures st != Success ==> rt.lws == old(rt.lws) && conf.useLargeIndex == old(conf.useLargeIndex)
    ensures SlotTailsKept(rt, |Nonempty(pd.srcs)|, old(rt.srcExternDimSizes[..]), old(rt.offset[..]), old(rt.paddedOffset[..]))
    ensures BlockTailsKept(conf, conf.nBlocks, old(conf.blocks[..]), old(conf.strides[..]))
  {
    var paddedSum, maxBytes := PlanLayout(conf, rt, pd, view, info.typeSize);
    st := PlanKernel(conf, rt, optimalLws, pd, view, info, paddedSum, maxBytes);
  }

  /** Lines 122-154: the kernel shape for the candidate, then the
      padding-waste rejection, the local work size and the index width. */
  method PlanKernel(conf: ConcatParams, rt: RuntimeParams, optimalLws: seq<int> -> seq<int>, pd: ConcatPd,
                    view: NormalizedView, info: PrbInfo, paddedSum: int, maxBytes: int)
    returns (st: Status)
    requires info.typeSize > 0 && info.block > 0 && InnerAxis(view, info) > 0 && maxBytes == MaxBytes(pd)
    modifies conf`simd, conf`dataTypeSize, conf`readBlock, conf`writeBlock, conf`useLargeIndex
    modifies rt`innerAxis, rt`dstOffset0, rt`gws0Block, rt`readOverlap, rt`gws, rt`lws
    ensures ShapePlanned(conf, rt, view, info, paddedSum)
    ensures st == Success <==> !PaddingWaste(conf.writeBlock, conf.dataTypeSize, view.dst)
    ensures st == Success ==> rt.lws == optimalLws(rt.gws) && (conf.useLargeIndex <==> MaxBytes(pd) > IntMax)
    ensures st != Success ==> rt.lws == old(rt.lws) && conf.useLargeIndex == old(conf.useLargeIndex)
  {
    PlanShape(conf, rt, view, info, paddedSum);
    st := FinishGeneral(conf, rt, optimalLws, pd, view, maxBytes);
  }

  /** Lines 142-154: the padding-waste rejection, then the local work size
      and the index width. */
  method FinishGeneral(conf: ConcatParams, rt: RuntimeParams, optimalLws: seq<int> -> seq<int>, pd: ConcatPd, view: NormalizedView, maxBytes: int)
    returns (st: Status)
    requires maxBytes == MaxBytes(pd)
    modifies conf`useLargeIndex, rt`lws
    ensures st == Success <==> !PaddingWaste(conf.writeBlock, conf.dataTypeSize, view.dst)
    ensures st == Success ==> rt.lws == optimalLws(rt.gws) && (conf.useLargeIndex <==> MaxBytes(pd) > IntMax)
    ensures st != Success ==> rt.lws == old(rt.lws) && conf.useLargeIndex == old(conf.useLargeIndex)
  {
    if conf.writeBlock * conf.dataTypeSize == 1 && 4 * view.dst.dims.concat <= view.dst.paddedDims.concat {
      return Unimplemented;
    }
    rt.lws := optimalLws(rt.gws);
    conf.useLargeIndex := maxBytes > IntMax;
    st := Success;
  }

  /** Lines 77-121: the slots, the destination fields, the blocking records
      and the slot count. Returns the padded extents' sum and the largest
      byte size. */
  method PlanLayout(conf: ConcatParams, rt: RuntimeParams, pd: ConcatPd, view: NormalizedView, ts: nat)
    returns (paddedSum: int, maxBytes: int)
    requires ViewFor(pd, view) && conf.Valid() && rt.Valid() && Separate(conf, rt)
    requires |Nonempty(pd.srcs)| <= rt.offset.Length
    requires ts > 0 && |ConcatBlocks(RescaleInnermost(view.dst.innerBlocks, view.dataTypeSize, ts))| <= conf.blocks.Length
    modifies conf`n, conf`nBlocks, conf.blocks, conf.strides
    modifies rt`dstExternDimSize, rt`dstPaddedConcatAxis, rt`dstConcatAxis, rt.srcExternDimSizes, rt.offset, rt.paddedOffset
    ensures LayoutPlanned(conf, rt, pd, view, ts)
    ensures paddedSum == Sum(SlotValues(pd, view, PaddedExtent, |pd.srcs|)) && maxBytes == MaxBytes(pd)
    ensures SlotTailsKept(rt, |Nonempty(pd.srcs)|, old(rt.srcExternDimSizes[..]), old(rt.offset[..]), old(rt.paddedOffset[..]))
    ensures BlockTailsKept(conf, conf.nBlocks, old(conf.blocks[..]), old(conf.strides[..]))
  {
    var offset, nonempty, finalPadding;
    offset, paddedSum, nonempty, finalPadding, maxBytes := RecordSlots(rt, pd, view);
    RecordDestination(rt, pd, view, offset + finalPadding);
    RecordConcatBlocks(conf, RescaleInnermost(view.dst.innerBlocks, view.dataTypeSize, ts));
    conf.n := nonempty;
  }

  /** The destination fields (lines 99-106): its outer-stride byte size,
      its padded concat extent and the extent the kernel writes. */
  method RecordDestination(rt: RuntimeParams, pd: ConcatPd, view: NormalizedView, written: int)
    requires |pd.srcs| == |view.srcs|
    requires written == Sum(SlotValues(pd, view, LogicalExtent, |pd.srcs|)) + FinalPaddingUpTo(pd, view, |pd.srcs|)
    modifies rt`dstExternDimSize, rt`dstPaddedConcatAxis, rt`dstConcatAxis
    ensures DstRecorded(rt, pd, view)
  {
    rt.dstExternDimSize := view.dst.strides.outer * view.dataTypeSize;
    rt.dstPaddedConcatAxis := view.dst.paddedDims.concat;
    rt.dstConcatAxis := Min(rt.dstPaddedConcatAxis, written);
  }

  /** Lines 123-141: the candidate's width and element size, the inner
      extent and offset in its elements, and the work-group sizes. */
  method PlanShape(conf: ConcatParams, rt: RuntimeParams, view: NormalizedView, info: PrbInfo, concatDimSize: int)
    requires info.typeSize > 0 && info.block > 0 && InnerAxis(view, info) > 0
    modifies conf`simd, conf`dataTypeSize, conf`readBlock, conf`writeBlock
    modifies rt`innerAxis, rt`dstOffset0, rt`gws0Block, rt`readOverlap, rt`gws
    ensures ShapePlanned(conf, rt, view, info, concatDimSize)
  {
    var dts := view.dataTypeSize;
    var externAxis := view.dst.dims.outer;
    var innerAxis := view.dst.paddedDims.inner * dts / info.typeSize;
    var innerOffset := view.dst.strides.concat * dts / info.typeSize;
    conf.simd := info.simd;
    rt.innerAxis := innerOffset;
    conf.dataTypeSize := info.typeSize;
    rt.dstOffset0 := view.dst.offset0 * dts / info.typeSize;
    conf.readBlock := info.block;
    conf.writeBlock := Min(info.block, view.maxWriteSize / info.typeSize);
    Gws0CommonMultiple(innerAxis, conf.readBlock);
    var sharedRead := Gcd(innerAxis, conf.readBlock);
    rt.gws0Block := innerAxis * conf.readBlock / sharedRead;
    rt.readOverlap := rt.gws0Block / innerAxis;
    rt.gws := [rt.gws0Block * conf.simd / conf.readBlock, externAxis / rt.readOverlap, concatDimSize];
  }

  /** The source loop of the general path (lines 78-97): a slot for each
      source of nonzero padded concat extent, with its outer-stride byte
      size, offset and padded offset; the running sums, the last slot's
      padding and the largest byte size are returned. */
  method RecordSlots(rt: RuntimeParams, pd: ConcatPd, view: NormalizedView)
    returns (offset: int, paddedOffset: int, nonempty: nat, finalPadding: int, maxBytes: int)
    requires ViewFor(pd, view) && rt.Valid() && |Nonempty(pd.srcs)| <= rt.offset.Length
    modifies rt.srcExternDimSizes, rt.offset, rt.paddedOffset
    ensures nonempty == |Nonempty(pd.srcs)|
    ensures offset == Sum(SlotValues(pd, view, LogicalExtent, |pd.srcs|))
    ensures paddedOffset == Sum(SlotValues(pd, view, PaddedExtent, |pd.srcs|))
    ensures finalPadding == FinalPaddingUpTo(pd, view, |pd.srcs|)
    ensures maxBytes == MaxBytes(pd)
    ensures SlotsRecorded(rt, pd, view, |pd.srcs|, true)
    ensures SlotTailsKept(rt, nonempty, old(rt.srcExternDimSizes[..]), old(rt.offset[..]), old(rt.paddedOffset[..]))
  {
    ghost var e0, o0, p0 := rt.srcExternDimSizes[..], rt.offset[..], rt.paddedOffset[..];
    maxBytes := pd.dst.bytes;
    offset, paddedOffset, nonempty := 0, 0, 0;
    finalPadding := 0;
    for i := 0 to |pd.srcs|
      invariant SlotLoop(rt, pd, view, i, offset, paddedOffset, nonempty, finalPadding, maxBytes)
      invariant SlotTailsKept(rt, nonempty, e0, o0, p0)
    {
      offset, paddedOffset, nonempty, finalPadding, maxBytes :=
        RecordSource(rt, pd, view, i, offset, paddedOffset, nonempty, finalPadding, maxBytes, e0, o0, p0);
    }
  }

  /** The source loop's state after the first `i` sources. */
  predicate SlotLoop(rt: RuntimeParams, pd: ConcatPd, view: NormalizedView, i: nat,
                     offset: int, paddedOffset: int, nonempty: nat, finalPadding: int, maxBytes: int)
    requires i <= |pd.srcs| == |view.srcs|
    reads rt.offset, rt.paddedOffset, rt.srcExternDimSizes
  {
    && nonempty == |NonemptyUpTo(pd.srcs, i)|
    && offset == Sum(SlotValues(pd, view, LogicalExtent, i))
    && paddedOffset == Sum(SlotValues(pd, view, PaddedExtent, i))
    && finalPadding == FinalPaddingUpTo(pd, view, i)
    && maxBytes == MaxBytesUpTo(pd, i)
    && SlotsRecorded(rt, pd, view, i, true)
  }

  /** One iteration of the source loop: source `i` is skipped when its
      padded concat extent is zero, and otherwise gets the next slot. */
  method RecordSource(rt: RuntimeParams, pd: ConcatPd, view: NormalizedView, i: nat,
                      offset: int, paddedOffset: int, nonempty: nat, finalPadding: int, maxBytes: int,
                      ghost e0: seq<int>, ghost o0: seq<int>, ghost p0: seq<int>)
    returns (offset': int, paddedOffset': int, nonempty': nat, finalPadding': int, maxBytes': int)
    requires ViewFor(pd, view) && rt.Valid() && |Nonempty(pd.srcs)| <= rt.offset.Length
    requires i < |pd.srcs| && SlotLoop(rt, pd, view, i, offset, paddedOffset, nonempty, finalPadding, maxBytes)
    requires SlotTailsKept(rt, nonempty, e0, o0, p0)
    modifies rt.srcExternDimSizes, rt.offset, rt.paddedOffset
    ensures SlotLoop(rt, pd, view, i + 1, offset', paddedOffset', nonempty', finalPadding', maxBytes')
    ensures SlotTailsKept(rt, nonempty', e0, o0, p0)
  {
    if pd.srcs[i].paddedConcat == 0 {
      SlotStep(pd, view, i);
      return offset, paddedOffset, nonempty, finalPadding, maxBytes;
    }
    offset', paddedOffset', nonempty', finalPadding', maxBytes' :=
      RecordNonemptySource(rt, pd, view, i, offset, paddedOffset, nonempty, finalPadding, maxBytes, e0, o0, p0);
  }

  /** A source with a non-zero padded concat extent: its slot is the next
      one, and the running sums and maxima take it in. */
  method RecordNonemptySource(rt: RuntimeParams, pd: ConcatPd, view: NormalizedView, i: nat,
                              offset: int, paddedOffset: int, nonempty: nat, finalPadding: int, maxBytes: int,
                              ghost e0: seq<int>, ghost o0: seq<int>, ghost p0: seq<int>)
    returns (offset': int, paddedOffset': int, nonempty': nat, finalPadding': int, maxBytes': int)
    requires ViewFor(pd, view) && rt.Valid() && |Nonempty(pd.srcs)| <= rt.offset.Length
    requires i < |pd.srcs| && pd.srcs[i].paddedConcat != 0
    requires SlotLoop(rt, pd, view, i, offset, paddedOffset, nonempty, finalPadding, maxBytes)
    requires SlotTailsKept(rt, nonempty, e0, o0, p0)
    modifies rt.srcExternDimSizes, rt.offset, rt.paddedOffset
    ensures SlotLoop(rt, pd, view, i + 1, offset', paddedOffset', nonempty', finalPadding', maxBytes')
    ensures SlotTailsKept(rt, nonempty', e0, o0, p0)
  {
    SlotStep(pd, view, i);
    NonemptyLength(pd.srcs, i, rt.offset.Length);
    var src := view.srcs[i];
    WriteSlot(rt, nonempty, src.strides.outer * view.dataTypeSize, offset, paddedOffset, e0, o0, p0);
    maxBytes' := Max(maxBytes, pd.srcs[i].bytes);
    finalPadding' := src.paddedDims.concat - src.dims.concat;
    offset' := offset + src.dims.concat;
    paddedOffset' := paddedOffset + src.paddedDims.concat;
    nonempty' := nonempty + 1;
  }

  /** The three per-slot array writes of one slot. */
  method WriteSlot(rt: RuntimeParams, k: nat, extern: int, offset: int, paddedOffset: int,
                   ghost e0: seq<int>, ghost o0: seq<int>, ghost p0: seq<int>)
    requires rt.Valid() && k < rt.offset.Length && SlotTailsKept(rt, k, e0, o0, p0)
    modifies rt.srcExternDimSizes, rt.offset, rt.paddedOffset
    ensures rt.srcExternDimSizes[..k + 1] == old(rt.srcExternDimSizes[..k]) + [extern]
    ensures rt.offset[..k + 1] == old(rt.offset[..k]) + [offset]
    ensures rt.paddedOffset[..k + 1] == old(rt.paddedOffset[..k]) + [paddedOffset]
    ensures SlotTailsKept(rt, k + 1, e0, o0, p0)
  {
    rt.srcExternDimSizes[k] := extern;
    WriteOffsets(rt, k, offset, paddedOffset, o0, p0);
  }

  /** The offset and padded offset of one slot; the slots after it keep
      the values they had in `o0` and `p0`. */
  method WriteOffsets(rt: RuntimeParams, k: nat, offset: int, paddedOffset: int,
                      ghost o0: seq<int>, ghost p0: seq<int>)
    requires rt.Valid() && k < rt.offset.Length && OffsetTailsKept(rt, k, o0, p0)
    modifies rt.offset, rt.paddedOffset
    ensures rt.offset[..k + 1] == old(rt.offset[..k]) + [offset]
    ensures rt.paddedOffset[..k + 1] == old(rt.paddedOffset[..k]) + [paddedOffset]
    ensures OffsetTailsKept(rt, k + 1, o0, p0)
  {
    rt.offset[k] := offset;
    rt.paddedOffset[k] := paddedOffset;
  }

  /** What one more source does to the slot functions: nothing when it is
      empty, one more slot with its values otherwise. */
  lemma SlotStep(pd: ConcatPd, view: NormalizedView, i: nat)
    requires i < |pd.srcs| == |view.srcs|
    ensures var src := view.srcs[i];
      if pd.srcs[i].paddedConcat == 0 then
        && |NonemptyUpTo(pd.srcs, i + 1)| == |NonemptyUpTo(pd.srcs, i)|
        && SlotValues(pd, view, LogicalExtent, i + 1) == SlotValues(pd, view, LogicalExtent, i)
        && SlotValues(pd, view, PaddedExtent, i + 1) == SlotValues(pd, view, PaddedExtent, i)
        && SlotValues(pd, view, ExternBytes, i + 1) == SlotValues(pd, view, ExternBytes, i)
        && FinalPaddingUpTo(pd, view, i + 1) == FinalPaddingUpTo(pd, view, i)
        && MaxBytesUpTo(pd, i + 1) == MaxBytesUpTo(pd, i)
      else
        && |NonemptyUpTo(pd.srcs, i + 1)| == |NonemptyUpTo(pd.srcs, i)| + 1
        && SlotValues(pd, view, LogicalExtent, i + 1) == SlotValues(pd, view, LogicalExtent, i) + [src.dims.concat]
        && SlotValues(pd, view, PaddedExtent, i + 1) == SlotValues(pd, view, PaddedExtent, i) + [src.paddedDims.concat]
        && SlotValues(pd, view, ExternBytes, i + 1) == SlotValues(pd, view, ExternBytes, i) + [src.strides.outer * view.dataTypeSize]
        && Sum(SlotValues(pd, view, LogicalExtent, i + 1)) == Sum(SlotValues(pd, view, LogicalExtent, i)) + src.dims.concat
        && Sum(SlotValues(pd, view, PaddedExtent, i + 1)) == Sum(SlotValues(pd, view, PaddedExtent, i)) + src.paddedDims.concat
        && Offsets(SlotValues(pd, view, LogicalExtent, i + 1)) == Offsets(SlotValues(pd, view, LogicalExtent, i)) + [Sum(SlotValues(pd, view, LogicalExtent, i))]
        && Offsets(SlotValues(pd, view, PaddedExtent, i + 1)) == Offsets(SlotValues(pd, view, PaddedExtent, i)) + [Sum(SlotValues(pd, view, PaddedExtent, i))]
        && FinalPaddingUpTo(pd, view, i + 1) == src.paddedDims.concat - src.dims.concat
        && MaxBytesUpTo(pd, i + 1) == Max(MaxBytesUpTo(pd, i), pd.srcs[i].bytes)
  {
    if pd.srcs[i].paddedConcat != 0 {
      SumSnoc(SlotValues(pd, view, LogicalExtent, i), view.srcs[i].dims.concat);
      SumSnoc(SlotValues(pd, view, PaddedExtent, i), view.srcs[i].paddedDims.concat);
    }
  }

  lemma NonemptyLength(srcs: seq<SrcMd>, i: nat, cap: nat)
    requires i < |srcs| && srcs[i].paddedConcat != 0 && |Nonempty(srcs)| <= cap
    ensures |NonemptyUpTo(srcs, i)| < cap
  {
    NonemptyPrefix(srcs, i + 1, |srcs|);
  }

  /** The slots of a prefix of the sources are a prefix of all slots. */
  lemma {:induction false} NonemptyPrefix(srcs: seq<SrcMd>, i: nat, n: nat)
    requires i <= n <= |srcs|
    ensures |NonemptyUpTo(srcs, i)| <= |NonemptyUpTo(srcs, n)|
    ensures NonemptyUpTo(srcs, n)[..|NonemptyUpTo(srcs, i)|] == NonemptyUpTo(srcs, i)
    decreases n - i
  {
    if i < n {
      NonemptyPrefix(srcs, i, n - 1);
    }
  }
}

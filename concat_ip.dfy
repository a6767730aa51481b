/** The internal-padding path of the planner (try_normalize_ip_concat2,
    reusable_simple_concat.cpp lines 157-319): a kernel for exactly two
    nonempty sources whose concat extents carry padding, planned on the
    normalization's pessimistic view. */
module ConcatIp {
  import opened Arith
  import opened ConcatTypes
  import opened ConcatSelect
  import opened ConcatSpec
  import opened ConcatPlan
  import opened ConcatIpSpec

  /* ---------- The path ---------- */

  /** try_normalize_ip_concat2. Every outcome leaves the layout recorded;
      with no width above 1 nothing else changes, otherwise the slot count,
      width, element size and index width are set, and only an accepted
      configuration switches the kernel to internal padding. */
  method TryNormalizeIpConcat2(conf: ConcatParams, rt: RuntimeParams, dev: Device, optimalLws: seq<int> -> seq<int>,
                               pd: ConcatPd, view: NormalizedView)
    returns (st: Status)
    requires ViewFor(pd, view) && conf.Valid() && rt.Valid() && Separate(conf, rt)
    requires |Nonempty(pd.srcs)| <= rt.offset.Length
    requires |ConcatBlocks(view.dst.innerBlocks)| <= conf.blocks.Length
    requires conf.blocks.Length > 0 && (|ConcatBlocks(view.dst.innerBlocks)| > 0 || conf.blocks[0] > 0)
    modifies conf`n, conf`simd, conf`dataTypeSize, conf`nBlocks, conf`readBlock, conf`writeBlock
    modifies conf`useInternalPaddingKernel, conf`useLargeIndex, conf`bytesPerWorkitem, conf.blocks, conf.strides
    modifies rt`srcConcatAxis0, rt`paddedSrcConcatAxis0, rt`srcConcatAxis1, rt`paddedSrcConcatAxis1
    modifies rt`dstExternDimSize, rt`dstPaddedConcatAxis, rt`dstConcatAxis, rt`innerAxis, rt`gws, rt`lws
    modifies rt.offset, rt.paddedOffset
    ensures FirstBlock(view.dst.innerBlocks, old(conf.blocks[0])) > 0
    ensures IpLayoutPlanned(conf, rt, pd, view)
    ensures conf.blocks[0] == FirstBlock(view.dst.innerBlocks, old(conf.blocks[0]))
    ensures IpOutcome(conf, rt, dev, optimalLws, pd, view, conf.blocks[0], st, old(KernelFieldsOf(conf, rt)))
    ensures OffsetTailsKept(rt, |Nonempty(pd.srcs)|, old(rt.offset[..]), old(rt.paddedOffset[..]))
    ensures BlockTailsKept(conf, conf.nBlocks, old(conf.blocks[..]), old(conf.strides[..]))
  {
    FirstBlockPositive(view.dst.innerBlocks, conf.blocks[0]);
    ghost var k0 := KernelFieldsOf(conf, rt);
    var nonempty := PlanIpLayout(conf, rt, pd, view);
    assert KernelFieldsOf(conf, rt) == k0;
    st := ChooseIpKernel(conf, rt, dev, optimalLws, pd, view, nonempty, IpRecordOf(pd, view));
  }

  /** Lines 230-318: the width search, then, with a width above 1, the
      kernel configuration. */
  method ChooseIpKernel(conf: ConcatParams, rt: RuntimeParams, dev: Device, optimalLws: seq<int> -> seq<int>,
                        pd: ConcatPd, view: NormalizedView, nonempty: nat, ghost r: IpRecord)
    returns (st: Status)
    requires ViewFor(pd, view) && conf.Valid() && conf.blocks.Length > 0 && conf.blocks[0] > 0
    requires conf.nBlocks == |ConcatBlocks(view.dst.innerBlocks)| && nonempty == |Nonempty(pd.srcs)|
    requires conf.bytesPerWorkitem == 0 && IpRecorded(conf, rt, r)
    modifies conf`n, conf`simd, conf`dataTypeSize, conf`useInternalPaddingKernel, conf`useLargeIndex, conf`bytesPerWorkitem
    modifies rt`innerAxis, rt`gws, rt`lws
    ensures IpRecorded(conf, rt, r)
    ensures IpOutcome(conf, rt, dev, optimalLws, pd, view, conf.blocks[0], st, old(KernelFieldsOf(conf, rt)))
  {
    var b0 := conf.blocks[0];
    var maxSimd, bpw := FindIpSimd(dev, pd.dst.bytes, view.dataTypeSize, b0);
    if maxSimd == 1 {
      return Unimplemented;
    }
    IpLoadsPositive(dev, maxSimd, pd.dst.bytes, view.dataTypeSize, b0);
    st := PlanIpKernel(conf, rt, optimalLws, pd, view, maxSimd, bpw, nonempty);
  }

  /** Lines 177-228: reads and writes of one element, no bytes per work
      item yet, then the source loop, the destination fields and the
      blocking records. */
  method PlanIpLayout(conf: ConcatParams, rt: RuntimeParams, pd: ConcatPd, view: NormalizedView)
    returns (nonempty: nat)
    requires ViewFor(pd, view) && conf.Valid() && rt.Valid() && Separate(conf, rt)
    requires |Nonempty(pd.srcs)| <= rt.offset.Length
    requires |ConcatBlocks(view.dst.innerBlocks)| <= conf.blocks.Length
    modifies conf`readBlock, conf`writeBlock, conf`bytesPerWorkitem, conf`nBlocks, conf.blocks, conf.strides
    modifies rt`srcConcatAxis0, rt`paddedSrcConcatAxis0, rt`srcConcatAxis1, rt`paddedSrcConcatAxis1
    modifies rt`dstExternDimSize, rt`dstPaddedConcatAxis, rt`dstConcatAxis
    modifies rt.offset, rt.paddedOffset
    ensures IpLayoutPlanned(conf, rt, pd, view) && conf.bytesPerWorkitem == 0
    ensures nonempty == |Nonempty(pd.srcs)|
    ensures OffsetTailsKept(rt, nonempty, old(rt.offset[..]), old(rt.paddedOffset[..]))
    ensures BlockTailsKept(conf, conf.nBlocks, old(conf.blocks[..]), old(conf.strides[..]))
  {
    conf.readBlock := 1;
    conf.writeBlock := 1;
    conf.bytesPerWorkitem := 0;
    var offset, paddedOffset, finalPadding;
    offset, paddedOffset, nonempty, finalPadding := RecordIpSlots(rt, pd, view);
    RecordDestination(rt, pd, view, offset + finalPadding);
    RecordConcatBlocks(conf, view.dst.innerBlocks);
  }

  /** The source loop of the path (lines 181-206): as in the general path,
      but without outer-stride sizes, and the first two slots' extents are
      kept aside. */
  method RecordIpSlots(rt: RuntimeParams, pd: ConcatPd, view: NormalizedView)
    returns (offset: int, paddedOffset: int, nonempty: nat, finalPadding: int)
    requires ViewFor(pd, view) && rt.Valid() && |Nonempty(pd.srcs)| <= rt.offset.Length
    modifies rt`srcConcatAxis0, rt`paddedSrcConcatAxis0, rt`srcConcatAxis1, rt`paddedSrcConcatAxis1
    modifies rt.offset, rt.paddedOffset
    ensures nonempty == |Nonempty(pd.srcs)|
    ensures offset == Sum(SlotValues(pd, view, LogicalExtent, |pd.srcs|))
    ensures paddedOffset == Sum(SlotValues(pd, view, PaddedExtent, |pd.srcs|))
    ensures finalPadding == FinalPaddingUpTo(pd, view, |pd.srcs|)
    ensures SlotsRecorded(rt, pd, view, |pd.srcs|, false)
    ensures LeadingSlotsRecorded(rt, pd, view, |pd.srcs|)
    ensures OffsetTailsKept(rt, nonempty, old(rt.offset[..]), old(rt.paddedOffset[..]))
  {
    ghost var o0, p0 := rt.offset[..], rt.paddedOffset[..];
    offset, paddedOffset, nonempty, finalPadding := 0, 0, 0, 0;
    for i := 0 to |pd.srcs|
      invariant IpSlotLoop(rt, pd, view, i, offset, paddedOffset, nonempty, finalPadding)
      invariant OffsetTailsKept(rt, nonempty, o0, p0)
    {
      offset, paddedOffset, nonempty, finalPadding :=
        RecordIpSource(rt, pd, view, i, offset, paddedOffset, nonempty, finalPadding, o0, p0);
    }
  }

  /** The loop's state after the first `i` sources. */
  predicate IpSlotLoop(rt: RuntimeParams, pd: ConcatPd, view: NormalizedView, i: nat,
                       offset: int, paddedOffset: int, nonempty: nat, finalPadding: int)
    requires i <= |pd.srcs| == |view.srcs|
    reads rt`srcConcatAxis0, rt`paddedSrcConcatAxis0, rt`srcConcatAxis1, rt`paddedSrcConcatAxis1
    reads rt.offset, rt.paddedOffset, rt.srcExternDimSizes
  {
    && nonempty == |NonemptyUpTo(pd.srcs, i)|
    && offset == Sum(SlotValues(pd, view, LogicalExtent, i))
    && paddedOffset == Sum(SlotValues(pd, view, PaddedExtent, i))
    && finalPadding == FinalPaddingUpTo(pd, view, i)
    && SlotsRecorded(rt, pd, view, i, false)
    && LeadingSlotsRecorded(rt, pd, view, i)
  }

  /** One iteration of the path's source loop. */
  method RecordIpSource(rt: RuntimeParams, pd: ConcatPd, view: NormalizedView, i: nat,
                        offset: int, paddedOffset: int, nonempty: nat, finalPadding: int,
                        ghost o0: seq<int>, ghost p0: seq<int>)
    returns (offset': int, paddedOffset': int, nonempty': nat, finalPadding': int)
    requires ViewFor(pd, view) && rt.Valid() && |Nonempty(pd.srcs)| <= rt.offset.Length
    requires i < |pd.srcs| && IpSlotLoop(rt, pd, view, i, offset, paddedOffset, nonempty, finalPadding)
    requires OffsetTailsKept(rt, nonempty, o0, p0)
    modifies rt`srcConcatAxis0, rt`paddedSrcConcatAxis0, rt`srcConcatAxis1, rt`paddedSrcConcatAxis1
    modifies rt.offset, rt.paddedOffset
    ensures IpSlotLoop(rt, pd, view, i + 1, offset', paddedOffset', nonempty', finalPadding')
    ensures OffsetTailsKept(rt, nonempty', o0, p0)
  {
    if pd.srcs[i].paddedConcat == 0 {
      SlotStep(pd, view, i);
      return offset, paddedOffset, nonempty, finalPadding;
    }
    offset', paddedOffset', nonempty', finalPadding' :=
      RecordIpNonemptySource(rt, pd, view, i, offset, paddedOffset, nonempty, finalPadding, o0, p0);
  }

  /** A source with a non-zero padded concat extent: its slot is the next
      one, and the first two such sources' extents are kept aside. */
  method RecordIpNonemptySource(rt: RuntimeParams, pd: ConcatPd, view: NormalizedView, i: nat,
                                offset: int, paddedOffset: int, nonempty: nat, finalPadding: int,
                                ghost o0: seq<int>, ghost p0: seq<int>)
    returns (offset': int, paddedOffset': int, nonempty': nat, finalPadding': int)
    requires ViewFor(pd, view) && rt.Valid() && |Nonempty(pd.srcs)| <= rt.offset.Length
    requires i < |pd.srcs| && pd.srcs[i].paddedConcat != 0
    requires IpSlotLoop(rt, pd, view, i, offset, paddedOffset, nonempty, finalPadding)
    requires OffsetTailsKept(rt, nonempty, o0, p0)
    modifies rt`srcConcatAxis0, rt`paddedSrcConcatAxis0, rt`srcConcatAxis1, rt`paddedSrcConcatAxis1
    modifies rt.offset, rt.paddedOffset
    ensures IpSlotLoop(rt, pd, view, i + 1, offset', paddedOffset', nonempty', finalPadding')
    ensures OffsetTailsKept(rt, nonempty', o0, p0)
  {
    SlotStep(pd, view, i);
    NonemptyLength(pd.srcs, i, rt.offset.Length);
    var src := view.srcs[i];
    WriteOffsets(rt, nonempty, offset, paddedOffset, o0, p0);
    finalPadding' := src.paddedDims.concat - src.dims.concat;
    offset' := offset + src.dims.concat;
    paddedOffset' := paddedOffset + src.paddedDims.concat;
    KeepLeadingExtents(rt, pd, view, i, nonempty);
    nonempty' := nonempty + 1;
  }

  /** The first two non-empty sources' extents, kept aside (lines 196-203). */
  method KeepLeadingExtents(rt: RuntimeParams, pd: ConcatPd, view: NormalizedView, i: nat, nonempty: nat)
    requires ViewFor(pd, view) && i < |pd.srcs| && pd.srcs[i].paddedConcat != 0
    requires nonempty == |NonemptyUpTo(pd.srcs, i)| && LeadingSlotsRecorded(rt, pd, view, i)
    modifies rt`srcConcatAxis0, rt`paddedSrcConcatAxis0, rt`srcConcatAxis1, rt`paddedSrcConcatAxis1
    ensures LeadingSlotsRecorded(rt, pd, view, i + 1)
  {
    SlotStep(pd, view, i);
    var src := view.srcs[i];
    if nonempty == 0 {
      rt.srcConcatAxis0 := src.dims.concat;
      rt.paddedSrcConcatAxis0 := src.paddedDims.concat;
    }
    if nonempty == 1 {
      rt.srcConcatAxis1 := src.dims.concat;
      rt.paddedSrcConcatAxis1 := src.paddedDims.concat;
    }
  }

  /** The width search (lines 230-256): the first of 32, 16, 8, 1 the device
      runs, not above the destination's element count, and whose elements
      per sub-group read are a positive multiple of the first block, which
      the width is not below. The bytes per work item are fixed by the first
      width that passes the device checks. */
  method FindIpSimd(dev: Device, dstBytes: nat, dts: nat, b0: nat) returns (maxSimd: nat, bpw: nat)
    requires dts > 0 && b0 > 0
    ensures maxSimd == FirstIpSimd(dev, SimdWidths, dstBytes, dts, b0)
    ensures maxSimd != 1 ==> bpw == BytesPerWorkitem(dts)
  {
    maxSimd, bpw := 1, 16;
    var k := 0;
    while k < |SimdWidths|
      invariant 0 <= k <= |SimdWidths|
      invariant maxSimd == 1
      invariant FirstIpSimd(dev, SimdWidths, dstBytes, dts, b0) == FirstIpSimd(dev, SimdWidths[k..], dstBytes, dts, b0)
    {
      var simd := SimdWidths[k];
      assert SimdWidths[k..][1..] == SimdWidths[k + 1..];
      if simd > dev.maxSubgroupSize || (simd > 1 && simd !in dev.subgroupWidths) || simd > dstBytes / dts {
        k := k + 1;
        continue;
      }
      bpw := if dts == 8 then 8 else 16;
      var elemsPerSimd := simd * (bpw / dts);
      if elemsPerSimd % b0 == 0 && elemsPerSimd >= b0 && simd >= b0 {
        maxSimd := simd;
        break;
      }
      k := k + 1;
    }
  }

  /** Lines 258-318, once a width above 1 was found: the slot count, width,
      element size and index width, then the eligibility rules and, when
      they hold, the internal-padding kernel's configuration. */
  method PlanIpKernel(conf: ConcatParams, rt: RuntimeParams, optimalLws: seq<int> -> seq<int>,
                      pd: ConcatPd, view: NormalizedView, maxSimd: nat, bpw: nat, nonempty: nat)
    returns (st: Status)
    requires ViewFor(pd, view) && conf.Valid() && conf.blocks.Length > 0 && conf.blocks[0] > 0
    requires conf.nBlocks == |ConcatBlocks(view.dst.innerBlocks)| && nonempty == |Nonempty(pd.srcs)|
    requires maxSimd > 0 && bpw == BytesPerWorkitem(view.dataTypeSize) && bpw / view.dataTypeSize > 0
    requires conf.bytesPerWorkitem == 0
    modifies conf`n, conf`simd, conf`dataTypeSize, conf`useInternalPaddingKernel, conf`useLargeIndex, conf`bytesPerWorkitem
    modifies rt`innerAxis, rt`gws, rt`lws
    ensures conf.n == nonempty && conf.simd == maxSimd && conf.dataTypeSize == view.dataTypeSize
    ensures conf.useLargeIndex <==> pd.dst.bytes > IntMax
    ensures st == Success <==> IpEligible(nonempty, maxSimd, view.dataTypeSize, conf.nBlocks, conf.blocks[0],
                                          view.dst.dims.inner, pd.dst.bytes)
    ensures st == Success ==> IpKernelPlanned(conf, rt, optimalLws, view)
    ensures st != Success ==>
      && conf.useInternalPaddingKernel == old(conf.useInternalPaddingKernel) && conf.bytesPerWorkitem == 0
      && rt.gws == old(rt.gws) && rt.lws == old(rt.lws) && rt.innerAxis == view.dst.strides.concat
  {
    var dts := view.dataTypeSize;
    var b0 := conf.blocks[0];
    conf.n := nonempty;
    conf.simd := maxSimd;
    rt.innerAxis := view.dst.strides.concat;
    conf.dataTypeSize := dts;
    conf.useLargeIndex := pd.dst.bytes > IntMax;

    var innerDim := view.dst.dims.inner;
    var loads := bpw / dts;
    var minBlockReadElements := conf.simd * loads;
    var rowInnerElems := b0 * innerDim;
    var innerSizeSufficient := rowInnerElems > minBlockReadElements;
    var problemSizeSufficient := pd.dst.bytes > 500000;
    var canSubgroupRead := true;
    if dts < 4 {
      if conf.nBlocks > 0 {
        canSubgroupRead := dts * b0 >= 4;
      } else {
        canSubgroupRead := false;
      }
    }
    var supportedBlockSize := conf.nBlocks > 0 && (b0 == 4 || b0 == 8 || b0 == 16 || b0 == 32);
    if conf.n == 2 && canSubgroupRead && innerSizeSufficient && supportedBlockSize && problemSizeSufficient {
      rt.innerAxis := innerDim;
      conf.dataTypeSize := dts;
      conf.useInternalPaddingKernel := true;
      conf.bytesPerWorkitem := bpw;
      rt.gws := [DivUp(view.dst.paddedDims.concat * innerDim, conf.simd * loads) * conf.simd, view.dst.dims.outer, 1];
      rt.lws := optimalLws(rt.gws);
      return Success;
    }
    return Unimplemented;
  }
}

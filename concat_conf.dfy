/** init_conf_common (reusable_simple_concat.cpp lines 321-346): the entry
    point of the planner. It turns away a destination that is not blocked
    and any source the normalization refuses, tries the internal-padding
    path when the normalization reports internal padding, and otherwise, or
    when that path declines, plans the general kernel. */
module ConcatConf {
  import opened Arith
  import opened ConcatTypes
  import opened ConcatSelect
  import opened ConcatSpec
  import opened ConcatPlan
  import opened ConcatIpSpec
  import opened ConcatIp

  /** The destination is blocked and the normalization took every source. */
  predicate Admitted(pd: ConcatPd, norm: Normalization)
  {
    pd.dst.blocked && forall i :: 0 <= i < |norm.accepts| ==> norm.accepts[i]
  }

  /** What the paths that may run need: a normalized descriptor for every
      source in both views, room for every slot and every concat block, an
      inner extent no candidate of the general path turns into zero
      elements, and, for the internal-padding path, a first block to divide
      by (the recorded one, or the stale entry when none is recorded). */
  predicate PathsReady(conf: ConcatParams, rt: RuntimeParams, dev: Device, pd: ConcatPd, norm: Normalization)
    requires DeviceOk(dev)
    reads conf.blocks
  {
    && ViewFor(pd, norm.standard) && ViewFor(pd, norm.pessimistic)
    && |Nonempty(pd.srcs)| <= rt.offset.Length
    && |ConcatPositions(norm.standard.dst.innerBlocks, 0)| <= conf.blocks.Length
    && InnerAxisPositive(dev, pd, norm.standard)
    && (norm.hasInternalPadding ==>
          var recs := ConcatBlocks(norm.pessimistic.dst.innerBlocks);
          |recs| <= conf.blocks.Length && conf.blocks.Length > 0 && (|recs| > 0 || conf.blocks[0] > 0))
  }

  /** The internal-padding path runs and accepts: the normalization reports
      internal padding and the path's rules hold for the first block it
      reads, `stale` being what blocks[0] held before. */
  predicate IpTaken(dev: Device, pd: ConcatPd, norm: Normalization, stale: int)
  {
    var b0 := FirstBlock(norm.pessimistic.dst.innerBlocks, stale);
    && norm.hasInternalPadding && norm.pessimistic.dataTypeSize > 0 && b0 > 0
    && IpAccepts(dev, pd, norm.pessimistic, b0)
  }

  /** What the general path leaves on the view `view`: with a usable first
      candidate, the best sound candidate `info` is planned and the status is
      success exactly when there is no padding waste, with the local work
      size and the index width set on success; otherwise the status is
      unimplemented. Without success the local work size and the index
      width are still `lws0` and `largeIndex0`, what they were before. */
  predicate GeneralOutcome(conf: ConcatParams, rt: RuntimeParams, dev: Device, pd: ConcatPd, view: NormalizedView,
                           st: Status, info: PrbInfo, lws0: seq<int>, largeIndex0: bool)
    requires DeviceOk(dev) && ViewFor(pd, view)
    reads conf, conf.blocks, conf.strides, rt, rt.offset, rt.paddedOffset, rt.srcExternDimSizes
  {
    var cs := AllCandidates(dev, pd.dst.bytes, view.maxReadSize, view.maxWriteSize);
    && (if |cs| > 0 && cs[0].block > 0 then
          && IsBest(cs, info) && SoundCandidate(dev, info, pd.dst.bytes, view.maxWriteSize) && info.block > 0
          && GeneralPlanned(conf, rt, pd, view, info)
          && (st == Success <==> !PaddingWaste(conf.writeBlock, conf.dataTypeSize, view.dst))
          && (st == Success ==> rt.lws == dev.optimalLws(rt.gws) && (conf.useLargeIndex <==> MaxBytes(pd) > IntMax))
        else
          st == Unimplemented)
    && (st != Success ==> rt.lws == lws0 && conf.useLargeIndex == largeIndex0)
  }

  /** The index width the general path starts from: the one before, or,
      after an internal-padding attempt that found a width above 1, the one
      that attempt set from the destination's size (line 265). */
  function LargeIndexBefore(dev: Device, pd: ConcatPd, norm: Normalization, stale: int, k0: KernelFields): (b: bool)
    requires ViewFor(pd, norm.pessimistic)
    ensures !norm.hasInternalPadding ==> b == k0.useLargeIndex
  {
    var b0 := FirstBlock(norm.pessimistic.dst.innerBlocks, stale);
    if norm.hasInternalPadding && b0 > 0 && IpSimd(dev, pd, norm.pessimistic, b0) != 1 then pd.dst.bytes > IntMax
    else k0.useLargeIndex
  }

  /** The configuration init_conf_common leaves behind once the inputs are
      admitted. `stale` is what blocks[0] held before, `k0` the kernel
      fields before and `bpw0` the bytes per work item before. When the
      internal-padding path accepts, its layout and kernel stand; otherwise
      the general path's outcome on the standard view stands, with the
      kernel choice as it was and, after a declined internal-padding
      attempt, no bytes per work item. */
  predicate ConfOutcome(conf: ConcatParams, rt: RuntimeParams, dev: Device, pd: ConcatPd, norm: Normalization,
                        st: Status, info: PrbInfo, stale: int, k0: KernelFields, bpw0: int)
    requires DeviceOk(dev) && ViewFor(pd, norm.standard) && ViewFor(pd, norm.pessimistic)
    reads conf, conf.blocks, conf.strides, rt, rt.offset, rt.paddedOffset, rt.srcExternDimSizes
  {
    if norm.hasInternalPadding && IpTaken(dev, pd, norm, stale) then
      && st == Success && conf.blocks.Length > 0 && conf.blocks[0] > 0
      && IpLayoutPlanned(conf, rt, pd, norm.pessimistic)
      && IpOutcome(conf, rt, dev, dev.optimalLws, pd, norm.pessimistic, conf.blocks[0], st, k0)
    else
      && GeneralOutcome(conf, rt, dev, pd, norm.standard, st, info, k0.lws, LargeIndexBefore(dev, pd, norm, stale, k0))
      && conf.useInternalPaddingKernel == k0.useInternalPaddingKernel
      && conf.bytesPerWorkitem == (if norm.hasInternalPadding then 0 else bpw0)
  }

  /** Lines 327-336: every source must be accepted by the normalization. */
  method AdmitSources(pd: ConcatPd, norm: Normalization) returns (ok: bool)
    requires |norm.accepts| == |pd.srcs|
    ensures ok <==> Admitted(pd, norm)
  {
    if !pd.dst.blocked {
      return false;
    }
    for i := 0 to |pd.srcs|
      invariant forall j :: 0 <= j < i ==> norm.accepts[j]
    {
      if !norm.accepts[i] {
        return false;
      }
    }
    return true;
  }

  /** init_conf_common. A refused input changes nothing; otherwise the
      configuration is the one `ConfOutcome` describes. */
  method InitConfCommon(conf: ConcatParams, rt: RuntimeParams, dev: Device, pd: ConcatPd, norm: Normalization)
    returns (st: Status, ghost info: PrbInfo)
    requires DeviceOk(dev) && conf.Valid() && rt.Valid() && Separate(conf, rt)
    requires |norm.accepts| == |pd.srcs|
    requires Admitted(pd, norm) ==> PathsReady(conf, rt, dev, pd, norm)
    modifies conf, conf.blocks, conf.strides, rt, rt.offset, rt.paddedOffset, rt.srcExternDimSizes
    ensures !Admitted(pd, norm) ==>
      st == Unimplemented && unchanged(conf, conf.blocks, conf.strides, rt, rt.offset, rt.paddedOffset, rt.srcExternDimSizes)
    ensures Admitted(pd, norm) ==>
      ConfOutcome(conf, rt, dev, pd, norm, st, info, if norm.hasInternalPadding then old(conf.blocks[0]) else 0,
                  old(KernelFieldsOf(conf, rt)), old(conf.bytesPerWorkitem))
    ensures Admitted(pd, norm) ==> SlotTailsKept(rt, |Nonempty(pd.srcs)|, old(rt.srcExternDimSizes[..]), old(rt.offset[..]), old(rt.paddedOffset[..]))
    ensures Admitted(pd, norm) ==> BlockTailsKept(conf, BlocksTouched(conf, norm), old(conf.blocks[..]), old(conf.strides[..]))
  {
    info := PrbInfo(0, 0, 0, 0);
    var ok := AdmitSources(pd, norm);
    if !ok {
      return Unimplemented, info;
    }
    st, info := PlanAdmitted(conf, rt, dev, pd, norm);
  }

  /** Lines 338-345 on admitted inputs: the internal-padding attempt, then
      the general path when that attempt does not succeed. */
  method PlanAdmitted(conf: ConcatParams, rt: RuntimeParams, dev: Device, pd: ConcatPd, norm: Normalization)
    returns (st: Status, ghost info: PrbInfo)
    requires DeviceOk(dev) && conf.Valid() && rt.Valid() && Separate(conf, rt)
    requires PathsReady(conf, rt, dev, pd, norm)
    modifies conf, conf.blocks, conf.strides, rt, rt.offset, rt.paddedOffset, rt.srcExternDimSizes
    ensures ConfOutcome(conf, rt, dev, pd, norm, st, info, if norm.hasInternalPadding then old(conf.blocks[0]) else 0,
                        old(KernelFieldsOf(conf, rt)), old(conf.bytesPerWorkitem))
    ensures SlotTailsKept(rt, |Nonempty(pd.srcs)|, old(rt.srcExternDimSizes[..]), old(rt.offset[..]), old(rt.paddedOffset[..]))
    ensures BlockTailsKept(conf, BlocksTouched(conf, norm), old(conf.blocks[..]), old(conf.strides[..]))
  {
    ghost var stale := if norm.hasInternalPadding then conf.blocks[0] else 0;
    ghost var k0 := KernelFieldsOf(conf, rt);
    ghost var bpw0 := conf.bytesPerWorkitem;
    if norm.hasInternalPadding {
      var s := TryNormalizeIpConcat2(conf, rt, dev, dev.optimalLws, pd, norm.pessimistic);
      if s == Success {
        return s, PrbInfo(0, 0, 0, 0);
      }
    }
    st, info := NormalizeReusableSimpleConcat(conf, rt, dev, pd, norm.standard);
  }

  /** The blocking slots a configuration may have written: those of the
      path that configured it, and, after a declined internal-padding
      attempt, those that attempt wrote before the general path ran. */
  function BlocksTouched(conf: ConcatParams, norm: Normalization): (n: int)
    reads conf`nBlocks
    ensures n >= conf.nBlocks
    ensures norm.hasInternalPadding ==> n >= |ConcatBlocks(norm.pessimistic.dst.innerBlocks)|
  {
    if norm.hasInternalPadding then Max(conf.nBlocks, |ConcatBlocks(norm.pessimistic.dst.innerBlocks)|) else conf.nBlocks
  }
}

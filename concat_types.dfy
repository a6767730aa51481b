/** The values the reusable simple concat planner reads: memory descriptors
    before and after normalization, the normalization object's outputs, and
    the device queries. The normalization itself (normalization_t in
    concat_utils.hpp) is not part of this model: its results are inputs. */
module ConcatTypes {

  /** status_t as far as this subsystem uses it. */
  datatype Status = Success | Unimplemented

  /** The three axes a normalized descriptor has (axis::outer, axis::concat,
      axis::inner). */
  datatype Axis = Outer | Concat | Inner

  /** One entry of a descriptor's inner blocking: a block size and the axis
      it blocks (inner_blks[i], inner_idxs[i]). */
  datatype InnerBlock = InnerBlock(size: nat, axis: Axis)

  /** An extent or stride per normalized axis. */
  datatype Dims3 = Dims3(outer: nat, concat: nat, inner: nat)

  /** A memory descriptor after normalization relabelled its axes as
      outer / concat / inner. */
  datatype Layout = Layout(
    dims: Dims3,
    paddedDims: Dims3,
    strides: Dims3,
    offset0: nat,
    innerBlocks: seq<InnerBlock>)

  /** Inner blocks of a well-formed descriptor are never empty. */
  predicate PositiveBlocks(l: Layout)
  {
    forall i :: 0 <= i < |l.innerBlocks| ==> l.innerBlocks[i].size > 0
  }

  /** What the planner reads from a source descriptor before normalization:
      its padded extent on the concat dimension and its size in bytes. */
  datatype SrcMd = SrcMd(paddedConcat: nat, bytes: nat)

  /** What the planner reads from the destination descriptor before
      normalization: whether its format kind is `blocked`, and its size in
      bytes. */
  datatype DstMd = DstMd(blocked: bool, bytes: nat)

  /** The concat primitive descriptor: destination and sources, in order. */
  datatype ConcatPd = ConcatPd(dst: DstMd, srcs: seq<SrcMd>)

  /** What a normalization_t yields: the element size it works in, the largest
      read and write chunk, and the normalized destination and sources (one
      per source of the primitive descriptor, by index). */
  datatype NormalizedView = NormalizedView(
    dataTypeSize: nat,
    maxWriteSize: nat,
    maxReadSize: nat,
    dst: Layout,
    srcs: seq<Layout>)

  /** The normalization object after every source was offered to it:
      `accepts[i]` is what add_source returned for source i,
      `hasInternalPadding` what has_internal_padding reports, `standard` the
      view the general path uses and `pessimistic` the view after
      set_pessimistic_chunk_size, which the internal-padding path uses. */
  datatype Normalization = Normalization(
    accepts: seq<bool>,
    hasInternalPadding: bool,
    standard: NormalizedView,
    pessimistic: NormalizedView)

  /** Device queries: max_subgroup_size, the sub-group widths for which
      mayiuse_sub_group holds, hw_threads, prb_info_t::register_bytes for the
      architecture, the block size prb_info_t derives from
      (simd, bytes, max_elems, max_read_size, max_write_size) on that
      architecture, and get_optimal_lws on that architecture. */
  datatype Device = Device(
    maxSubgroupSize: int,
    subgroupWidths: set<int>,
    hwThreads: nat,
    registerBytes: nat,
    blockFor: (int, nat, nat, nat, nat) -> nat,
    optimalLws: seq<int> -> seq<int>)

  /** What the planner divides by is never zero: one hardware thread at least,
      and a register holds one element of the widest width (8 bytes). */
  predicate DeviceOk(dev: Device)
  {
    dev.hwThreads > 0 && dev.registerBytes >= 8
  }

  /** A width the device can run: not above max_subgroup_size, and a
      supported sub-group unless it is 1. */
  predicate SimdUsable(dev: Device, simd: int)
  {
    simd <= dev.maxSubgroupSize && (simd > 1 ==> simd in dev.subgroupWidths)
  }

  /** A view in which every source of `pd` has its normalized descriptor. */
  predicate ViewFor(pd: ConcatPd, view: NormalizedView)
  {
    && |view.srcs| == |pd.srcs|
    && view.dataTypeSize > 0
    && PositiveBlocks(view.dst)
  }
}

/** Kernel argument assembly of the concat primitive
    (reusable_simple_concat.cpp lines 372-489): the per-slot index arguments
    of the general kernel and of the internal-padding kernel, and the order
    in which execute_concat puts the destination, the destination offsets
    and those index arguments before the launch. */
module ConcatArgs {
  import opened Arith
  import opened ConcatTypes
  import opened ConcatSpec
  import opened ConcatPlan

  /** The storage an argument refers to: the source at an input index, or
      the destination. */
  datatype Buffer = SrcBuffer(input: nat) | DstBuffer

  /** IDX_T, the index type the kernels are instantiated with. */
  datatype IdxType = Int32 | UInt64

  /** One entry of the kernel argument list. `Scalar` is a value appended
      with the type of the field it comes from. */
  datatype KernelArg =
    | Memory(buffer: Buffer)
    | Index(idxType: IdxType, value: int)
    | U64(value: int)
    | U8(value: int)
    | Scalar(value: int)

  /** static_cast<IDX_T>: wrap to the index type. */
  function Cast(t: IdxType, v: int): (r: int)
    ensures t == Int32 ==> -0x8000_0000 <= r <= IntMax && (r - v) % 0x1_0000_0000 == 0
    ensures t == UInt64 ==> 0 <= r < 0x1_0000_0000_0000_0000 && (r - v) % 0x1_0000_0000_0000_0000 == 0
  {
    if t == Int32 then WrapI32(v) else WrapU64(v)
  }

  /** A value inside the index type survives the cast. */
  lemma CastLossless(t: IdxType, v: int)
    requires t == Int32 ==> -0x8000_0000 <= v <= IntMax
    requires t == UInt64 ==> 0 <= v < 0x1_0000_0000_0000_0000
    ensures Cast(t, v) == v
  {
    var r := Cast(t, v);
    var m := if t == Int32 then 0x1_0000_0000 else 0x1_0000_0000_0000_0000;
    assert (r - v) % m == 0 && -m < r - v < m;
    ExactDivision(r - v, m);
    if r - v != 0 {
      var q := (r - v) / m;
      if q >= 1 {
        MulMonotone(q, m);
      } else {
        MulMonotone(-q, m);
      }
    }
  }

  function Idx(t: IdxType, v: int): KernelArg
  {
    Index(t, Cast(t, v))
  }

  /** A window inside the left part of a concatenation. */
  lemma SliceOfLeft<T>(a: seq<T>, b: seq<T>, i: nat, j: nat)
    requires i <= j <= |a|
    ensures (a + b)[i..j] == a[i..j]
  {
  }

  /** The right part of a concatenation is its last window. */
  lemma SliceOfRight<T>(a: seq<T>, b: seq<T>)
    ensures (a + b)[|a|..|a| + |b|] == b
  {
  }

  /** A window of the right part of a concatenation, shifted past the left. */
  lemma SliceOfRightAt<T>(a: seq<T>, b: seq<T>, i: nat, j: nat)
    requires i <= j <= |b|
    ensures (a + b)[|a| + i .. |a| + j] == b[i..j]
  {
  }

  lemma AppendAssoc<T>(a: seq<T>, b: seq<T>, c: seq<T>)
    ensures (a + b) + c == a + (b + c)
  {
  }

  /** The argument list object the arguments are appended to. */
  class KernelArgList {
    var args: seq<KernelArg>

    constructor ()
      ensures args == []
    {
      args := [];
    }

    method Append(a: KernelArg)
      modifies this
      ensures args == old(args) + [a]
    {
      args := args + [a];
    }
  }

  /* ---------- What the argument builders read ---------- */

  /** The runtime parameters the argument builders read, as values. */
  datatype IdxFields = IdxFields(
    extern: seq<int>, offset: seq<int>, paddedOffset: seq<int>,
    dstConcatAxis: int, dstPaddedConcatAxis: int, readOverlap: int, gws0Block: int, innerAxis: int,
    srcConcatAxis0: int, paddedSrcConcatAxis0: int, srcConcatAxis1: int, paddedSrcConcatAxis1: int)

  function IdxFieldsOf(rt: RuntimeParams): IdxFields
    reads rt, rt.srcExternDimSizes, rt.offset, rt.paddedOffset
  {
    IdxFields(rt.srcExternDimSizes[..], rt.offset[..], rt.paddedOffset[..],
              rt.dstConcatAxis, rt.dstPaddedConcatAxis, rt.readOverlap, rt.gws0Block, rt.innerAxis,
              rt.srcConcatAxis0, rt.paddedSrcConcatAxis0, rt.srcConcatAxis1, rt.paddedSrcConcatAxis1)
  }

  /** The per-slot arrays have an entry for each of `count` slots, and the
      general kernel's look-ahead to the next slot's offset, taken while the
      next slot index is below `n`, stays inside them. */
  predicate Readable(f: IdxFields, n: int, count: nat)
  {
    && |f.extern| == |f.offset| == |f.paddedOffset|
    && count <= |f.offset|
    && (count < |f.offset| || n <= |f.offset|)
  }

  /* ---------- The general kernel ---------- */

  /** The five arguments of slot `k`, which holds input `input`: its
      storage, its outer-stride size in elements, its offset and padded
      offset, and where it ends on the concat axis, which is the next slot's
      offset or, for the last of the `n` slots, the destination's extent. */
  function GeneralSlot(t: IdxType, f: IdxFields, n: int, dts: int, k: nat, input: nat): seq<KernelArg>
    requires dts != 0 && Readable(f, n, k + 1)
  {
    [ Memory(SrcBuffer(input)),
      Idx(t, CDiv(f.extern[k], dts)),
      Idx(t, f.offset[k]),
      Idx(t, f.paddedOffset[k]),
      Idx(t, if k + 1 < n then f.offset[k + 1] else f.dstConcatAxis) ]
  }

  function GeneralSlots(t: IdxType, f: IdxFields, n: int, dts: int, slots: seq<nat>): (args: seq<KernelArg>)
    requires dts != 0 && Readable(f, n, |slots|)
  {
    if slots == [] then []
    else GeneralSlots(t, f, n, dts, slots[..|slots| - 1]) + GeneralSlot(t, f, n, dts, |slots| - 1, slots[|slots| - 1])
  }

  /** Some offset or the destination's extent on the concat axis is not a
      multiple of the read overlap, so a work group's reads are cut off. */
  predicate Cutoff(f: IdxFields, count: nat)
    requires f.readOverlap != 0 && count <= |f.offset|
  {
    || f.dstConcatAxis % f.readOverlap != 0
    || exists k :: 0 <= k < count && f.offset[k] % f.readOverlap != 0
  }

  /** must_compute_ext_idx: work-group reads may run past the concat
      dimension, so the kernel must also compute the outer index. */
  predicate MustComputeExtIdx(f: IdxFields, count: nat)
    requires f.readOverlap != 0 && count <= |f.offset|
  {
    f.readOverlap * f.gws0Block > f.innerAxis || Cutoff(f, count)
  }

  /** push_idx_kernel_args: the slots' arguments, then the destination's
      extent and padded extent on the concat axis, the read overlap, the
      work-group block, the inner axis and the must-compute flag as a byte. */
  function GeneralIdxArgs(t: IdxType, f: IdxFields, n: int, dts: int, slots: seq<nat>): seq<KernelArg>
    requires dts != 0 && f.readOverlap != 0 && Readable(f, n, |slots|)
  {
    GeneralSlots(t, f, n, dts, slots)
    + [ Idx(t, f.dstConcatAxis), Idx(t, f.dstPaddedConcatAxis), Idx(t, f.readOverlap),
        Idx(t, f.gws0Block), Idx(t, f.innerAxis),
        U8(if MustComputeExtIdx(f, |slots|) then 1 else 0) ]
  }

  /** One more slot adds its five arguments at the end. */
  lemma GeneralSlotsSnoc(t: IdxType, f: IdxFields, n: int, dts: int, slots: seq<nat>, input: nat)
    requires dts != 0 && Readable(f, n, |slots| + 1)
    ensures GeneralSlots(t, f, n, dts, slots + [input])
         == GeneralSlots(t, f, n, dts, slots) + GeneralSlot(t, f, n, dts, |slots|, input)
  {
    assert (slots + [input])[..|slots|] == slots;
  }

  /** The slots' arguments come five per slot. */
  lemma {:induction false} GeneralSlotsLength(t: IdxType, f: IdxFields, n: int, dts: int, slots: seq<nat>)
    requires dts != 0 && Readable(f, n, |slots|)
    ensures |GeneralSlots(t, f, n, dts, slots)| == 5 * |slots|
  {
    if slots != [] {
      GeneralSlotsLength(t, f, n, dts, slots[..|slots| - 1]);
    }
  }

  /** Slot `k`'s arguments are at 5k. */
  lemma {:induction false} GeneralSlotAt(t: IdxType, f: IdxFields, n: int, dts: int, slots: seq<nat>, k: nat)
    requires dts != 0 && Readable(f, n, |slots|) && k < |slots|
    ensures |GeneralSlots(t, f, n, dts, slots)| == 5 * |slots|
    ensures GeneralSlots(t, f, n, dts, slots)[5 * k .. 5 * k + 5] == GeneralSlot(t, f, n, dts, k, slots[k])
  {
    var init := slots[..|slots| - 1];
    GeneralSlotsLength(t, f, n, dts, init);
    var prev := GeneralSlots(t, f, n, dts, init);
    var last := GeneralSlot(t, f, n, dts, |init|, slots[|init|]);
    assert GeneralSlots(t, f, n, dts, slots) == prev + last;
    if k < |init| {
      GeneralSlotAt(t, f, n, dts, init, k);
      SliceOfLeft(prev, last, 5 * k, 5 * k + 5);
      assert init[k] == slots[k];
    } else {
      SliceOfRight(prev, last);
    }
  }

  /** The general kernel receives five arguments per slot, slot `k`'s at
      5k, and six after them, the last being the must-compute flag, which
      is one exactly when the work-group reads overrun the inner axis or
      some offset or the destination's extent is not a multiple of the read
      overlap. */
  lemma GeneralIdxArgsShape(t: IdxType, f: IdxFields, n: int, dts: int, slots: seq<nat>)
    requires dts != 0 && f.readOverlap != 0 && Readable(f, n, |slots|)
    ensures var args := GeneralIdxArgs(t, f, n, dts, slots);
      && |args| == 5 * |slots| + 6
      && (forall k :: 0 <= k < |slots| ==> args[5 * k .. 5 * k + 5] == GeneralSlot(t, f, n, dts, k, slots[k]))
      && args[5 * |slots|] == Idx(t, f.dstConcatAxis)
      && (args[|args| - 1] == U8(1) <==>
            || f.readOverlap * f.gws0Block > f.innerAxis
            || f.dstConcatAxis % f.readOverlap != 0
            || exists k :: 0 <= k < |slots| && f.offset[k] % f.readOverlap != 0)
  {
    GeneralSlotsLength(t, f, n, dts, slots);
    var body := GeneralSlots(t, f, n, dts, slots);
    var tail := GeneralIdxArgs(t, f, n, dts, slots)[|body|..];
    forall k | 0 <= k < |slots|
      ensures (body + tail)[5 * k .. 5 * k + 5] == GeneralSlot(t, f, n, dts, k, slots[k])
    {
      GeneralSlotAt(t, f, n, dts, slots, k);
      SliceOfLeft(body, tail, 5 * k, 5 * k + 5);
    }
  }

  /** Adding a slot extends the cutoff test by that slot's offset. */
  lemma CutoffStep(f: IdxFields, count: nat)
    requires f.readOverlap != 0 && count < |f.offset|
    ensures Cutoff(f, count + 1) <==> Cutoff(f, count) || f.offset[count] % f.readOverlap != 0
  {
    if Cutoff(f, count + 1) && !Cutoff(f, count) {
      var k :| 0 <= k < count + 1 && f.offset[k] % f.readOverlap != 0;
      assert k == count;
    }
  }

  /** Lines 384-398 for slot `k`, which holds input `input`; `f` is what
      the runtime parameters hold, `n` the slot count and `dts` the element
      size of the configuration. Also reports whether the slot's offset is
      not a multiple of the read overlap. */
  method PushGeneralSlot(list: KernelArgList, t: IdxType, rt: RuntimeParams, ghost f: IdxFields, n: int, dts: int,
                         k: nat, input: nat)
    returns (misaligned: bool)
    requires f == IdxFieldsOf(rt) && dts != 0 && f.readOverlap != 0 && Readable(f, n, k + 1)
    modifies list
    ensures list.args == old(list.args) + GeneralSlot(t, f, n, dts, k, input)
    ensures misaligned == (f.offset[k] % f.readOverlap != 0)
  {
    list.Append(Memory(SrcBuffer(input)));
    list.Append(Idx(t, CDiv(rt.srcExternDimSizes[k], dts)));
    list.Append(Idx(t, rt.offset[k]));
    list.Append(Idx(t, rt.paddedOffset[k]));
    var next := if k + 1 < n then rt.offset[k + 1] else rt.dstConcatAxis;
    list.Append(Idx(t, next));
    misaligned := rt.offset[k] % rt.readOverlap != 0;
  }

  /** Lines 401-413: the trailing arguments, `mustComputeExtIdx` last. */
  method PushGeneralTrailer(list: KernelArgList, t: IdxType, rt: RuntimeParams, ghost f: IdxFields, mustComputeExtIdx: bool)
    requires rt.Valid() && f == IdxFieldsOf(rt)
    modifies list
    ensures list.args == old(list.args)
      + [ Idx(t, f.dstConcatAxis), Idx(t, f.dstPaddedConcatAxis), Idx(t, f.readOverlap),
          Idx(t, f.gws0Block), Idx(t, f.innerAxis), U8(if mustComputeExtIdx then 1 else 0) ]
  {
    list.Append(Idx(t, rt.dstConcatAxis));
    list.Append(Idx(t, rt.dstPaddedConcatAxis));
    list.Append(Idx(t, rt.readOverlap));
    list.Append(Idx(t, rt.gws0Block));
    list.Append(Idx(t, rt.innerAxis));
    list.Append(U8(if mustComputeExtIdx then 1 else 0));
  }

  /** push_idx_kernel_args: the slots' arguments, then the trailing ones
      with the must-compute flag. */
  method PushIdxKernelArgs(list: KernelArgList, t: IdxType, conf: ConcatParams, rt: RuntimeParams, pd: ConcatPd)
    requires rt.Valid() && conf.dataTypeSize != 0 && rt.readOverlap != 0
    requires Readable(IdxFieldsOf(rt), conf.n, |Nonempty(pd.srcs)|)
    modifies list
    ensures list.args == old(list.args) + GeneralIdxArgs(t, IdxFieldsOf(rt), conf.n, conf.dataTypeSize, Nonempty(pd.srcs))
  {
    ghost var f := IdxFieldsOf(rt);
    ghost var args0 := list.args;
    var cutoff := PushGeneralSlots(list, t, rt, pd, f, conf.n, conf.dataTypeSize);
    ghost var slotArgs := GeneralSlots(t, f, conf.n, conf.dataTypeSize, Nonempty(pd.srcs));
    var mustComputeExtIdx := rt.readOverlap * rt.gws0Block > rt.innerAxis || cutoff;
    PushGeneralTrailer(list, t, rt, f, mustComputeExtIdx);
    AppendAssoc(args0, slotArgs, GeneralIdxArgs(t, f, conf.n, conf.dataTypeSize, Nonempty(pd.srcs))[|slotArgs|..]);
  }

  /** Lines 379-399: walks the inputs, skipping the empty ones, appends each
      slot's arguments and reports whether some offset or the destination's
      extent is cut off by the read overlap. */
  method PushGeneralSlots(list: KernelArgList, t: IdxType, rt: RuntimeParams, pd: ConcatPd, ghost f: IdxFields, n: int, dts: int)
    returns (cutoff: bool)
    requires rt.Valid() && f == IdxFieldsOf(rt) && dts != 0 && f.readOverlap != 0
    requires Readable(f, n, |Nonempty(pd.srcs)|)
    modifies list
    ensures list.args == old(list.args) + GeneralSlots(t, f, n, dts, Nonempty(pd.srcs))
    ensures cutoff == Cutoff(f, |Nonempty(pd.srcs)|)
  {
    ghost var args0 := list.args;
    cutoff := rt.dstConcatAxis % rt.readOverlap != 0;
    var validIdx := 0;
    for idx := 0 to |pd.srcs|
      invariant GeneralPushedUpTo(list.args, args0, t, f, n, dts, pd.srcs, idx, validIdx, cutoff)
    {
      validIdx, cutoff := PushGeneralInput(list, t, rt, pd, f, n, dts, idx, validIdx, cutoff, args0);
    }
  }

  /** After the inputs before `idx`: `validIdx` slots taken, their
      arguments appended to `args0`, and `cutoff` telling whether one of
      their offsets or the destination's extent is cut off. */
  predicate GeneralPushedUpTo(args: seq<KernelArg>, args0: seq<KernelArg>, t: IdxType, f: IdxFields, n: int, dts: int,
                              srcs: seq<SrcMd>, idx: nat, validIdx: nat, cutoff: bool)
    requires dts != 0 && f.readOverlap != 0 && Readable(f, n, |Nonempty(srcs)|) && idx <= |srcs|
  {
    && validIdx == |NonemptyUpTo(srcs, idx)| <= |Nonempty(srcs)|
    && args == args0 + GeneralSlots(t, f, n, dts, NonemptyUpTo(srcs, idx))
    && cutoff == Cutoff(f, validIdx)
  }

  /** One turn of the loop of lines 380-399: input `idx` is skipped when
      empty, otherwise its slot's arguments are appended and its offset
      joins the cut-off test. */
  method PushGeneralInput(list: KernelArgList, t: IdxType, rt: RuntimeParams, pd: ConcatPd, ghost f: IdxFields, n: int,
                          dts: int, idx: nat, validIdx: nat, cutoff: bool, ghost args0: seq<KernelArg>)
    returns (validIdx': nat, cutoff': bool)
    requires f == IdxFieldsOf(rt) && dts != 0 && f.readOverlap != 0
    requires Readable(f, n, |Nonempty(pd.srcs)|) && idx < |pd.srcs|
    requires GeneralPushedUpTo(list.args, args0, t, f, n, dts, pd.srcs, idx, validIdx, cutoff)
    modifies list
    ensures GeneralPushedUpTo(list.args, args0, t, f, n, dts, pd.srcs, idx + 1, validIdx', cutoff')
  {
    NonemptyStep(pd.srcs, idx);
    if pd.srcs[idx].paddedConcat == 0 {
      return validIdx, cutoff;
    }
    GeneralPushStep(t, f, n, dts, pd.srcs, idx, args0);
    var misaligned := PushGeneralSlot(list, t, rt, f, n, dts, validIdx, idx);
    return validIdx + 1, cutoff || misaligned;
  }

  /** Pushing the slot of nonempty input `idx` extends the arguments of the
      inputs before it to those of the inputs up to it, and the cut-off
      test by that slot's offset. */
  lemma GeneralPushStep(t: IdxType, f: IdxFields, n: int, dts: int, srcs: seq<SrcMd>, idx: nat, args0: seq<KernelArg>)
    requires dts != 0 && f.readOverlap != 0 && Readable(f, n, |Nonempty(srcs)|)
    requires idx < |srcs| && srcs[idx].paddedConcat != 0
    ensures var k := |NonemptyUpTo(srcs, idx)|;
      && k + 1 == |NonemptyUpTo(srcs, idx + 1)| <= |Nonempty(srcs)| && Readable(f, n, k + 1)
      && args0 + GeneralSlots(t, f, n, dts, NonemptyUpTo(srcs, idx + 1))
         == args0 + GeneralSlots(t, f, n, dts, NonemptyUpTo(srcs, idx)) + GeneralSlot(t, f, n, dts, k, idx)
      && (Cutoff(f, k + 1) <==> Cutoff(f, k) || f.offset[k] % f.readOverlap != 0)
  {
    var slots := NonemptyUpTo(srcs, idx);
    NonemptyStep(srcs, idx);
    NonemptyLength(srcs, idx, |Nonempty(srcs)|);
    NonemptyPrefix(srcs, idx + 1, |srcs|);
    GeneralSlotsSnoc(t, f, n, dts, slots, idx);
    AppendAssoc(args0, GeneralSlots(t, f, n, dts, slots), GeneralSlot(t, f, n, dts, |slots|, idx));
    CutoffStep(f, |slots|);
  }

  /* ---------- The internal-padding kernel ---------- */

  /** The arguments of slot `k`, which holds input `input`: its storage,
      offset and padded offset, and the first or the second source's
      concat-axis extents, the latter for every slot after the first. */
  function IpSlot(t: IdxType, f: IdxFields, k: nat, input: nat): seq<KernelArg>
    requires k < |f.offset| == |f.paddedOffset|
  {
    [Memory(SrcBuffer(input)), Idx(t, f.offset[k]), Idx(t, f.paddedOffset[k])]
    + (if k == 0 then [Scalar(f.srcConcatAxis0), Scalar(f.paddedSrcConcatAxis0)]
       else [Scalar(f.srcConcatAxis1), Scalar(f.paddedSrcConcatAxis1)])
  }

  function IpSlots(t: IdxType, f: IdxFields, slots: seq<nat>): seq<KernelArg>
    requires |slots| <= |f.offset| == |f.paddedOffset|
  {
    if slots == [] then []
    else IpSlots(t, f, slots[..|slots| - 1]) + IpSlot(t, f, |slots| - 1, slots[|slots| - 1])
  }

  /** push_idx_kernel_args_internal_padding: the destination's extent and
      padded extent on the concat axis, the slots' arguments, and the inner
      axis last. */
  function IpIdxArgs(t: IdxType, f: IdxFields, slots: seq<nat>): seq<KernelArg>
    requires |slots| <= |f.offset| == |f.paddedOffset|
  {
    [Idx(t, f.dstConcatAxis), Idx(t, f.dstPaddedConcatAxis)] + IpSlots(t, f, slots) + [Idx(t, f.innerAxis)]
  }

  lemma {:induction false} IpSlotsAt(t: IdxType, f: IdxFields, slots: seq<nat>)
    requires |slots| <= |f.offset| == |f.paddedOffset|
    ensures |IpSlots(t, f, slots)| == 5 * |slots|
    ensures forall k :: 0 <= k < |slots| ==> IpSlots(t, f, slots)[5 * k .. 5 * k + 5] == IpSlot(t, f, k, slots[k])
  {
    if slots != [] {
      var init := slots[..|slots| - 1];
      IpSlotsAt(t, f, init);
      var prev := IpSlots(t, f, init);
      var last := IpSlot(t, f, |init|, slots[|init|]);
      var all := IpSlots(t, f, slots);
      assert all == prev + last;
      forall k | 0 <= k < |slots|
        ensures all[5 * k .. 5 * k + 5] == IpSlot(t, f, k, slots[k])
      {
        if k < |init| {
          SliceOfLeft(prev, last, 5 * k, 5 * k + 5);
          assert init[k] == slots[k];
        } else {
          assert k == |init| && |prev| == 5 * k && |last| == 5;
          SliceOfRight(prev, last);
        }
      }
    }
  }

  /** The internal-padding kernel receives the destination's two extents,
      then five arguments per slot, slot `k`'s at 2 + 5k, and the inner axis
      last. */
  lemma IpIdxArgsShape(t: IdxType, f: IdxFields, slots: seq<nat>)
    requires |slots| <= |f.offset| == |f.paddedOffset|
    ensures var args := IpIdxArgs(t, f, slots);
      && |args| == 5 * |slots| + 3
      && args[0] == Idx(t, f.dstConcatAxis) && args[1] == Idx(t, f.dstPaddedConcatAxis)
      && (forall k :: 0 <= k < |slots| ==> args[2 + 5 * k .. 7 + 5 * k] == IpSlot(t, f, k, slots[k]))
      && args[|args| - 1] == Idx(t, f.innerAxis)
  {
    IpSlotsAt(t, f, slots);
    var lead := [Idx(t, f.dstConcatAxis), Idx(t, f.dstPaddedConcatAxis)];
    var body := IpSlots(t, f, slots);
    var tail := [Idx(t, f.innerAxis)];
    forall k | 0 <= k < |slots|
      ensures (lead + body + tail)[2 + 5 * k .. 7 + 5 * k] == IpSlot(t, f, k, slots[k])
    {
      SliceOfRightAt(lead, body, 5 * k, 5 * k + 5);
      SliceOfLeft(lead + body, tail, 2 + 5 * k, 7 + 5 * k);
    }
  }

  /** One more slot adds its five arguments at the end. */
  lemma IpSlotsSnoc(t: IdxType, f: IdxFields, slots: seq<nat>, input: nat)
    requires |slots| < |f.offset| == |f.paddedOffset|
    ensures IpSlots(t, f, slots + [input]) == IpSlots(t, f, slots) + IpSlot(t, f, |slots|, input)
  {
    assert (slots + [input])[..|slots|] == slots;
  }

  /** Lines 431-446 for slot `k`, which holds input `input`. */
  method PushIpSlot(list: KernelArgList, t: IdxType, rt: RuntimeParams, ghost f: IdxFields, k: nat, input: nat)
    requires rt.Valid() && f == IdxFieldsOf(rt) && k < rt.offset.Length
    modifies list
    ensures list.args == old(list.args) + IpSlot(t, f, k, input)
  {
    list.Append(Memory(SrcBuffer(input)));
    list.Append(Idx(t, rt.offset[k]));
    list.Append(Idx(t, rt.paddedOffset[k]));
    if k == 0 {
      list.Append(Scalar(rt.srcConcatAxis0));
      list.Append(Scalar(rt.paddedSrcConcatAxis0));
    } else {
      list.Append(Scalar(rt.srcConcatAxis1));
      list.Append(Scalar(rt.paddedSrcConcatAxis1));
    }
  }

  /** Lines 428-449: walks the inputs, skipping the empty ones, and appends
      each slot's arguments. */
  method PushIpSlots(list: KernelArgList, t: IdxType, rt: RuntimeParams, pd: ConcatPd, ghost f: IdxFields)
    requires rt.Valid() && f == IdxFieldsOf(rt) && |Nonempty(pd.srcs)| <= rt.offset.Length
    modifies list
    ensures list.args == old(list.args) + IpSlots(t, f, Nonempty(pd.srcs))
  {
    ghost var args0 := list.args;
    ghost var slots: seq<nat> := [];
    var validIdx := 0;
    for idx := 0 to |pd.srcs|
      invariant slots == NonemptyUpTo(pd.srcs, idx) && validIdx == |slots| <= |Nonempty(pd.srcs)|
      invariant list.args == args0 + IpSlots(t, f, slots)
    {
      NonemptyStep(pd.srcs, idx);
      if pd.srcs[idx].paddedConcat == 0 {
        continue;
      }
      NonemptyLength(pd.srcs, idx, |Nonempty(pd.srcs)|);
      IpSlotsSnoc(t, f, slots, idx);
      PushIpSlot(list, t, rt, f, validIdx, idx);
      AppendAssoc(args0, IpSlots(t, f, slots), IpSlot(t, f, validIdx, idx));
      slots := slots + [idx];
      validIdx := validIdx + 1;
    }
  }

  /** push_idx_kernel_args_internal_padding. */
  method PushIdxKernelArgsInternalPadding(list: KernelArgList, t: IdxType, rt: RuntimeParams, pd: ConcatPd)
    requires rt.Valid() && |Nonempty(pd.srcs)| <= rt.offset.Length
    modifies list
    ensures list.args == old(list.args) + IpIdxArgs(t, IdxFieldsOf(rt), Nonempty(pd.srcs))
  {
    ghost var f := IdxFieldsOf(rt);
    ghost var args0 := list.args;
    list.Append(Idx(t, rt.dstConcatAxis));
    list.Append(Idx(t, rt.dstPaddedConcatAxis));
    ghost var lead := [Idx(t, f.dstConcatAxis), Idx(t, f.dstPaddedConcatAxis)];
    assert list.args == args0 + lead;
    PushIpSlots(list, t, rt, pd, f);
    ghost var body := IpSlots(t, f, Nonempty(pd.srcs));
    list.Append(Idx(t, rt.innerAxis));
    assert list.args == ((args0 + lead) + body) + [Idx(t, f.innerAxis)];
    AppendAssoc(args0, lead, body);
    AppendAssoc(args0, lead + body, [Idx(t, f.innerAxis)]);
  }

  /* ---------- execute_concat ---------- */

  datatype KernelKind = GeneralKernel | InternalPaddingKernel

  /** What execute_concat enqueues: nothing, or one kernel with its global
      and local work sizes and its argument list. */
  datatype Launch = NoLaunch | Launch(kernel: KernelKind, gws: seq<int>, lws: seq<int>, args: seq<KernelArg>)

  /** The index type execute_concat instantiates the argument builders
      with. */
  function IdxTypeFor(useLargeIndex: bool): IdxType
  {
    if useLargeIndex then UInt64 else Int32
  }

  /** The full argument list of a launch: the destination, then for the
      general kernel its first offset and outer-stride size as 64-bit
      values, then the index arguments. */
  function LaunchArgs(useIp: bool, t: IdxType, f: IdxFields, dstOffset0: int, dstExtern: int, n: int, dts: int, slots: seq<nat>): seq<KernelArg>
    requires !useIp ==> dts != 0 && f.readOverlap != 0 && Readable(f, n, |slots|)
    requires useIp ==> |slots| <= |f.offset| == |f.paddedOffset|
  {
    [Memory(DstBuffer)]
    + if useIp then IpIdxArgs(t, f, slots)
      else [U64(WrapU64(dstOffset0)), U64(WrapU64(CDiv(dstExtern, dts)))] + GeneralIdxArgs(t, f, n, dts, slots)
  }

  /** The destination comes first and each nonempty source appears once,
      in input order, five arguments apart, at a position that depends only
      on the kernel; the list has 5n + 9 entries for the general kernel and
      5n + 4 for the internal-padding one. */
  lemma LaunchArgsShape(useIp: bool, t: IdxType, f: IdxFields, dstOffset0: int, dstExtern: int, n: int, dts: int, slots: seq<nat>)
    requires !useIp ==> dts != 0 && f.readOverlap != 0 && Readable(f, n, |slots|)
    requires useIp ==> |slots| <= |f.offset| == |f.paddedOffset|
    ensures var args := LaunchArgs(useIp, t, f, dstOffset0, dstExtern, n, dts, slots);
      && args[0] == Memory(DstBuffer)
      && |args| == 5 * |slots| + (if useIp then 4 else 9)
      && forall k :: 0 <= k < |slots| ==> args[3 + 5 * k] == Memory(SrcBuffer(slots[k]))
  {
    var args := LaunchArgs(useIp, t, f, dstOffset0, dstExtern, n, dts, slots);
    if useIp {
      IpIdxArgsShape(t, f, slots);
      var ip := IpIdxArgs(t, f, slots);
      forall k | 0 <= k < |slots|
        ensures args[3 + 5 * k] == Memory(SrcBuffer(slots[k]))
      {
        assert args[3 + 5 * k] == ip[2 + 5 * k] == ip[2 + 5 * k .. 7 + 5 * k][0];
      }
    } else {
      GeneralIdxArgsShape(t, f, n, dts, slots);
      var g := GeneralIdxArgs(t, f, n, dts, slots);
      forall k | 0 <= k < |slots|
        ensures args[3 + 5 * k] == Memory(SrcBuffer(slots[k]))
      {
        assert args[3 + 5 * k] == g[5 * k];
      }
    }
  }

  /** What the kernel arguments need of the configuration: the arrays have
      an entry for every slot and, for the general kernel, a nonzero element
      size and read overlap and room for the look-ahead. */
  predicate ArgsReady(conf: ConcatParams, rt: RuntimeParams, pd: ConcatPd)
    reads conf, rt, rt.srcExternDimSizes, rt.offset, rt.paddedOffset
  {
    && rt.Valid() && |Nonempty(pd.srcs)| <= rt.offset.Length
    && (!conf.useInternalPaddingKernel ==>
          conf.dataTypeSize != 0 && rt.readOverlap != 0 && Readable(IdxFieldsOf(rt), conf.n, |Nonempty(pd.srcs)|))
  }

  /** execute_concat: with no slots nothing is enqueued and the status is
      success; otherwise the chosen kernel is enqueued on the planned work
      sizes with the argument list above, and the status is the one the
      launch reports (`enqueued`). */
  method ExecuteConcat(conf: ConcatParams, rt: RuntimeParams, pd: ConcatPd, enqueued: Status)
    returns (st: Status, launch: Launch)
    requires conf.n != 0 ==> ArgsReady(conf, rt, pd)
    ensures conf.n == 0 ==> st == Success && launch == NoLaunch
    ensures conf.n != 0 ==>
      && st == enqueued
      && launch.Launch?
      && launch.kernel == (if conf.useInternalPaddingKernel then InternalPaddingKernel else GeneralKernel)
      && launch.gws == rt.gws && launch.lws == rt.lws
      && launch.args == LaunchArgs(conf.useInternalPaddingKernel, IdxTypeFor(conf.useLargeIndex), IdxFieldsOf(rt),
                                   rt.dstOffset0, rt.dstExternDimSize, conf.n, conf.dataTypeSize, Nonempty(pd.srcs))
  {
    if conf.n == 0 {
      return Success, NoLaunch;
    }
    var list := new KernelArgList();
    list.Append(Memory(DstBuffer));
    var t := IdxTypeFor(conf.useLargeIndex);
    var kernel;
    if conf.useInternalPaddingKernel {
      PushIdxKernelArgsInternalPadding(list, t, rt, pd);
      kernel := InternalPaddingKernel;
    } else {
      list.Append(U64(WrapU64(rt.dstOffset0)));
      list.Append(U64(WrapU64(CDiv(rt.dstExternDimSize, conf.dataTypeSize))));
      PushIdxKernelArgs(list, t, conf, rt, pd);
      kernel := GeneralKernel;
    }
    return enqueued, Launch(kernel, rt.gws, rt.lws, list.args);
  }
}

/** Choice of the vector width and element size of the general concat kernel
    (lines 55-75 of reusable_simple_concat.cpp): every (simd, bytes) pair the
    device allows becomes a prb_info_t candidate, and the candidate first in
    the candidates' order is used. */
module ConcatSelect {
  import opened Arith
  import opened ConcatTypes

  /** The sub-group widths tried, widest first. */
  const SimdWidths: seq<nat> := [32, 16, 8, 1]

  /** The element byte sizes tried, widest first. */
  const ElementBytes: seq<nat> := [8, 4, 2, 1]

  /** prb_info_t: a candidate's simd width, element byte size, maximum
      elements per work item and the block size derived from them. */
  datatype PrbInfo = PrbInfo(simd: nat, typeSize: nat, maxElems: nat, block: nat)


  /** Elements per work item that keep every hardware thread busy, rounded up
      to whole registers. */
  function MaxElems(dev: Device, simd: nat, bytes: nat, dstBytes: nat): nat
    requires DeviceOk(dev) && 1 <= bytes <= 8
  {
    RegisterHoldsElements(dev, bytes);
    RndUp(DivUp(simd * (dstBytes / bytes), dev.hwThreads), dev.registerBytes / bytes)
  }

  lemma RegisterHoldsElements(dev: Device, bytes: nat)
    requires DeviceOk(dev) && 1 <= bytes <= 8
    ensures dev.registerBytes / bytes > 0
  {
  }

  /** The conditions under which the enumeration keeps (simd, bytes). */
  predicate Admissible(dev: Device, simd: nat, bytes: nat, dstBytes: nat, maxWrite: nat)
    requires DeviceOk(dev) && 1 <= bytes <= 8
  {
    && SimdUsable(dev, simd)
    && maxWrite % bytes == 0
    && simd <= MaxElems(dev, simd, bytes, dstBytes)
  }

  predicate WidthsInRange(bs: seq<nat>)
  {
    forall i :: 0 <= i < |bs| ==> 1 <= bs[i] <= 8
  }

  function MakeInfo(dev: Device, simd: nat, bytes: nat, dstBytes: nat, maxRead: nat, maxWrite: nat): PrbInfo
    requires DeviceOk(dev) && 1 <= bytes <= 8
  {
    var me := MaxElems(dev, simd, bytes, dstBytes);
    PrbInfo(simd, bytes, me, dev.blockFor(simd, bytes, me, maxRead, maxWrite))
  }

  /** The candidates one usable width contributes, for the byte sizes `bs`
      in order. */
  function CandidatesFor(dev: Device, simd: nat, bs: seq<nat>, dstBytes: nat, maxRead: nat, maxWrite: nat): seq<PrbInfo>
    requires DeviceOk(dev) && WidthsInRange(bs)
  {
    if bs == [] then []
    else
      var b := bs[|bs| - 1];
      CandidatesFor(dev, simd, bs[..|bs| - 1], dstBytes, maxRead, maxWrite)
      + (if maxWrite % b == 0 && simd <= MaxElems(dev, simd, b, dstBytes)
         then [MakeInfo(dev, simd, b, dstBytes, maxRead, maxWrite)] else [])
  }

  /** The candidates of the widths `ws`, in enumeration order. */
  function Candidates(dev: Device, ws: seq<nat>, dstBytes: nat, maxRead: nat, maxWrite: nat): seq<PrbInfo>
    requires DeviceOk(dev)
  {
    if ws == [] then []
    else
      var simd := ws[|ws| - 1];
      Candidates(dev, ws[..|ws| - 1], dstBytes, maxRead, maxWrite)
      + (if SimdUsable(dev, simd)
         then CandidatesFor(dev, simd, ElementBytes, dstBytes, maxRead, maxWrite) else [])
  }

  function AllCandidates(dev: Device, dstBytes: nat, maxRead: nat, maxWrite: nat): seq<PrbInfo>
    requires DeviceOk(dev)
  {
    Candidates(dev, SimdWidths, dstBytes, maxRead, maxWrite)
  }

  /** The enumeration loop of the general path: both loops in the order the
      source has them, skipping what the device or the write size excludes.
      (The source's `has_scales` guard is the constant false and never
      breaks the inner loop.) */
  method EnumerateCandidates(dev: Device, dstBytes: nat, maxRead: nat, maxWrite: nat) returns (infos: seq<PrbInfo>)
    requires DeviceOk(dev)
    ensures infos == AllCandidates(dev, dstBytes, maxRead, maxWrite)
  {
    infos := [];
    for si := 0 to |SimdWidths|
      invariant infos == Candidates(dev, SimdWidths[..si], dstBytes, maxRead, maxWrite)
    {
      var simd := SimdWidths[si];
      CandidatesStep(dev, si, dstBytes, maxRead, maxWrite);
      if simd > dev.maxSubgroupSize { continue; }
      if simd > 1 && simd !in dev.subgroupWidths { continue; }
      var more := EnumerateSizes(dev, simd, dstBytes, maxRead, maxWrite);
      infos := infos + more;
    }
    assert SimdWidths[..|SimdWidths|] == SimdWidths;
  }

  /** The inner loop of the enumeration, for one usable width. */
  method EnumerateSizes(dev: Device, simd: nat, dstBytes: nat, maxRead: nat, maxWrite: nat) returns (infos: seq<PrbInfo>)
    requires DeviceOk(dev)
    ensures infos == CandidatesFor(dev, simd, ElementBytes, dstBytes, maxRead, maxWrite)
  {
    infos := [];
    for bi := 0 to |ElementBytes|
      invariant infos == CandidatesFor(dev, simd, ElementBytes[..bi], dstBytes, maxRead, maxWrite)
    {
      var bytes := ElementBytes[bi];
      CandidatesForStep(dev, simd, bi, dstBytes, maxRead, maxWrite);
      if maxWrite % bytes != 0 { continue; }
      var info := MakeInfo(dev, simd, bytes, dstBytes, maxRead, maxWrite);
      if simd > info.maxElems { continue; }
      infos := infos + [info];
    }
    assert ElementBytes[..|ElementBytes|] == ElementBytes;
  }

  /** One more width of the outer enumeration appends its candidates. */
  lemma CandidatesStep(dev: Device, si: nat, dstBytes: nat, maxRead: nat, maxWrite: nat)
    requires DeviceOk(dev) && si < |SimdWidths|
    ensures Candidates(dev, SimdWidths[..si + 1], dstBytes, maxRead, maxWrite)
      == Candidates(dev, SimdWidths[..si], dstBytes, maxRead, maxWrite)
         + (if SimdUsable(dev, SimdWidths[si])
            then CandidatesFor(dev, SimdWidths[si], ElementBytes, dstBytes, maxRead, maxWrite) else [])
  {
    assert SimdWidths[..si + 1][..si] == SimdWidths[..si];
  }

  /** One more element size of the inner enumeration appends at most one
      candidate. */
  lemma CandidatesForStep(dev: Device, simd: nat, bi: nat, dstBytes: nat, maxRead: nat, maxWrite: nat)
    requires DeviceOk(dev) && bi < |ElementBytes|
    ensures var b := ElementBytes[bi];
      CandidatesFor(dev, simd, ElementBytes[..bi + 1], dstBytes, maxRead, maxWrite)
      == CandidatesFor(dev, simd, ElementBytes[..bi], dstBytes, maxRead, maxWrite)
         + (if maxWrite % b == 0 && simd <= MaxElems(dev, simd, b, dstBytes)
            then [MakeInfo(dev, simd, b, dstBytes, maxRead, maxWrite)] else [])
  {
    assert ElementBytes[..bi + 1][..bi] == ElementBytes[..bi];
  }

  /** Every candidate kept satisfies the enumeration's filters, and its
      maximum element count is the occupancy bound it was checked against. */
  predicate SoundCandidate(dev: Device, c: PrbInfo, dstBytes: nat, maxWrite: nat)
    requires DeviceOk(dev)
  {
    && c.typeSize in ElementBytes
    && 1 <= c.typeSize <= 8
    && c.simd <= dev.maxSubgroupSize
    && (c.simd > 1 ==> c.simd in dev.subgroupWidths)
    && maxWrite % c.typeSize == 0
    && c.maxElems == MaxElems(dev, c.simd, c.typeSize, dstBytes)
    && c.simd <= c.maxElems
  }

  /** Every element of `cs` has width `simd`, an element size from `bs`,
      passes the filters and carries its occupancy bound. */
  predicate KeptFor(dev: Device, cs: seq<PrbInfo>, simd: nat, bs: seq<nat>, dstBytes: nat, maxWrite: nat)
    requires DeviceOk(dev)
  {
    forall j :: 0 <= j < |cs| ==>
      && cs[j].simd == simd && cs[j].typeSize in bs && 1 <= cs[j].typeSize <= 8
      && Admissible(dev, simd, cs[j].typeSize, dstBytes, maxWrite)
      && cs[j].maxElems == MaxElems(dev, simd, cs[j].typeSize, dstBytes)
  }

  lemma {:induction false} CandidatesForSound(dev: Device, simd: nat, bs: seq<nat>, dstBytes: nat, maxRead: nat, maxWrite: nat)
    requires DeviceOk(dev) && WidthsInRange(bs) && SimdUsable(dev, simd)
    ensures KeptFor(dev, CandidatesFor(dev, simd, bs, dstBytes, maxRead, maxWrite), simd, bs, dstBytes, maxWrite)
  {
    if bs != [] {
      var pre := bs[..|bs| - 1];
      CandidatesForSound(dev, simd, pre, dstBytes, maxRead, maxWrite);
      var cs := CandidatesFor(dev, simd, bs, dstBytes, maxRead, maxWrite);
      var head := CandidatesFor(dev, simd, pre, dstBytes, maxRead, maxWrite);
      forall j | 0 <= j < |cs|
        ensures cs[j].simd == simd && cs[j].typeSize in bs && 1 <= cs[j].typeSize <= 8
      {
        if j < |head| {
          assert cs[j] == head[j];
          var i :| 0 <= i < |pre| && pre[i] == cs[j].typeSize;
          assert bs[i] == pre[i];
        }
      }
    }
  }

  /** Every element of `cs` has a width from `ws` and passes the filters. */
  predicate Kept(dev: Device, cs: seq<PrbInfo>, ws: seq<nat>, dstBytes: nat, maxWrite: nat)
    requires DeviceOk(dev)
  {
    forall j :: 0 <= j < |cs| ==> cs[j].simd in ws && SoundCandidate(dev, cs[j], dstBytes, maxWrite)
  }

  lemma {:induction false} CandidatesOfSound(dev: Device, ws: seq<nat>, dstBytes: nat, maxRead: nat, maxWrite: nat)
    requires DeviceOk(dev) && forall i :: 0 <= i < |ws| ==> ws[i] in SimdWidths
    ensures Kept(dev, Candidates(dev, ws, dstBytes, maxRead, maxWrite), ws, dstBytes, maxWrite)
  {
    if ws != [] {
      var pre := ws[..|ws| - 1];
      var simd := ws[|ws| - 1];
      CandidatesOfSound(dev, pre, dstBytes, maxRead, maxWrite);
      var cs := Candidates(dev, ws, dstBytes, maxRead, maxWrite);
      var head := Candidates(dev, pre, dstBytes, maxRead, maxWrite);
      if SimdUsable(dev, simd) {
        CandidatesForSound(dev, simd, ElementBytes, dstBytes, maxRead, maxWrite);
      }
      forall j | 0 <= j < |cs|
        ensures cs[j].simd in ws && SoundCandidate(dev, cs[j], dstBytes, maxWrite)
      {
        if j < |head| {
          assert cs[j] == head[j];
          var i :| 0 <= i < |pre| && pre[i] == cs[j].simd;
          assert ws[i] == pre[i];
        }
      }
    }
  }

  /** Every retained candidate respects the device limits: its width is at
      most max_subgroup_size, a supported sub-group when wider than 1, its
      element size divides max_write_size, and its width does not exceed
      the register-rounded occupancy bound max_elems. */
  lemma CandidatesSound(dev: Device, dstBytes: nat, maxRead: nat, maxWrite: nat)
    requires DeviceOk(dev)
    ensures Kept(dev, AllCandidates(dev, dstBytes, maxRead, maxWrite), SimdWidths, dstBytes, maxWrite)
  {
    CandidatesOfSound(dev, SimdWidths, dstBytes, maxRead, maxWrite);
  }

  lemma {:induction false} CandidatesForComplete(dev: Device, simd: nat, bs: seq<nat>, b: nat, dstBytes: nat, maxRead: nat, maxWrite: nat)
    requires DeviceOk(dev) && WidthsInRange(bs) && b in bs
    requires maxWrite % b == 0 && simd <= MaxElems(dev, simd, b, dstBytes)
    ensures MakeInfo(dev, simd, b, dstBytes, maxRead, maxWrite) in CandidatesFor(dev, simd, bs, dstBytes, maxRead, maxWrite)
  {
    if bs[|bs| - 1] != b {
      assert b in bs[..|bs| - 1] by {
        var i :| 0 <= i < |bs| && bs[i] == b;
        assert bs[..|bs| - 1][i] == b;
      }
      CandidatesForComplete(dev, simd, bs[..|bs| - 1], b, dstBytes, maxRead, maxWrite);
    }
  }

  lemma {:induction false} CandidatesOfComplete(dev: Device, ws: seq<nat>, simd: nat, b: nat, dstBytes: nat, maxRead: nat, maxWrite: nat)
    requires DeviceOk(dev) && simd in ws && b in ElementBytes
    requires Admissible(dev, simd, b, dstBytes, maxWrite)
    ensures MakeInfo(dev, simd, b, dstBytes, maxRead, maxWrite) in Candidates(dev, ws, dstBytes, maxRead, maxWrite)
  {
    if ws[|ws| - 1] == simd {
      CandidatesForComplete(dev, simd, ElementBytes, b, dstBytes, maxRead, maxWrite);
    } else {
      assert simd in ws[..|ws| - 1] by {
        var i :| 0 <= i < |ws| && ws[i] == simd;
        assert ws[..|ws| - 1][i] == simd;
      }
      CandidatesOfComplete(dev, ws[..|ws| - 1], simd, b, dstBytes, maxRead, maxWrite);
    }
  }

  /** Nothing the filters allow is dropped: every admissible (simd, bytes)
      pair of the two width lists is a candidate. */
  lemma CandidatesComplete(dev: Device, simd: nat, bytes: nat, dstBytes: nat, maxRead: nat, maxWrite: nat)
    requires DeviceOk(dev) && simd in SimdWidths && bytes in ElementBytes
    requires Admissible(dev, simd, bytes, dstBytes, maxWrite)
    ensures MakeInfo(dev, simd, bytes, dstBytes, maxRead, maxWrite) in AllCandidates(dev, dstBytes, maxRead, maxWrite)
  {
    CandidatesOfComplete(dev, SimdWidths, simd, bytes, dstBytes, maxRead, maxWrite);
  }

  /** The candidates' order: a wider simd first, then a larger block.
      prb_info_t::operator< refines it with a tie-break that is not part of
      this model. */
  predicate Precedes(x: PrbInfo, y: PrbInfo)
  {
    x.simd > y.simd || (x.simd == y.simd && x.block > y.block)
  }

  /** `info` is one of `infos` and none of them comes before it: what
      infos[0] is after std::sort. */
  predicate IsBest(infos: seq<PrbInfo>, info: PrbInfo)
  {
    info in infos && forall j :: 0 <= j < |infos| ==> !Precedes(infos[j], info)
  }

  lemma {:induction false} BestExists(infos: seq<PrbInfo>)
    requires |infos| > 0
    ensures exists k :: 0 <= k < |infos| && IsBest(infos, infos[k])
  {
    var n := |infos|;
    if n == 1 {
      assert IsBest(infos, infos[0]);
    } else {
      var pre := infos[..n - 1];
      BestExists(pre);
      var k :| 0 <= k < |pre| && IsBest(pre, pre[k]);
      assert forall j :: 0 <= j < n - 1 ==> infos[j] == pre[j];
      if Precedes(infos[n - 1], pre[k]) {
        assert IsBest(infos, infos[n - 1]);
      } else {
        assert IsBest(infos, infos[k]);
      }
    }
  }

  predicate SameWidth(cs: seq<PrbInfo>, simd: nat)
  {
    forall j :: 0 <= j < |cs| ==> cs[j].simd == simd
  }

  lemma {:induction false} CandidatesForSimd(dev: Device, simd: nat, bs: seq<nat>, dstBytes: nat, maxRead: nat, maxWrite: nat)
    requires DeviceOk(dev) && WidthsInRange(bs)
    ensures SameWidth(CandidatesFor(dev, simd, bs, dstBytes, maxRead, maxWrite), simd)
  {
    if bs != [] {
      CandidatesForSimd(dev, simd, bs[..|bs| - 1], dstBytes, maxRead, maxWrite);
    }
  }

  predicate StrictlyDecreasing(ws: seq<nat>)
  {
    forall i, j :: 0 <= i < j < |ws| ==> ws[i] > ws[j]
  }

  predicate FirstIsWidest(cs: seq<PrbInfo>, ws: seq<nat>)
  {
    forall j :: 0 <= j < |cs| ==> cs[j].simd in ws && cs[j].simd <= cs[0].simd
  }

  lemma {:induction false} FirstHasWidest(dev: Device, ws: seq<nat>, dstBytes: nat, maxRead: nat, maxWrite: nat)
    requires DeviceOk(dev) && StrictlyDecreasing(ws)
    ensures FirstIsWidest(Candidates(dev, ws, dstBytes, maxRead, maxWrite), ws)
  {
    if ws != [] {
      var pre := ws[..|ws| - 1];
      var simd := ws[|ws| - 1];
      FirstHasWidest(dev, pre, dstBytes, maxRead, maxWrite);
      CandidatesForSimd(dev, simd, ElementBytes, dstBytes, maxRead, maxWrite);
      var head := Candidates(dev, pre, dstBytes, maxRead, maxWrite);
      var cs := Candidates(dev, ws, dstBytes, maxRead, maxWrite);
      forall j | 0 <= j < |cs|
        ensures cs[j].simd in ws && cs[j].simd <= cs[0].simd
      {
        if j < |head| {
          assert cs[j] == head[j] && cs[0] == head[0];
          assert cs[j].simd in pre;
        } else if |head| > 0 {
          assert cs[0] == head[0];
          var i :| 0 <= i < |pre| && pre[i] == head[0].simd;
          assert ws[i] > ws[|ws| - 1];
        }
      }
    }
  }

  /** The source tests `infos[0].block` BEFORE sorting, i.e. on the first
      candidate enumerated. That candidate has the widest usable simd, so the
      candidate chosen after sorting has the same width and a block at least
      as large: a nonzero first block means a nonzero chosen block. */
  lemma BestHasBlock(dev: Device, dstBytes: nat, maxRead: nat, maxWrite: nat, info: PrbInfo)
    requires DeviceOk(dev)
    requires var cs := AllCandidates(dev, dstBytes, maxRead, maxWrite);
      |cs| > 0 && cs[0].block > 0 && IsBest(cs, info)
    ensures info.block > 0
    ensures info.simd == AllCandidates(dev, dstBytes, maxRead, maxWrite)[0].simd
  {
    var cs := AllCandidates(dev, dstBytes, maxRead, maxWrite);
    FirstHasWidest(dev, SimdWidths, dstBytes, maxRead, maxWrite);
    var k :| 0 <= k < |cs| && cs[k] == info;
    assert !Precedes(cs[0], info);
  }

  /** Lines 55-75: enumerate, reject an empty list or a first candidate with
      no block, and take the first candidate of the sorted list (any
      candidate none comes before; the tie-break is not modelled). */
  method SelectBestCandidate(dev: Device, dstBytes: nat, maxRead: nat, maxWrite: nat) returns (st: Status, info: PrbInfo)
    requires DeviceOk(dev)
    ensures var cs := AllCandidates(dev, dstBytes, maxRead, maxWrite);
      st == Success <==> |cs| > 0 && cs[0].block > 0
    ensures st == Success ==>
      && IsBest(AllCandidates(dev, dstBytes, maxRead, maxWrite), info)
      && info.block > 0
      && SoundCandidate(dev, info, dstBytes, maxWrite)
  {
    var infos := EnumerateCandidates(dev, dstBytes, maxRead, maxWrite);
    if |infos| == 0 || infos[0].block == 0 {
      return Unimplemented, PrbInfo(0, 0, 0, 0);
    }
    BestExists(infos);
    var k :| 0 <= k < |infos| && IsBest(infos, infos[k]);
    info := infos[k];
    st := Success;
    BestHasBlock(dev, dstBytes, maxRead, maxWrite, info);
    CandidatesSound(dev, dstBytes, maxRead, maxWrite);
  }
}

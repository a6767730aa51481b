/** gemm_matmul_t::pd_t::init (gemm_matmul.hpp lines 39-317) up to the
    creation of the GEMM primitive descriptor. init keeps its state in
    locals that its lambdas capture by reference and update; here those
    locals are the fields of a MatmulInit, and the lambdas
    (map_gemm_zp, adjust_scales, maybe_reshape) are its methods. The
    specification of each step is in GemmSpec. */
module GemmMatmul {
  import opened Arith
  import opened GemmSpec

  /** Lines 67-71 and 146-149: the product of the first `count` dims, one
      when `count` is not positive. */
  method BatchProduct(dims: seq<int>, count: int) returns (p: int)
    requires count <= |dims|
    ensures p == Product(dims[..if count < 0 then 0 else count])
  {
    p := 1;
    var i := 0;
    while i < count
      invariant 0 <= i <= (if count < 0 then 0 else count)
      invariant p == Product(dims[..i])
    {
      assert dims[..i + 1] == dims[..i] + [dims[i]];
      ProductSnoc(dims[..i], dims[i]);
      p := p * dims[i];
      i := i + 1;
    }
  }

  /** Lines 164-169: the source's and the bias's first `upTo` dims
      multiplied, the bias read as a zero-initialized descriptor. */
  method FoldBatches(a: Md, bias: Md, upTo: nat) returns (aDim: int, biaDim: int)
    ensures aDim == Product(Dims(a, upTo)) && biaDim == Product(Dims(bias, upTo))
  {
    aDim, biaDim := 1, 1;
    for i := 0 to upTo
      invariant aDim == Product(Dims(a, i)) && biaDim == Product(Dims(bias, i))
    {
      ProductSnoc(Dims(a, i), Dim(a, i));
      ProductSnoc(Dims(bias, i), Dim(bias, i));
      aDim := aDim * Dim(a, i);
      biaDim := biaDim * Dim(bias, i);
    }
  }

  /** Lines 219-223: the binary input's dims up to the collapsed batch,
      starting from the last of them and multiplying in the ones before
      it from the first on. */
  method BinaryBatchExtent(d: seq<int>, rs: nat) returns (ext: int)
    requires 0 < rs <= |d|
    ensures ext == Product(d[..|d| - rs + 1])
  {
    var n := |d|;
    ext := d[n - rs];
    var i := n;
    assert d[..0] == [];
    while i > rs
      invariant rs <= i <= n
      invariant ext == d[n - rs] * Product(d[..n - i])
    {
      assert d[..n - i + 1] == d[..n - i] + [d[n - i]];
      ProductSnoc(d[..n - i], d[n - i]);
      ext := ext * d[n - i];
      i := i - 1;
    }
    assert d[..n - rs + 1] == d[..n - rs] + [d[n - rs]];
    ProductSnoc(d[..n - rs], d[n - rs]);
  }

  /** Lines 249-281: the PReLU weights mask after the collapse, or the
      refusal. */
  method PreluMask(mask: nat, c: Md, twoD: bool) returns (r: Outcome<nat>)
    requires |c.dims| >= ReshapeSize(twoD) - 1
    ensures r == PreluRemap(mask, c.dims, twoD)
  {
    var newMask: nat := 0;
    var batchIdx := ReshapeSize(twoD) - 1;
    var batchDim := 1;
    var maskDim := 1;
    var k := |c.dims| - batchIdx;
    for i := 0 to k
      invariant PreluScanUpTo(mask, c.dims, i) == Some(PreluScan(newMask, batchDim, maskDim))
    {
      if Bit(mask, i) {
        if newMask != 0 {
          PreluScanStaysRefused(mask, c.dims, i + 1, k);
          return Fail(Unimplemented);
        }
        // new_mask is zero here, so or-ing the bit in sets it
        newMask := if c.dims[i] == 1 then 0 else 1;
        maskDim := maskDim * c.dims[i];
      }
      batchDim := batchDim * c.dims[i];
    }
    if batchDim != maskDim {
      return Fail(Unimplemented);
    }
    var nonBatch := Shr(mask, k);
    if nonBatch > 2 || (nonBatch > 0 && newMask > 0) {
      return Fail(Unimplemented);
    }
    // one of the two is zero, so or-ing the shifted bits in adds them
    r := Ok(newMask + 2 * nonBatch);
  }

  /** Lines 146-170: the collapse to take for the setup `s` and its
      folded batch, or the status it is refused with; then its shapes
      (CheckShapes). Nothing is changed before the post-ops are looked
      at. */
  method ChooseShapes(attr: Attr, s: GemmSetup, attrCompat2d: bool, perTensorSc: bool, perTensorZp: bool,
                      reshapeOk: (Md, seq<int>) -> bool)
    returns (st: Status, twoD: bool, aDim: int, sh: Shapes)
    requires MatmulShaped(attr, s)
    ensures st != Success ==> Collapse(attr, s, attrCompat2d, perTensorSc, perTensorZp, reshapeOk) == Fail(st)
    ensures st == Success ==>
      && |s.a.dims| >= ReshapeSize(twoD)
      && Collapse(attr, s, attrCompat2d, perTensorSc, perTensorZp, reshapeOk)
         == CollapseRest(attr, s, twoD, aDim, sh, perTensorSc, perTensorZp, reshapeOk)
  {
    var nd := |s.a.dims|;
    var batchB := BatchProduct(s.b.dims, |s.b.dims| - 2);
    twoD := batchB == 1 && |s.b.dims| > 2 && attrCompat2d;
    assert twoD == Reshape2d(s.b, attrCompat2d);
    if !twoD && nd <= 3 {
      return Unimplemented, twoD, 0, Shapes([], [], [], []);
    }
    var biaDim;
    aDim, biaDim := FoldBatches(s.a, s.bias, nd + 1 - ReshapeSize(twoD));
    assert aDim == FoldedBatch(s.a, nd, twoD) && biaDim == FoldedBatch(s.bias, nd, twoD);
    st, sh := CheckShapes(attr, s, twoD, aDim, biaDim, perTensorSc, perTensorZp, reshapeOk);
  }

  /** Lines 171-213: the collapsed shapes, refused when the bias covers
      only part of the batch or a descriptor cannot be reshaped. */
  method CheckShapes(attr: Attr, s: GemmSetup, twoD: bool, aDim: int, biaDim: int,
                     perTensorSc: bool, perTensorZp: bool, reshapeOk: (Md, seq<int>) -> bool)
    returns (st: Status, sh: Shapes)
    requires MatmulShaped(attr, s) && |s.a.dims| >= ReshapeSize(twoD)
    ensures st != Success ==> CollapseFolded(attr, s, twoD, aDim, biaDim, perTensorSc, perTensorZp, reshapeOk) == Fail(st)
    ensures st == Success ==>
      CollapseFolded(attr, s, twoD, aDim, biaDim, perTensorSc, perTensorZp, reshapeOk)
      == CollapseRest(attr, s, twoD, aDim, sh, perTensorSc, perTensorZp, reshapeOk)
  {
    sh := Collapsed(s.a, s.b, s.bias, twoD, aDim, biaDim);
    var withBia := |s.bias.dims| > 0;
    if withBia && biaDim > 1 && biaDim != aDim {
      return Unimplemented, sh;
    }
    if !reshapeOk(s.a, sh.a) || !reshapeOk(s.b, sh.b) || !reshapeOk(s.c, sh.c) {
      return ReshapeFailed, sh;
    }
    if withBia && !reshapeOk(s.bias, sh.bias) {
      return ReshapeFailed, sh;
    }
    st := Success;
  }

  class MatmulInit {
    /** The matmul's attributes. */
    const attr: Attr
    /** Whether memory_desc_reshape accepts giving a descriptor new dims. */
    const reshapeOk: (Md, seq<int>) -> bool
    /** a_md, b_md, c_md and bias_md: the descriptors handed to GEMM. */
    var a: Md
    var b: Md
    var c: Md
    var bias: Md
    /** post_ops: the post-ops handed to GEMM. */
    var postOps: seq<PostOp>
    /** gemm_attr.scales_ and gemm_attr.zero_points_. */
    var scales: Quant
    var zeroPoints: Quant
    var attrCompat2d: bool
    var perTensorSc: bool
    var perTensorZp: bool

    /** What would be handed to GEMM now. */
    function Setup(): GemmSetup
      reads this
    {
      GemmSetup(a, b, c, bias, postOps, scales, zeroPoints)
    }

    /** A matmul with these attributes and source, weights, destination and
      bias descriptors. */
    constructor (attr: Attr, src: Md, weights: Md, dst: Md, bia: Md, reshapeOk: (Md, seq<int>) -> bool)
      ensures this.attr == attr && this.reshapeOk == reshapeOk
      ensures a == src && b == weights && c == dst && bias == bia
      ensures postOps == [] && scales == map[] && zeroPoints == map[]
    {
      this.attr := attr;
      this.reshapeOk := reshapeOk;
      a, b, c, bias := src, weights, dst, bia;
      postOps, scales, zeroPoints := [], map[], map[];
    }

    /** Lines 61-90: attr_compat_2d and the per-tensor flags of the grouped
      source scales and zero points. */
    method ComputeAttrCompat2d()
      requires |a.dims| > 0 && scales == attr.scales
      requires GroupsPositive(attr.scales) && GroupsPositive(attr.zeroPoints)
      modifies this`attrCompat2d, this`perTensorSc, this`perTensorZp
      ensures attrCompat2d == AttrCompat2d(attr, a)
      ensures perTensorSc == PerTensorGrouped(attr.scales, a, attr.fullTensorMask)
      ensures perTensorZp == PerTensorGrouped(attr.zeroPoints, a, attr.fullTensorMask)
    {
      var kDim := a.dims[|a.dims| - 1];
      attrCompat2d := true;
      perTensorSc, perTensorZp := false, false;
      var trivialScGroup, trivialZpGroup := false, false;
      if |a.dims| > 2 {
        var batchA := BatchProduct(a.dims, |a.dims| - 2);
        if scales != map[] && Grouped(scales, Src) {
          GroupPositive(scales, Src, 1);
          trivialScGroup := CDiv(kDim, Group(scales, Src, 1)) <= 1;
          perTensorSc := scales[Src].mask == attr.fullTensorMask;
          attrCompat2d := attrCompat2d && (trivialScGroup || perTensorSc || batchA == 1);
        }
        var zp := attr.zeroPoints;
        if zp != map[] && Grouped(zp, Src) {
          GroupPositive(zp, Src, 1);
          trivialZpGroup := CDiv(kDim, Group(zp, Src, 1)) <= 1;
          perTensorZp := zp[Src].mask == attr.fullTensorMask;
          attrCompat2d := attrCompat2d && (trivialZpGroup || perTensorZp || batchA == 1);
        }
      }
    }

    /** The map_gemm_zp lambda (lines 92-112): sets the GEMM zero points of
      `arg` from the matmul's. */
    method MapGemmZp(arg: Arg, reshape: bool, diffDims: nat, gDim: int)
      requires GroupsPositive(attr.scales)
      modifies this`zeroPoints
      ensures zeroPoints == SetEntry(old(zeroPoints), arg, ZpEntry(attr, arg, reshape, diffDims, gDim, perTensorZp))
    {
      if arg !in attr.zeroPoints {
        return;
      }
      var e := attr.zeroPoints[arg];
      var mask := e.mask;
      if reshape {
        mask := Shr(mask, diffDims);
      }
      var groups: seq<int> := [];
      if e.groups != [] {
        if perTensorZp && gDim != 0 {
          mask := 3;
        }
        GroupPositive(attr.scales, arg, 0);
        var g0 := if arg == Src && gDim != 0 && !perTensorZp then CDiv(gDim, Group(attr.scales, arg, 0))
                  else Group(attr.zeroPoints, arg, 0);
        groups := [g0, Group(attr.zeroPoints, arg, 1)];
      }
      zeroPoints := zeroPoints[arg := QEntry(mask, e.dt, groups)];
    }

    /** The adjust_scales lambda (lines 116-135): `q` with the scales of
      `arg` set from the matmul's. */
    method AdjustScales(q: Quant, arg: Arg, diffDims: nat, gDim: int) returns (r: Quant)
      requires GroupsPositive(attr.scales)
      ensures r == SetEntry(q, arg, ScaleEntry(attr, arg, diffDims, gDim, perTensorSc))
    {
      if arg !in attr.scales {
        return q;
      }
      var e := attr.scales[arg];
      var mask := Shr(e.mask, diffDims);
      var groups: seq<int> := [];
      if e.groups != [] {
        if perTensorSc && gDim != 0 {
          mask := 3;
        }
        GroupPositive(attr.scales, arg, 0);
        var g0 := if arg == Src && gDim != 0 && !perTensorSc then CDiv(gDim, Group(attr.scales, arg, 0))
                  else Group(attr.scales, arg, 0);
        groups := [g0, Group(attr.scales, arg, 1)];
      }
      r := q[arg := QEntry(mask, e.dt, groups)];
    }

    /** Lines 214-282: every post-op rewritten for the collapsed problem,
      `cDim0` being the destination's collapsed batch; the status of the
      first one refused. */
    method RemapPostOps(twoD: bool, cDim0: int) returns (st: Status, ops: seq<PostOp>)
      requires BinaryRanks(postOps, ReshapeSize(twoD)) && |c.dims| >= ReshapeSize(twoD) - 1
      ensures var r := PostOpsRemap(postOps, |postOps|, twoD, cDim0, c, reshapeOk);
        && (st == Success <==> r.Ok?)
        && (r.Ok? ==> ops == r.value)
        && (r.Fail? ==> st == r.status)
    {
      ops := postOps;
      for i := 0 to |postOps|
        invariant |ops| == |postOps|
        invariant PostOpsRemap(postOps, i, twoD, cDim0, c, reshapeOk) == Ok(ops[..i])
      {
        var op := postOps[i];
        match postOps[i] {
          case Binary(src1) =>
            var n := |src1.dims|;
            var ext := BinaryBatchExtent(src1.dims, ReshapeSize(twoD));
            if ext != cDim0 && ext > 1 {
              PostOpsRemapFails(postOps, i + 1, |postOps|, twoD, cDim0, c, reshapeOk);
              return Unimplemented, ops;
            }
            var dims := if twoD then [ext, src1.dims[n - 1]] else [ext, src1.dims[n - 2], src1.dims[n - 1]];
            if !reshapeOk(src1, dims) {
              PostOpsRemapFails(postOps, i + 1, |postOps|, twoD, cDim0, c, reshapeOk);
              return ReshapeFailed, ops;
            }
            op := Binary(Md(dims));
          case Prelu(mask) =>
            var m := PreluMask(mask, c, twoD);
            if m.Fail? {
              PostOpsRemapFails(postOps, i + 1, |postOps|, twoD, cDim0, c, reshapeOk);
              return m.status, ops;
            }
            op := Prelu(m.value);
          case OtherPostOp =>
        }
        assert ops[i := op][..i + 1] == ops[..i] + [op];
        ops := ops[i := op];
      }
      st := Success;
    }

    /** Lines 283-297: the GEMM scales and the weights' and source's zero
      points set for the collapsed problem, `diff` dims having been
      folded and `ratio` being a_dim_ratio. */
    method RenumberQuant(diff: nat, ratio: int)
      requires GroupsPositive(attr.scales)
      modifies this`scales, this`zeroPoints
      ensures scales == CollapsedScales(attr, old(scales), diff, ratio, perTensorSc)
      ensures zeroPoints == CollapsedZeroPoints(attr, old(zeroPoints), diff, ratio, perTensorZp)
    {
      var newScales := scales;
      if attr.scales != map[] {
        newScales := AdjustScales(newScales, Weights, diff, 0);
        newScales := AdjustScales(newScales, Src, diff, ratio);
        newScales := AdjustScales(newScales, Dst, diff, 0);
      }
      if attr.zeroPoints != map[] {
        MapGemmZp(Weights, true, diff, 0);
        MapGemmZp(Src, true, diff, ratio);
      }
      scales := newScales;
    }

    /** The maybe_reshape lambda (lines 142-307): the collapse of
      Collapse, or its refusal with nothing handed to GEMM changed. */
    method MaybeReshape() returns (st: Status)
      requires MatmulShaped(attr, Setup())
      modifies this`a, this`b, this`c, this`bias, this`postOps, this`scales, this`zeroPoints
      ensures var r := Collapse(attr, old(Setup()), attrCompat2d, perTensorSc, perTensorZp, reshapeOk);
        && (st == Success <==> r.Ok?)
        && (r.Ok? ==> Setup() == r.value)
        && (r.Fail? ==> st == r.status && Setup() == old(Setup()))
    {
      var s0 := Setup();
      var twoD, aDim, sh;
      st, twoD, aDim, sh := ChooseShapes(attr, s0, attrCompat2d, perTensorSc, perTensorZp, reshapeOk);
      if st != Success {
        return;
      }
      var ops;
      st, ops := RemapPostOps(twoD, aDim);
      if st != Success {
        return;
      }
      Commit(twoD, aDim, sh, ops);
    }

    /** Lines 283-304 once every post-op is accepted: the collapsed
      descriptors and post-ops and the renumbered scales and zero points
      are handed to GEMM; a bias is reshaped only when there is one. */
    method Commit(twoD: bool, aDim: int, sh: Shapes, ops: seq<PostOp>)
      requires MatmulShaped(attr, Setup()) && |a.dims| >= ReshapeSize(twoD)
      requires PostOpsRemap(postOps, |postOps|, twoD, aDim, c, reshapeOk) == Ok(ops)
      modifies this`a, this`b, this`c, this`bias, this`postOps, this`scales, this`zeroPoints
      ensures Ok(Setup()) == CollapseRest(attr, old(Setup()), twoD, aDim, sh, perTensorSc, perTensorZp, reshapeOk)
    {
      ghost var s0 := Setup();
      var nd := |a.dims|;
      var diff, ratio := nd - ReshapeSize(twoD), CDiv(aDim, a.dims[nd - 2]);
      RenumberQuant(diff, ratio);
      postOps := ops;
      a, b, c := Md(sh.a), Md(sh.b), Md(sh.c);
      if |bias.dims| > 0 {
        bias := Md(sh.bias);
      }
      assert Setup() == GemmSetup(Md(sh.a), Md(sh.b), Md(sh.c), if |s0.bias.dims| > 0 then Md(sh.bias) else s0.bias, ops,
                                  CollapsedScales(attr, s0.scales, diff, ratio, perTensorSc),
                                  CollapsedZeroPoints(attr, s0.zeroPoints, diff, ratio, perTensorZp));
    }

    /** init up to the creation of the GEMM primitive descriptor: refused
      with dropout; otherwise the scales and post-ops of the matmul and
      its zero points mapped as they are, then collapsed when
      maybe_reshape succeeds, which `reshape` reports. */
    method Init() returns (st: Status, reshape: bool)
      requires MatmulShaped(attr, GemmSetup(a, b, c, bias, attr.postOps, attr.scales, map[]))
      modifies this
      ensures !attr.dropoutDefault ==> st == Unimplemented && !reshape
      ensures attr.dropoutDefault ==>
        && st == Success
        && attrCompat2d == AttrCompat2d(attr, old(a))
        && perTensorSc == PerTensorGrouped(attr.scales, old(a), attr.fullTensorMask)
        && perTensorZp == PerTensorGrouped(attr.zeroPoints, old(a), attr.fullTensorMask)
        && var s0 := GemmSetup(old(a), old(b), old(c), old(bias), attr.postOps, attr.scales,
                               UnreshapedZeroPoints(attr, |old(a).dims|, perTensorZp));
           var r := Collapse(attr, s0, attrCompat2d, perTensorSc, perTensorZp, reshapeOk);
           && (reshape <==> r.Ok?)
           && Setup() == (if r.Ok? then r.value else s0)
    {
      scales := attr.scales;
      if !attr.dropoutDefault {
        return Unimplemented, false;
      }
      postOps := attr.postOps;
      zeroPoints := map[];
      var nd := |a.dims|;
      ComputeAttrCompat2d();
      if attr.zeroPoints != map[] {
        MapGemmZp(Src, false, nd - 2, 0);
        MapGemmZp(Weights, false, nd - 2, 0);
        MapGemmZp(Dst, false, 0, 0);
      }
      var s := MaybeReshape();
      reshape := s == Success;
      st := Success;
    }
  }
}

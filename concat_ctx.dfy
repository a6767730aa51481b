/** get_kernel_ctx (reusable_simple_concat.cpp lines 348-366): the
    compile-time definitions the concat kernel is built with. The kernel
    context is modelled as the map from macro name to integer value that
    define_int assigns into, so a later definition of a name replaces an
    earlier one; the lemmas below show that no name is defined twice. */
module ConcatCtx {
  import opened ConcatPlan

  /* ---------- Decimal numerals, as utils::format's %d prints them ---------- */

  predicate AllDigits(s: string)
  {
    forall k :: 0 <= k < |s| ==> '0' <= s[k] <= '9'
  }

  function DigitChar(d: nat): (c: char)
    requires d < 10
    ensures '0' <= c <= '9' && c as int - '0' as int == d
  {
    ('0' as int + d) as char
  }

  /** The decimal numeral of `n`, without leading zeros. */
  function Decimal(n: nat): (s: string)
    ensures |s| > 0 && AllDigits(s)
  {
    if n < 10 then [DigitChar(n)] else Decimal(n / 10) + [DigitChar(n % 10)]
  }

  /** The value a string of decimal digits denotes. */
  function DecimalValue(s: string): nat
    requires AllDigits(s)
  {
    if s == [] then 0 else DecimalValue(s[..|s| - 1]) * 10 + (s[|s| - 1] as int - '0' as int)
  }

  /** Reading back a printed numeral gives the number. */
  lemma {:induction false} DecimalRoundTrip(n: nat)
    ensures DecimalValue(Decimal(n)) == n
  {
    if n >= 10 {
      DecimalRoundTrip(n / 10);
      var s := Decimal(n);
      assert s[..|s| - 1] == Decimal(n / 10);
    }
  }

  /** Different numbers print differently. */
  lemma DecimalInjective(a: nat, b: nat)
    requires Decimal(a) == Decimal(b)
    ensures a == b
  {
    DecimalRoundTrip(a);
    DecimalRoundTrip(b);
  }

  /* ---------- Macro names ---------- */

  /** The macros the kernel is built with; BLOCK_B<i> and BLOCK_S<i> carry
      the block index. */
  datatype Macro =
    | WriteBlock | ReadBlock | NInputs | BlockDepth
    | BlockSize(i: nat) | BlockStride(i: nat)
    | Simd | DataTypeSize | UseLargeIndex | BytesPerWorkitem

  /** The name define_int receives for each macro. */
  function MacroName(m: Macro): string
  {
    match m
    case WriteBlock => "WRITE_BLOCK"
    case ReadBlock => "READ_BLOCK"
    case NInputs => "N_INPUTS"
    case BlockDepth => "BLOCK_DEPTH"
    case BlockSize(i) => "BLOCK_B" + Decimal(i)
    case BlockStride(i) => "BLOCK_S" + Decimal(i)
    case Simd => "SIMD"
    case DataTypeSize => "DATA_TYPE_SIZE"
    case UseLargeIndex => "USE_LARGE_INDEX"
    case BytesPerWorkitem => "BYTES_PER_WORKITEM"
  }

  /** Whether the name starts the way the per-block names do: "BL", and
      B or S at the seventh character. */
  predicate BlockShaped(x: string)
  {
    |x| >= 7 && x[0] == 'B' && x[1] == 'L' && (x[6] == 'B' || x[6] == 'S')
  }

  lemma FixedNamesNotShaped(m: Macro)
    requires !m.BlockSize? && !m.BlockStride?
    ensures !BlockShaped(MacroName(m))
  {
    if m.BlockDepth? {
      assert MacroName(m)[6] == 'D';
    } else if m.BytesPerWorkitem? {
      assert MacroName(m)[1] == 'Y';
    } else if m.Simd? {
      assert |MacroName(m)| == 4;
    } else {
      assert MacroName(m)[0] != 'B';
    }
  }

  /** Different macros have different names, so the map from macro to
      value is the map from name to value the context holds. */
  lemma MacroNameInjective(a: Macro, b: Macro)
    requires MacroName(a) == MacroName(b)
    ensures a == b
  {
    var x := MacroName(a);
    if a.BlockSize? || a.BlockStride? {
      assert BlockShaped(x);
      if !b.BlockSize? && !b.BlockStride? {
        FixedNamesNotShaped(b);
      }
      assert Decimal(a.i) == x[7..] == Decimal(b.i);
      DecimalInjective(a.i, b.i);
    } else if b.BlockSize? || b.BlockStride? {
      FixedNamesNotShaped(a);
      assert BlockShaped(MacroName(b));
    } else {
      assert x[0] == MacroName(b)[0] && |x| == |MacroName(b)|;
      if a.BlockDepth? || b.BlockDepth? || a.BytesPerWorkitem? || b.BytesPerWorkitem? {
        assert x[1] == MacroName(b)[1];
      } else if a.DataTypeSize? || b.DataTypeSize? {
        assert x[1] == MacroName(b)[1];
      }
    }
  }

  /** Whether get_kernel_ctx defines `m` when it visits `d` blocks: every
      fixed macro, and the per-block ones of the blocks below `d`. */
  predicate Defined(m: Macro, d: nat)
  {
    (m.BlockSize? || m.BlockStride?) ==> m.i < d
  }

  /** The number of blocks the loop visits: none for a negative count. */
  function Depth(nBlocks: int): nat
  {
    if nBlocks < 0 then 0 else nBlocks
  }

  /** get_kernel_ctx: every field of the configuration under its macro,
      USE_LARGE_INDEX as 0 or 1, and the block size and stride of each of
      the first BLOCK_DEPTH blocks under BLOCK_B<i> and BLOCK_S<i>; no other
      macro is defined. */
  method GetKernelCtx(conf: ConcatParams) returns (ctx: map<Macro, int>)
    requires conf.Valid() && conf.nBlocks <= conf.blocks.Length
    ensures forall m :: m in ctx ==> Defined(m, Depth(conf.nBlocks))
    ensures forall m :: Defined(m, Depth(conf.nBlocks)) ==> m in ctx
    ensures WriteBlock in ctx && ctx[WriteBlock] == conf.writeBlock
    ensures ReadBlock in ctx && ctx[ReadBlock] == conf.readBlock
    ensures NInputs in ctx && ctx[NInputs] == conf.n
    ensures BlockDepth in ctx && ctx[BlockDepth] == conf.nBlocks
    ensures forall i: nat :: i < conf.nBlocks ==>
      && BlockSize(i) in ctx && ctx[BlockSize(i)] == conf.blocks[i]
      && BlockStride(i) in ctx && ctx[BlockStride(i)] == conf.strides[i]
    ensures Simd in ctx && ctx[Simd] == conf.simd
    ensures DataTypeSize in ctx && ctx[DataTypeSize] == conf.dataTypeSize
    ensures UseLargeIndex in ctx && ctx[UseLargeIndex] == (if conf.useLargeIndex then 1 else 0)
    ensures BytesPerWorkitem in ctx && ctx[BytesPerWorkitem] == conf.bytesPerWorkitem
  {
    var head := map[WriteBlock := conf.writeBlock, ReadBlock := conf.readBlock,
                    NInputs := conf.n, BlockDepth := conf.nBlocks];
    ctx := DefineBlocks(conf, head);
    ctx := ctx[Simd := conf.simd][DataTypeSize := conf.dataTypeSize];
    ctx := ctx[UseLargeIndex := if conf.useLargeIndex then 1 else 0];
    ctx := ctx[BytesPerWorkitem := conf.bytesPerWorkitem];
  }

  /** `ctx` holds the definitions of `head`, none of them per-block, and
      the size and stride of each block of `bs` and `ss`, and nothing else. */
  predicate BlocksDefined(ctx: map<Macro, int>, head: map<Macro, int>, bs: seq<int>, ss: seq<int>)
  {
    && |bs| == |ss|
    && (forall m :: m in head ==> !m.BlockSize? && !m.BlockStride?)
    && (forall m :: m in ctx ==> m in head || ((m.BlockSize? || m.BlockStride?) && m.i < |bs|))
    && (forall m :: m in head ==> m in ctx && ctx[m] == head[m])
    && (forall j: nat :: j < |bs| ==>
          && BlockSize(j) in ctx && ctx[BlockSize(j)] == bs[j]
          && BlockStride(j) in ctx && ctx[BlockStride(j)] == ss[j])
  }

  /** Defining one more block's size and stride keeps `BlocksDefined`. */
  lemma DefineBlockStep(ctx: map<Macro, int>, head: map<Macro, int>, bs: seq<int>, ss: seq<int>, b: int, s: int)
    requires BlocksDefined(ctx, head, bs, ss)
    ensures BlocksDefined(ctx[BlockSize(|bs|) := b][BlockStride(|bs|) := s], head, bs + [b], ss + [s])
  {
  }

  /** Lines 356-359: the block size and stride of each of the first
      BLOCK_DEPTH blocks are added to the definitions in `head`, none of
      which is per-block. */
  method DefineBlocks(conf: ConcatParams, head: map<Macro, int>) returns (ctx: map<Macro, int>)
    requires conf.Valid() && conf.nBlocks <= conf.blocks.Length
    requires forall m :: m in head ==> !m.BlockSize? && !m.BlockStride?
    ensures BlocksDefined(ctx, head, conf.blocks[..Depth(conf.nBlocks)], conf.strides[..Depth(conf.nBlocks)])
  {
    ctx := head;
    for i := 0 to Depth(conf.nBlocks)
      invariant BlocksDefined(ctx, head, conf.blocks[..i], conf.strides[..i])
    {
      DefineBlockStep(ctx, head, conf.blocks[..i], conf.strides[..i], conf.blocks[i], conf.strides[i]);
      assert conf.blocks[..i + 1] == conf.blocks[..i] + [conf.blocks[i]];
      assert conf.strides[..i + 1] == conf.strides[..i] + [conf.strides[i]];
      ctx := ctx[BlockSize(i) := conf.blocks[i]][BlockStride(i) := conf.strides[i]];
    }
  }
}

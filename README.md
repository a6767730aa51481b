# Reusable simple concat planner and matmul-to-GEMM shape collapse

This project models two pieces of the Intel GPU backend of oneDNN and
proves properties of them with Dafny.

**The reusable simple concat planner** (`src/gpu/intel/reusable_simple_concat.cpp`).
Given a blocked destination and its sources, normalized to three axes
(outer, concat, inner), `init_conf_common` fills two objects:

- the compile-time parameters `reusable_simple_concat_params_t`
  (`ConcatPlan.ConcatParams`);
- the runtime parameters `reusable_simple_concat_runtime_params_t`
  (`ConcatPlan.RuntimeParams`).

To fill them, it:

1. tries the two-input internal-padding kernel (`try_normalize_ip_concat2`)
   when the normalization reports internal padding;
2. otherwise, or when that kernel declines, plans the general kernel
   (`normalize_reusable_simple_concat`). This enumerates (simd, bytes)
   candidates, takes the best one and walks the sources. Each source of
   nonzero padded concat extent gets a slot with prefix-sum offsets. The
   destination's inner blocking is decomposed into (block, stride)
   records, and the work-group sizes are derived with gcd arithmetic.

`get_kernel_ctx` turns the parameters into macro definitions. `execute_concat`
assembles the argument list of the chosen kernel with
`push_idx_kernel_args` or `push_idx_kernel_args_internal_padding`.

The model keeps the source's imperative form:

- the two parameter structures are classes whose fixed-size arrays are
  Dafny arrays;
- the loops are `while`/`for` loops with invariants;
- the kernel argument list is an object appended to in place.

Each method is proved against value-level specification functions
(modules `ConcatSpec`, `ConcatSelect` and `ConcatIpSpec`). Lemmas about those
functions state what the planner promises:

- slots are exactly the nonempty sources, in order;
- offsets are exclusive prefix sums that tile the concat axis;
- every kept candidate respects the device limits, and every admissible
  one is kept;
- block records are the concat-axis blocks innermost first, each stride
  being the product of the blocks inside it, and they nest;
- `gws0_block` is a common multiple of the inner axis and the read block;
- the internal-padding grid covers the padded plane;
- macro names are distinct, so no definition overwrites another;
- the argument lists have their documented layout, and the must-compute
  flag is set exactly when a read is cut off.

**The matmul-to-GEMM shape collapse** (`gemm_matmul_t::pd_t::init` in
`src/gpu/intel/gemm_matmul.hpp`). `init` keeps its state in locals that its
lambdas update. Here those locals are the fields of the class
`GemmMatmul.MatmulInit`, and the lambdas are its methods:

- `map_gemm_zp` is `MapGemmZp`;
- `adjust_scales` is `AdjustScales`;
- `maybe_reshape` is `MaybeReshape`, with its parts `ChooseShapes`,
  `CheckShapes`, `RemapPostOps`, `RenumberQuant` and `Commit`.

The module `GemmSpec` states the collapse on values:

- when the 2D collapse (batch folded into M) or the 3D one (all batch
  dims folded into one) is taken;
- the shapes handed to GEMM;
- when a bias, binary post-op or PReLU post-op refuses the collapse;
- how the PReLU mask and the scale and zero-point masks are renumbered.

Lemmas state the following:

- the collapsed source and bias keep their element counts, and the weights
  and destination keep theirs under the conditions in their rows; since the
  reshape refuses a shape with another element count, every descriptor of a
  successful collapse keeps its count;
- surviving binary post-ops broadcast correctly;
- accepted PReLU masks are 0, 1, 2 or 4, with the meaning of each bit;
- without groups, bit `i` of every renumbered mask is bit `i + nd - reshape_size`
  of the original.

Modules, one per file: `Arith` (arith.dfy), `ConcatTypes`, `ConcatSpec`,
`ConcatSelect`, `ConcatPlan`, `ConcatIpSpec`, `ConcatIp`, `ConcatConf`,
`ConcatCtx`, `ConcatArgs`, `GemmSpec`, `GemmMatmul`.

## Model

| member | source | states |
|---|---|---|
| Arith.DivUp | src/gpu/intel/reusable_simple_concat.cpp:63-64 | div_up is the least multiple count of `b` covering `a` |
| Arith.RndUp | src/gpu/intel/reusable_simple_concat.cpp:66-67 | rnd_up is a multiple of `b`, at least `a` and less than `a + b` |
| Arith.GcdDivides | src/gpu/intel/reusable_simple_concat.cpp:136 | math::gcd of two values, not both zero, is positive and divides both |
| Arith.ShrBit | src/gpu/intel/gemm_matmul.hpp:98 | bit `i` of `mask >> n` is bit `i + n` of `mask`: the shift renumbers dimensions |
| Arith.CDiv | src/gpu/intel/gemm_matmul.hpp:170 | C++ integer division (truncating toward zero) agrees with Euclidean division on non-negative operands |
| Arith.CDivExact | src/gpu/intel/gemm_matmul.hpp:170 | dividing an exact multiple by its factor gives the multiplier back, whatever the signs |
| Arith.WrapI32 | src/gpu/intel/reusable_simple_concat.cpp:387-395 | static_cast<int> yields a 32-bit value congruent to its operand modulo 2^32 |
| Arith.WrapU64 | src/gpu/intel/reusable_simple_concat.cpp:476-478 | static_cast<std::uint64_t> yields a 64-bit unsigned value congruent to its operand modulo 2^64 |
| Arith.ProductAppend | src/gpu/intel/reusable_simple_concat.cpp:108-121 | the product of a concatenation of extent lists is the product of the products |
| ConcatSelect.EnumerateCandidates | src/gpu/intel/reusable_simple_concat.cpp:55-72 | the two nested loops produce exactly the candidate list AllCandidates, in enumeration order |
| ConcatSelect.EnumerateSizes | src/gpu/intel/reusable_simple_concat.cpp:59-71 | the inner loop produces one candidate per element size that divides max_write_size and whose occupancy bound admits the width |
| ConcatSelect.CandidatesSound | src/gpu/intel/reusable_simple_concat.cpp:56-71 | every kept candidate has simd <= max_subgroup_size, a supported sub-group when wider than 1, bytes dividing max_write_size, and simd <= max_elems |
| ConcatSelect.CandidatesComplete | src/gpu/intel/reusable_simple_concat.cpp:56-71 | every (simd, bytes) pair the filters admit is kept |
| ConcatSelect.BestExists | src/gpu/intel/reusable_simple_concat.cpp:74-75 | a nonempty list has a candidate no other precedes, so sorting has a first element |
| ConcatSelect.FirstHasWidest | src/gpu/intel/reusable_simple_concat.cpp:56-71 | the first enumerated candidate has the widest simd of the list |
| ConcatSelect.BestHasBlock | src/gpu/intel/reusable_simple_concat.cpp:73-75 | testing infos[0].block before the sort still guarantees that the candidate chosen after it has a nonzero block of the same width |
| ConcatSelect.SelectBestCandidate | src/gpu/intel/reusable_simple_concat.cpp:55-75 | success exactly when the list is nonempty and its first candidate has a block; then the chosen candidate is a best one, sound, with a nonzero block |
| ConcatSpec.NonemptyOrdered | src/gpu/intel/reusable_simple_concat.cpp:80-81 | slots keep the sources' order |
| ConcatSpec.SlotIff | src/gpu/intel/reusable_simple_concat.cpp:80-81 | a source has a slot exactly when its padded concat extent is nonzero |
| ConcatSpec.NonemptyComplete | src/gpu/intel/reusable_simple_concat.cpp:80-81 | no nonempty source is left without a slot |
| ConcatSpec.NonemptyUpTo | src/gpu/intel/reusable_simple_concat.cpp:80-81 | the slots among the first n sources: at most n indices, each of a source with nonzero padded concat extent |
| ConcatSpec.SlotValues | src/gpu/intel/reusable_simple_concat.cpp:87-95 | one value per slot, in slot order |
| ConcatSpec.Offsets | src/gpu/intel/reusable_simple_concat.cpp:91-95 | one offset per slot |
| ConcatSpec.NoSlots | src/gpu/intel/reusable_simple_concat.cpp:80-81 | with every source empty there is no slot |
| ConcatSpec.NonemptyStep | src/gpu/intel/reusable_simple_concat.cpp:80-97 | one more source adds a slot exactly when it is not empty: the earlier slots, then that source |
| ConcatSpec.SlotValuesAt | src/gpu/intel/reusable_simple_concat.cpp:87-95 | the per-slot value k is the one of the source in slot k |
| ConcatSpec.OffsetsArePrefixSums | src/gpu/intel/reusable_simple_concat.cpp:91-95 | offset k is the sum of the extents of the slots before k |
| ConcatSpec.OffsetsTile | src/gpu/intel/reusable_simple_concat.cpp:91-95 | each offset plus its slot's extent is the next slot's offset: no gaps, no overlaps |
| ConcatSpec.OffsetsMonotone | src/gpu/intel/reusable_simple_concat.cpp:91-95 | with non-negative extents, offsets never decrease and never pass the total |
| ConcatSpec.MaxBytesUpTo | src/gpu/intel/reusable_simple_concat.cpp:53-83 | the running maximum bounds the destination and every slotted source, and is one of them |
| ConcatSpec.LargeIndexIff | src/gpu/intel/reusable_simple_concat.cpp:82-153 | 64-bit indexing is chosen exactly when the destination or a slotted source exceeds INT_MAX bytes |
| ConcatSpec.FinalPaddingOfLastSlot | src/gpu/intel/reusable_simple_concat.cpp:93 | the final padding is the last slot's padded minus logical extent, zero without slots |
| ConcatSpec.DstConcatAxis | src/gpu/intel/reusable_simple_concat.cpp:104-105 | dst_concat_axis never exceeds the padded extent and is either it or the logical sum plus the final padding |
| ConcatSpec.RescaleKeepsOuterBlocks | src/gpu/intel/reusable_simple_concat.cpp:113-114 | only the innermost block is rescaled, to blk * data_type_size / type_size, and every block keeps its axis |
| ConcatSpec.RescaleSameSize | src/gpu/intel/reusable_simple_concat.cpp:113-114 | rescaling to the same element size changes nothing |
| ConcatSpec.RescaleKeepsConcatCount | src/gpu/intel/reusable_simple_concat.cpp:108-121 | rescaling keeps the number of concat-axis records |
| ConcatSpec.ConcatPositions | src/gpu/intel/reusable_simple_concat.cpp:110-115 | the positions of the concat-axis blocks, visited from the innermost outward |
| ConcatSpec.BlocksCount | src/gpu/intel/reusable_simple_concat.cpp:108-121 | there is one record per inner block on the concat axis |
| ConcatSpec.BlockAt | src/gpu/intel/reusable_simple_concat.cpp:108-121 | record k is the k-th concat-axis block from the innermost, with stride the product of all blocks inside it |
| ConcatSpec.ConcatBlockRecorded | src/gpu/intel/reusable_simple_concat.cpp:115-119 | every block on the concat axis gets a record |
| ConcatSpec.PositionsByAxes | src/gpu/intel/reusable_simple_concat.cpp:115 | which blocks are recorded depends on their axes only |
| ConcatSpec.RecordSpan | src/gpu/intel/reusable_simple_concat.cpp:108-121 | a record's block times its stride is the product of that block and all blocks inside it |
| ConcatSpec.StridesNest | src/gpu/intel/reusable_simple_concat.cpp:108-121 | each record's stride is a positive multiple of the inner record's block times stride |
| ConcatSpec.Gws0CommonMultiple | src/gpu/intel/reusable_simple_concat.cpp:136-138 | gws0_block is a common multiple of inner_axis and read_block; read_overlap is read_block / gcd and positive |
| ConcatSpec.Gws0Items | src/gpu/intel/reusable_simple_concat.cpp:139 | gws_d[0] is simd work items per inner_axis / gcd chunk |
| ConcatSpec.FirstIpSimd | src/gpu/intel/reusable_simple_concat.cpp:233-255 | the width found is 1 or the first width that fits the block-multiple conditions |
| ConcatSpec.IpLoadsPositive | src/gpu/intel/reusable_simple_concat.cpp:271-274 | for a width that fits, simd and loads_per_thread are positive, so the grid's division is safe |
| ConcatSpec.IpGwsCovers | src/gpu/intel/reusable_simple_concat.cpp:305-311 | the internal-padding grid is whole sub-groups covering the padded concat-by-inner plane |
| ConcatSpec.BytesPerWorkitem | src/gpu/intel/reusable_simple_concat.cpp:239-240 | bytes per work item is 8 or 16 |
| ConcatPlan.SlotStep | src/gpu/intel/reusable_simple_concat.cpp:80-97 | an empty source changes no running value; a nonempty one appends its extents, offsets, byte size and padding |
| ConcatPlan.RecordConcatBlocks | src/gpu/intel/reusable_simple_concat.cpp:108-121 | blocks and strides hold exactly the concat-axis records of the blocking, and entries past them are untouched |
| ConcatPlan.RecordConcatBlock | src/gpu/intel/reusable_simple_concat.cpp:111-120 | one loop turn records block i when on the concat axis and returns the stride of the block outside it |
| ConcatPlan.NormalizeReusableSimpleConcat | src/gpu/intel/reusable_simple_concat.cpp:30-155 | no usable first candidate: unimplemented, nothing written; otherwise the best sound candidate is planned, success exactly without padding waste, and then lws and the index width are set; slot-array entries past the slot count and block entries past nBlocks keep their values |
| ConcatPlan.PlanWithCandidate | src/gpu/intel/reusable_simple_concat.cpp:77-154 | layout and shape planned for the candidate; status and lws/index width as above; entries past the slot and block counts kept |
| ConcatPlan.PlanLayout | src/gpu/intel/reusable_simple_concat.cpp:77-121 | one slot per nonempty source with prefix-sum offsets and byte sizes, the destination fields, the rescaled blocking records, n = slot count; entries past the slot and block counts kept |
| ConcatPlan.RecordSlots | src/gpu/intel/reusable_simple_concat.cpp:77-97 | the source loop fills offsets, padded offsets and outer-stride sizes per slot and returns the totals, final padding and largest byte size; the entries past the slot count are untouched |
| ConcatPlan.RecordSource | src/gpu/intel/reusable_simple_concat.cpp:80-97 | one loop turn keeps the loop's state predicate for one more source, and the entries past the slot count |
| ConcatPlan.RecordNonemptySource | src/gpu/intel/reusable_simple_concat.cpp:82-96 | a nonempty source takes the next slot and the running sums, padding and maximum take it in; later entries kept |
| ConcatPlan.WriteSlot | src/gpu/intel/reusable_simple_concat.cpp:87-92 | slot k's three array entries are written, the entries before it kept and those after it left as they were |
| ConcatPlan.WriteOffsets | src/gpu/intel/reusable_simple_concat.cpp:192-193 | slot k's offset and padded offset are written, the entries before it kept and those after it left as they were |
| ConcatPlan.RecordDestination | src/gpu/intel/reusable_simple_concat.cpp:101-105 | the destination's outer-stride size, padded concat extent and dst_concat_axis |
| ConcatPlan.PlanShape | src/gpu/intel/reusable_simple_concat.cpp:123-141 | width, element size, read block, write_block = min(block, max_write / type_size), inner axis and offset in the candidate's elements, gws0_block, read_overlap and gws |
| ConcatPlan.PlanKernel | src/gpu/intel/reusable_simple_concat.cpp:123-154 | the shape above, then the padding-waste rejection, lws and index width |
| ConcatPlan.FinishGeneral | src/gpu/intel/reusable_simple_concat.cpp:143-154 | unimplemented exactly on padding waste; on success lws = get_optimal_lws(gws) and use_large_index iff max bytes > INT_MAX |
| ConcatPlan.NonemptyPrefix | src/gpu/intel/reusable_simple_concat.cpp:80-81 | the slots of a prefix of the sources are a prefix of all slots |
| ConcatIpSpec.FirstBlockPositive | src/gpu/intel/reusable_simple_concat.cpp:244-248 | the block the width search divides by is positive |
| ConcatIp.TryNormalizeIpConcat2 | src/gpu/intel/reusable_simple_concat.cpp:157-319 | layout always recorded without rescaling; blocks[0] is the first block read; with no width above 1 unimplemented and the kernel fields kept; success exactly when the path's rules hold, and then the internal-padding kernel is configured; offsets past the slot count and block entries past nBlocks keep their values |
| ConcatIp.PlanIpLayout | src/gpu/intel/reusable_simple_concat.cpp:177-228 | read/write block 1, no bytes per work item, slots with offsets and the first two slots' extents, destination fields, unrescaled blocking records; entries past the slot and block counts kept |
| ConcatIp.RecordIpSlots | src/gpu/intel/reusable_simple_concat.cpp:184-207 | offsets and padded offsets per slot; src_concat_axis0/1 hold the first and second slot's extents; offsets past the slot count untouched |
| ConcatIp.RecordIpSource | src/gpu/intel/reusable_simple_concat.cpp:185-206 | one loop turn keeps the loop's state predicate and the offsets past the slot count |
| ConcatIp.RecordIpNonemptySource | src/gpu/intel/reusable_simple_concat.cpp:185-204 | a nonempty source takes the next slot, its extents go into the running sums and, for the first two slots, into src_concat_axis0/1 |
| ConcatIp.KeepLeadingExtents | src/gpu/intel/reusable_simple_concat.cpp:196-203 | the first and second nonempty sources' logical and padded extents are kept in src_concat_axis0/1 |
| ConcatIp.FindIpSimd | src/gpu/intel/reusable_simple_concat.cpp:230-256 | the width is the first of 32, 16, 8, 1 that fits; with a width above 1, bytes per work item is 8 or 16 by element size |
| ConcatIp.ChooseIpKernel | src/gpu/intel/reusable_simple_concat.cpp:230-318 | keeps the recorded layout and reaches the outcome IpOutcome describes |
| ConcatIp.PlanIpKernel | src/gpu/intel/reusable_simple_concat.cpp:258-318 | n, simd, element size set, use_large_index iff destination bytes > INT_MAX; success iff two slots, aligned sub-group reads, rows longer than one read, a block of 4/8/16/32 and over 500000 bytes; otherwise kernel choice, gws, lws kept |
| ConcatConf.AdmitSources | src/gpu/intel/reusable_simple_concat.cpp:327-336 | true exactly when the destination is blocked and every source was accepted |
| ConcatConf.InitConfCommon | src/gpu/intel/reusable_simple_concat.cpp:321-346 | refused inputs: unimplemented, nothing changed; otherwise the internal-padding result when that path runs and accepts, else the general path's outcome on the standard view with the kernel choice kept, and without success lws and the index width as the general path found them; slot entries past the slot count, and block entries past those either path wrote, keep their values |
| ConcatConf.PlanAdmitted | src/gpu/intel/reusable_simple_concat.cpp:338-345 | the internal-padding attempt only with internal padding, the general path after a declined attempt; entries past the counts either path wrote kept |
| ConcatCtx.Decimal | src/gpu/intel/reusable_simple_concat.cpp:357-358 | the numeral utils::format prints for %d is nonempty and all digits |
| ConcatCtx.DecimalRoundTrip | src/gpu/intel/reusable_simple_concat.cpp:357-358 | reading back a printed numeral gives the number |
| ConcatCtx.DecimalInjective | src/gpu/intel/reusable_simple_concat.cpp:357-358 | different block indices print differently |
| ConcatCtx.MacroNameInjective | src/gpu/intel/reusable_simple_concat.cpp:348-366 | different macros have different names, so no define_int replaces another |
| ConcatCtx.GetKernelCtx | src/gpu/intel/reusable_simple_concat.cpp:348-366 | each field under its macro, USE_LARGE_INDEX as 0 or 1, BLOCK_B<i>/BLOCK_S<i> for each i < n_blocks, and no other macro |
| ConcatCtx.DefineBlocks | src/gpu/intel/reusable_simple_concat.cpp:356-359 | the loop adds exactly the first n_blocks sizes and strides to the fixed definitions |
| ConcatArgs.Cast | src/gpu/intel/reusable_simple_concat.cpp:387-395 | static_cast<IDX_T> lands in the index type's range, congruent to its operand |
| ConcatArgs.CastLossless | src/gpu/intel/reusable_simple_concat.cpp:387-395 | a value inside the index type survives the cast |
| ConcatArgs.GeneralIdxArgsShape | src/gpu/intel/reusable_simple_concat.cpp:373-414 | 5 arguments per slot, slot k's at 5k, then six more; the last byte is 1 exactly when reads overrun the inner axis or dst_concat_axis or some offset is not a multiple of read_overlap |
| ConcatArgs.GeneralSlotAt | src/gpu/intel/reusable_simple_concat.cpp:380-399 | slot k's five arguments are at 5k |
| ConcatArgs.CutoffStep | src/gpu/intel/reusable_simple_concat.cpp:379-397 | each slot or-s its offset's misalignment into the cut-off flag |
| ConcatArgs.PushGeneralSlot | src/gpu/intel/reusable_simple_concat.cpp:384-398 | appends the slot's storage, extern size / dts, offset, padded offset and next offset (or dst_concat_axis for the last) |
| ConcatArgs.PushGeneralTrailer | src/gpu/intel/reusable_simple_concat.cpp:401-413 | appends the five trailing index values and the flag byte |
| ConcatArgs.PushGeneralSlots | src/gpu/intel/reusable_simple_concat.cpp:379-399 | appends the arguments of every slot in input order and returns the cut-off flag |
| ConcatArgs.PushGeneralInput | src/gpu/intel/reusable_simple_concat.cpp:380-399 | one loop turn skips an empty input or appends its slot |
| ConcatArgs.PushIdxKernelArgs | src/gpu/intel/reusable_simple_concat.cpp:372-414 | appends exactly GeneralIdxArgs for the nonempty sources |
| ConcatArgs.IpIdxArgsShape | src/gpu/intel/reusable_simple_concat.cpp:416-450 | the two destination extents first, 5 arguments per slot at 2 + 5k, inner_axis last |
| ConcatArgs.IpSlotsAt | src/gpu/intel/reusable_simple_concat.cpp:427-447 | slot k's five arguments are at 5k, with the first source's extents for slot 0 and the second's after |
| ConcatArgs.PushIpSlot | src/gpu/intel/reusable_simple_concat.cpp:431-446 | appends storage, offset, padded offset and the axis0 or axis1 pair |
| ConcatArgs.PushIpSlots | src/gpu/intel/reusable_simple_concat.cpp:427-447 | appends the arguments of every slot in input order |
| ConcatArgs.PushIdxKernelArgsInternalPadding | src/gpu/intel/reusable_simple_concat.cpp:416-450 | appends exactly IpIdxArgs for the nonempty sources |
| ConcatArgs.LaunchArgsShape | src/gpu/intel/reusable_simple_concat.cpp:452-489 | the destination first, each nonempty source once in input order, 5 apart; 5n + 9 arguments for the general kernel, 5n + 4 for the internal-padding one |
| ConcatArgs.ExecuteConcat | src/gpu/intel/reusable_simple_concat.cpp:452-489 | no slots: success, nothing enqueued; otherwise the chosen kernel on the planned gws/lws with LaunchArgs at the index width use_large_index selects |
| GemmSpec.PreluScanMeaning | src/gpu/intel/gemm_matmul.hpp:256-265 | the scan refuses exactly when a masked dim follows a masked dim other than one; otherwise batch_dim is the product of the dims and new_mask says whether a masked dim is not one |
| GemmSpec.PreluScanStaysRefused | src/gpu/intel/gemm_matmul.hpp:256-260 | once refused, the scan stays refused |
| GemmSpec.PreluRemapRange | src/gpu/intel/gemm_matmul.hpp:249-281 | an accepted mask is 0, 1, 2 or 4, bit 0 set iff a masked batch dim is not one, the rest the non-batch mask shifted up by one |
| GemmSpec.BinaryRemapShape | src/gpu/intel/gemm_matmul.hpp:217-248 | a surviving binary input has reshape_size dims, as many elements, and batch one or the destination's |
| GemmSpec.PostOpsRemapShape | src/gpu/intel/gemm_matmul.hpp:214-282 | every post-op keeps its kind and maps as the two lemmas above say |
| GemmSpec.PostOpsRemapFails | src/gpu/intel/gemm_matmul.hpp:214-282 | the first refusal is the refusal of the whole post-op list |
| GemmSpec.Dims | src/gpu/intel/gemm_matmul.hpp:164-169 | the first n dims of a descriptor, a dim it does not have read as zero as in the zero-initialized dims array |
| GemmSpec.FoldKeepsCount | src/gpu/intel/gemm_matmul.hpp:166-169 | folding the first nd - reshape_size + 1 dims keeps the element count |
| GemmSpec.CollapsedSourceCount | src/gpu/intel/gemm_matmul.hpp:164-203 | the collapsed source and bias keep their element counts |
| GemmSpec.CollapsedWeightsCount | src/gpu/intel/gemm_matmul.hpp:157-203 | the weights keep their count when 2D drops a batch of one or 3D gives them the source's batch |
| GemmSpec.CollapsedDstCount | src/gpu/intel/gemm_matmul.hpp:176-203 | the destination keeps its count when its batch, M and N are the product's |
| GemmSpec.CollapseKeepsCounts | src/gpu/intel/gemm_matmul.hpp:204-212 | a successful collapse had each descriptor's collapsed shape accepted by the reshape, so when the reshape accepts only shapes with the same element count every descriptor keeps its count |
| GemmSpec.CollapseShape | src/gpu/intel/gemm_matmul.hpp:142-307 | a successful collapse had a 2D or 3D shape to take, hands GEMM the collapsed shapes with the bias broadcasting correctly and remaps every post-op |
| GemmSpec.FoldRatio | src/gpu/intel/gemm_matmul.hpp:170 | in the 2D collapse a_dim_ratio is the source's batch |
| GemmSpec.ScaleEntryMask | src/gpu/intel/gemm_matmul.hpp:116-135 | adjust_scales keeps the data type; without groups bit i is bit i + diff_dims of the original; with groups, per-tensor and nonzero g_dim the mask is 3 |
| GemmSpec.ZpEntryMask | src/gpu/intel/gemm_matmul.hpp:92-112 | map_gemm_zp: the same, shifted only when reshaping |
| GemmSpec.CollapseQuant | src/gpu/intel/gemm_matmul.hpp:283-297 | unfolds a successful collapse down to its quantization: the scales and zero points are CollapsedScales and CollapsedZeroPoints with diff = nd - reshape_size and a_dim_ratio = CDiv(a_dim, M), which goes to the source (DNNL_ARG_B) for scales and zero points alike; the step CollapseRenumbersMasks and ScalesFoldSource build on |
| GemmSpec.ScalesRenumbered | src/gpu/intel/gemm_matmul.hpp:283-291 | the renumbered scales of an ungrouped argument have bit i = bit i + diff of the original |
| GemmSpec.ZeroPointsRenumbered | src/gpu/intel/gemm_matmul.hpp:292-297 | the same for source and weights zero points; the destination's entry is left as it was |
| GemmSpec.CollapseRenumbersMasks | src/gpu/intel/gemm_matmul.hpp:283-297 | after a collapse every ungrouped scale mask and the source and weights zero-point masks are renumbered by nd - reshape_size; the destination's zero points are unchanged |
| GemmSpec.ScalesFoldSource | src/gpu/intel/gemm_matmul.hpp:283-290 | with groups, only the source's scales take a_dim_ratio: first group dim ratio / group when not per tensor, mask 3 when per tensor; the weights' and destination's keep their first group dim and shifted mask |
| GemmMatmul.BatchProduct | src/gpu/intel/gemm_matmul.hpp:146-149 | the loop yields the product of the first count dims, one when count is not positive |
| GemmMatmul.FoldBatches | src/gpu/intel/gemm_matmul.hpp:164-169 | a_dim and bia_dim are the products of the first folded dims, the bias read zero-initialized |
| GemmMatmul.BinaryBatchExtent | src/gpu/intel/gemm_matmul.hpp:219-223 | the loop yields the product of the binary input's dims up to the collapsed batch |
| GemmMatmul.PreluMask | src/gpu/intel/gemm_matmul.hpp:249-281 | the PReLU loop and checks compute PreluRemap |
| GemmMatmul.ChooseShapes | src/gpu/intel/gemm_matmul.hpp:146-170 | a refusal here is the collapse's refusal; otherwise the collapse is CollapseRest of the chosen shapes |
| GemmMatmul.CheckShapes | src/gpu/intel/gemm_matmul.hpp:171-213 | the bias and reshape checks refuse as CollapseFolded does, or yield its shapes |
| GemmMatmul.MatmulInit.ComputeAttrCompat2d | src/gpu/intel/gemm_matmul.hpp:61-90 | attr_compat_2d and the two per-tensor flags as AttrCompat2d and PerTensorGrouped define them |
| GemmMatmul.MatmulInit.MapGemmZp | src/gpu/intel/gemm_matmul.hpp:92-112 | the GEMM zero points get ZpEntry for the argument, others unchanged |
| GemmMatmul.MatmulInit.AdjustScales | src/gpu/intel/gemm_matmul.hpp:116-135 | the scales get ScaleEntry for the argument, others unchanged |
| GemmMatmul.MatmulInit.RemapPostOps | src/gpu/intel/gemm_matmul.hpp:214-282 | success iff PostOpsRemap accepts, with its post-ops; otherwise its status |
| GemmMatmul.MatmulInit.RenumberQuant | src/gpu/intel/gemm_matmul.hpp:283-297 | scales and zero points become CollapsedScales and CollapsedZeroPoints: adjust_scales for A (weights) and C with no extent and for B (the source) with a_dim_ratio |
| GemmMatmul.MatmulInit.Commit | src/gpu/intel/gemm_matmul.hpp:283-304 | the setup handed to GEMM becomes CollapseRest's result |
| GemmMatmul.MatmulInit.MaybeReshape | src/gpu/intel/gemm_matmul.hpp:142-307 | success iff Collapse succeeds, and then the setup is its result; on refusal the status is Collapse's and nothing is changed |
| GemmMatmul.MatmulInit.Init | src/gpu/intel/gemm_matmul.hpp:39-317 | non-default dropout: unimplemented; otherwise the flags computed, zero points mapped unreshaped, and reshape iff the collapse succeeds, with the setup its result or the unreshaped one |

## Left out

- normalization_t (add_source, has_internal_padding, the chunk sizes, the normalize call) lives in concat_utils.hpp, which is not part of this model. Its results are the input `Normalization`, with a standard view and a pessimistic one.
- prb_info_t's block computation and get_optimal_lws are device functions passed in as parameters. Hardware queries are fields of `Device`.
- ConcatSelect.SelectBestCandidate: prb_info_t::operator< is not visible. The model orders candidates by wider simd then larger block, and accepts any candidate that none precedes, so the tie-break is not modelled.
- ConcatPlan.NormalizeReusableSimpleConcat: requires that no candidate the selection may choose (any candidate that no other precedes, since the tie-break is not modelled) turns the inner extent into zero elements. The source divides by the chosen candidate's inner_axis (reusable_simple_concat.cpp:136-138) and would fault there.
- ConcatIp.TryNormalizeIpConcat2: the width search reads conf.blocks[0] even when the destination has no concat block. The model requires that stale entry to be positive rather than modelling uninitialised memory.
- ConcatPlan.RecordSlots: the 32-bit `int offset` accumulators are modelled unbounded, as is the lcm in gws0_block (the source notes its overflow).
- ConcatPlan.RuntimeParams.constructor: the fixed capacities of the parameter arrays are constructor arguments. Fitting the slots and blocks is a precondition.
- ConcatSpec.DstConcatAxis: nothing proves that the padded offsets stay within the destination's padded concat extent, or that the padded extents add up to it. The code checks neither and only clamps dst_concat_axis (reusable_simple_concat.cpp:104-105).
- ConcatCtx.GetKernelCtx: kernel_ctx_t is modelled as a map from macro to value. The string type of utils::format is modelled as the macro's decimal name.
- ConcatArgs.ExecuteConcat: parallel_for and the storages are not modelled. The launch status is the parameter `enqueued`, and buffers are tokens naming the input index.
- The 5e5 comparison is modelled as dst_bytes > 500000.
- GemmSpec.CollapsedScales: DNNL_ARG_A, DNNL_ARG_B and DNNL_ARG_C are taken as the weights, the source and the destination (GEMM works column-major, so its A is the matmul's weights; adjust_scales only folds a_dim_ratio for DNNL_ARG_SRC, gemm_matmul.hpp:128-130, and the source's zero points receive the same ratio, 295-296). The header defining these names is not part of this model.
- GemmMatmul.MatmulInit.Init: memory_desc_reshape is the predicate `reshapeOk`. The layouts of the reshaped descriptors are not modelled. That it keeps element counts is the hypothesis `ReshapeKeepsCount` of GemmSpec.CollapseKeepsCounts, not a property of every `reshapeOk`.
- The following parts of init are not modelled:
  - create_gemm_pd;
  - the restore of the original dims after it (orig_*_dims);
  - the fpmath, accumulation and deterministic settings;
  - scratchpad booking.
- The trivial_*_group flags cleared in the 3D branch are not read afterwards. Their clearing is not modelled.
- scales_t::set and zero_points_t::set are assumed to succeed, with group dims positive (`GroupsPositive`). get_group of default groups is taken as 1.
- full_tensor_mask() is an attribute value (`Attr.fullTensorMask`).
- GemmSpec.MatmulShaped: source, weights and destination of equal rank (at least two) and binary inputs of full rank are caller preconditions, which the primitive descriptor establishes. The model also excludes M == 0, where the source would divide by zero (gemm_matmul.hpp:170).
- GemmMatmul.BatchProduct: the source accumulates the batch products in 32-bit `int batch_a_dims` and `int batch_b_dims` (gemm_matmul.hpp:68, 146), so each step truncates. The model's products are unbounded; inputs whose batch product does not fit in 32 bits are not modelled as the source computes them.
- GemmMatmul.PreluMask: `int batch_dim` and `int mask_dim` (gemm_matmul.hpp:253-254) truncate to 32 bits in the source. The model's products are unbounded, so inputs whose batch product does not fit in 32 bits are not modelled as the source computes them.
- ConcatPlan.ConcatParams.constructor, ConcatPlan.RuntimeParams.constructor, ConcatArgs.KernelArgList.constructor, ConcatArgs.KernelArgList.Append and GemmMatmul.MatmulInit.constructor have no Model row: they only create the parameter structures with their fixed capacities and add one argument to the list (kernel_arg_list_t::append, reusable_simple_concat.cpp:385), and carry no property beyond their frames.
- GemmSpec.ZpEntry: as written, the folded first group dim of the source's zero points is divided by the SCALES' group. The destination's zero-point mask is not shifted by the collapse. Both are modelled as written.

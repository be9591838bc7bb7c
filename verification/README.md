# Gemmini in Dafny

A model of the software that drives the Gemmini systolic-array accelerator, and of the multi-core kernels
shipped beside it, with proofs that the many implementations of a few functions agree.

**The machine.** `Accelerator` models the accelerator as a class: scratchpad and accumulator rows, the array's
partial sums, the stationary weights, the preload registers, the load, execute and store configuration, and host
DRAM. Its methods are the `mvin`, `mvout`, `preload`, `compute` and `config` commands. The row field and the three
flag bits of a local address are explicit. `LocalMemory` and `Transfers` view a region of rows as the matrix that is
tiled over it, one DIM-wide block next to the other.

**Matrix multiply.** `MatmulSpec` says what a multiply leaves in DRAM. `MatmulCpu` is the reference kernel with its
unrolled path of 4 x 4 blocks. `MatmulTile` is one inner call, whichever dataflow carries it out; `MatmulOs` and
`MatmulWs` are the two streams of commands for it (padding, ragged last tiles, bias overwritten or accumulated;
weight-stationary also transposed operands, a narrow bias, and moves, products and stores interleaved). `MatmulOuter`
is the loop over tiles and `MatmulAuto` the tile search with the argument checks. All of them are proved to leave the
same DRAM. `Overflow` shows when 32-bit accumulation is exact under every tiling and `AccumulatorRange` that the
machine then stays within 32 bits; `Rounding` shows that the two rounding macros agree.

**Convolution.** `ConvSpec` is the layer: a zero-padded, zero-stuffed correlation with bias, over permuted layouts.
Against it stand the direct loops (`ConvDirect`), fused and separate pooling (`ConvPool`), the references that
materialise dilated or rotated arrays (`Dilation`, `ConvReference`), im2col plus multiply (`Im2col`, `Im2colMatmul`,
and `ConvByMatmul`, which runs both on one DRAM), one multiply per even row (`Downsample`), and the seven-deep tiled
loop with its pooling, its dilated inputs and its two static accumulator offsets (`ConvTile`, `TiledConv`).
`ConvLayout` and `ConvRoom` are where a slice lies in the memories and whether the calls of a tiling find room there;
`ConvRows`, `ConvSearch` and `ConvAuto` are the row counts, the tile search and the checks that follow it.

**Other users of the machine.** `Resadd`, `GlobalAverage` with `GlobalAverageAuto`, and the raw preload/compute test
programs (`TestBench`, `TestWs`, `TestOs`) with the gold results they compute on the side.

**Multi-core.** `SenseBarrier` is the sense-reversing barrier, one shared access at a time; `AeMatmul` and `AdMatmul`
are the two parallel multiplies as programs whose cores may step in any order.

`DIM`, the bank sizes, `ACC_ROWS` and the block lengths are symbolic constants: every result holds for each
configuration with DIM > 1, an even ACC_ROWS of at least DIM, a scratchpad of at least 2 * DIM rows, and memories
below 2^29 rows. Scale factors are arbitrary functions on integers, so the results hold for every rounding of them.

## What the code does where its documentation differs

- `tiled_matmul_auto` can start with tile_K = 0, when half the scratchpad has fewer blocks than the square root of the
  accumulator's blocks, and then stays there if no block column ever fits; `tiled_matmul` then refuses it.
  `MatmulAuto.TileSearch` gives the exact condition, `MatmulAuto.NoRoom` an input.
- The `downsample` condition of `tiled_conv_A_stride_auto` lacks two conjuncts of the one in `tiled_conv_A_stride`,
  so a searched tiling can be refused; `ConvAuto` says when, and gives inputs.
- With dilated input the scratchpad check counts too few rows: padding and pixels are rounded up one by one, the count
  rounds their sum. `ConvRoom.DilatedRows` says when the two differ, `ConvAuto.DilatedOverlap` gives an input.
- The loop unroller places the weights of a convolution DIM rows below the end of their half (LoopConv.scala:1329);
  the check takes the whole half. `ConvAuto.UnrollerRoom` gives the exact condition, `ConvAuto.UnrollerOverlap` an
  input.
- A pooling window that fits nowhere still leaves one pooled row where C's division takes a negative quotient to 0;
  `ConvPool.NoPooledRows` says when.
- `global_average_cpu` adds half the count and truncates, which rounds negative averages the wrong way;
  `GlobalAverageAuto.RoundedIsNearest` gives the exact condition, `GlobalAverageAuto.MinusOnes` an input.
- The loops kept as a comment in `sp_tiled_conv_A_stride` leave kernel_dilation out of the test that skips columns of
  a dilated input (gemmini.h:1316); the loop unroller has it (LoopConv.scala:577-578), and so has the model. For the
  address of a transposed input the unroller multiplies by the tile's batches (LoopConv.scala:258) where the comment
  has batch_size (gemmini.h:1227); here the model follows the comment.
- The comment at gemmini.h:2471 calls the layout selected by trans_weight_1203 WIHO; the index expression puts input
  channels outermost, then kernel row, then kernel column. The model follows the expression.
- The ISA table allows transposes in the output-stationary dataflow; `tiled_matmul` refuses all of them.
- The ISA text gives the accumulator scale as a shift amount; the configuration macro passes a scale factor. It does
  not say whether the sizes of a transposed operand are those before or after transposing; the kernels pass those
  after, and so does the model.

## Model

| member | source | states |
|---|---|---|
| `Accelerator.AccAddress` | gemmini/software/gemmini-rocc-tests/include/gemmini.h:320-321 | In a local address the three flag bits and a row number below 2^29 never disturb each other: memory, accumulate and full-width bits and the row are all recovered, and such an address is not the garbage address. |
| `Accelerator.Gemmini.constructor` | gemmini/README.md:110-138 | The machine starts with well-formed memories over a given DRAM. |
| `Accelerator.Gemmini.ConfigLd` | gemmini/README.md:174-183 | Sets stride, scale, width and block stride of one of the three load channels and leaves the other two alone. |
| `Accelerator.Gemmini.ConfigEx` | gemmini/README.md:140-157 | Sets dataflow, activation, array shift, accumulator scale, relu6 shift and the two transposes. |
| `Accelerator.Gemmini.ConfigSt` | gemmini/README.md:185-189 | Sets the store stride. |
| `Accelerator.Gemmini.Mvin` | gemmini/README.md:112-124 | A move-in changes only the memory its address names; there it overwrites, or adds to, exactly the footprint of the transfer with the scaled DRAM elements (zeros for a null pointer). |
| `Accelerator.Gemmini.Mvout` | gemmini/README.md:126-138 | A move-out changes only DRAM: the addressed rows, scaled, saturated and activated unless full width is asked for, laid out with the store stride. |
| `Accelerator.Gemmini.Preload` | gemmini/README.md:236-246 | Remembers the operand to preload and the destination of the next compute. |
| `Accelerator.Gemmini.Compute` | gemmini/README.md:248-265 | compute.preloaded and compute.accumulated in both dataflows, with operands transposed if so configured: what the array, the stationary weights and the destination memory hold afterwards; a garbage destination writes nothing. |
| `Accelerator.BlockWriteView` | gemmini/README.md:112-124 | Seen as a matrix laid over the memory in DIM-wide blocks, a transfer placed at block (i, j) changes exactly the sub-matrix that starts there. |
| `Accelerator.BlockWriteElsewhere` | gemmini/README.md:112-124 | A transfer leaves every region whose rows it does not reach unchanged. |
| `Accelerator.StoreCells` | gemmini/README.md:126-138 | If rows do not overlap in DRAM, storing a matrix row after row replaces exactly its elements and nothing else. |
| `Transfers.MvinBlocks` | gemmini/README.md:112-124 | A multi-block move-in, as a transfer of part of a matrix to a view: that part arrives, the rest of the view and every disjoint view stay. |
| `Transfers.MvoutBlocks` | gemmini/README.md:126-138 | A move-out of part of a view extends the stored part of the DRAM matrix by exactly that part. |
| `MatmulSpec.ProductCell` | gemmini/software/gemmini-rocc-tests/include/gemmini.h:814-831 | In DRAM after the multiply, cell (i, j) of C is bias plus the sum of products over the shared dimension, quantised (or full width). |
| `MatmulSpec.IsAfter` | gemmini/software/gemmini-rocc-tests/include/gemmini.h:814-831 | DRAM that agrees with the initial one off C and holds final values exactly on the finished cells of C is uniquely determined; this is what makes "leaves the same DRAM" an equality. |
| `MatmulCpu.Dot` | gemmini/software/gemmini-rocc-tests/include/gemmini.h:820-827 | The inner product loop, reading operands from a DRAM whose C is partly written, yields bias plus the sum over the operands as they were at the start. |
| `MatmulCpu.General` | gemmini/software/gemmini-rocc-tests/include/gemmini.h:814-831 | The general path, any transposes and strides: C becomes the product, every other cell is unchanged. |
| `MatmulCpu.Accumulate4x4` | gemmini/software/gemmini-rocc-tests/include/gemmini.h:719-777 | The sixteen running sums of a 4 x 4 block end as the sixteen inner products. |
| `MatmulCpu.Block4x4` | gemmini/software/gemmini-rocc-tests/include/gemmini.h:716-811 | Storing a block makes exactly its sixteen cells final. |
| `MatmulCpu.Unrolled` | gemmini/software/gemmini-rocc-tests/include/gemmini.h:715-812 | For dimensions divisible by 4 the unrolled path leaves the same DRAM as the general path, for any strides that keep rows of C apart and any bias mode. |
| `MatmulCpu.MatmulCpu` | gemmini/software/gemmini-rocc-tests/include/gemmini.h:707-832 | Whichever path is taken, DRAM ends as the product. |
| `MatmulTile.Regions` | gemmini/software/gemmini-rocc-tests/include/gemmini.h:318-321 | For a tile that fits, the rows of A and of B are disjoint and inside the scratchpad, those of C and D inside the accumulator. |
| `MatmulTile.OutFlags` | gemmini/software/gemmini-rocc-tests/include/gemmini.h:384-391 | Clearing the accumulate bit keeps memory, width and row, so an unbiased tile overwrites the same cells a biased one adds to. |
| `MatmulTile.MoveInD` | gemmini/software/gemmini-rocc-tests/include/gemmini.h:327-347 | The bias, repeated or not, of either width, is in place for every row and column of the tile, ragged edges included, and the scratchpad is untouched. |
| `MatmulOs.MoveInB` | gemmini/software/gemmini-rocc-tests/include/gemmini.h:349-360 | All of B, scaled, is in its scratchpad region. |
| `MatmulOs.MoveInA` | gemmini/software/gemmini-rocc-tests/include/gemmini.h:362-373 | All of A, scaled, is in its region, and the B region is as it was. |
| `MatmulTile.MacBlock` | gemmini/software/gemmini-rocc-tests/include/gemmini.h:379-407 | One pass of the array, in either dataflow, adds exactly one block of the shared dimension, a ragged last block included, to the sum. |
| `MatmulOs.PeStep` | gemmini/software/gemmini-rocc-tests/include/gemmini.h:379-407 | After k blocks the array holds the products of the first k blocks for every cell of the output block. |
| `MatmulOs.ComputeBlock` | gemmini/software/gemmini-rocc-tests/include/gemmini.h:375-409 | The k loop touches the accumulator once, at its end, writing or adding the block's sums. |
| `MatmulOs.ComputeAll` | gemmini/software/gemmini-rocc-tests/include/gemmini.h:375-409 | Every accumulator cell of the tile gains the tile's sum, or is replaced by it in the first unbiased tile; padding rows and columns are not part of it. |
| `MatmulOs.MoveOutC` | gemmini/software/gemmini-rocc-tests/include/gemmini.h:411-426 | The tile of C in DRAM is exactly the quantised (or full-width) accumulator contents. |
| `MatmulOs.SpTiledMatmulOs` | gemmini/software/gemmini-rocc-tests/include/gemmini.h:309-427 | One inner call: accumulator cells become bias, zero or their earlier value plus this tile's sum; DRAM changes only on the tile of C, and only if C is given. |
| `MatmulWs.StageStep` | gemmini/software/gemmini-rocc-tests/include/gemmini.h:480-517 | When a move-in is issued or left out, what is in the scratchpad grows by exactly the run of blocks that starts there, along the rows of a transposed operand and down the columns of an untransposed one. |
| `MatmulWs.StageCovers` | gemmini/software/gemmini-rocc-tests/include/gemmini.h:480-517 | The block a product needs is among those moved in by then. |
| `MatmulWs.MvinStage` | gemmini/software/gemmini-rocc-tests/include/gemmini.h:480-517 | The move-in belonging to a block, of up to MAX_BLOCK_LEN blocks, brings in its part of A or B and leaves the other operand alone, although results are already being stored. |
| `MatmulWs.WeightsPreloaded` | gemmini/software/gemmini-rocc-tests/include/gemmini.h:519-545 | Preloading a block of B, transposed if need be, makes it the stationary weights. |
| `MatmulWs.ArrayIs` | gemmini/software/gemmini-rocc-tests/include/gemmini.h:519-545 | With those weights in place, for the first block row of A and all later ones, the array computes one block of products. |
| `MatmulWs.MultiplyBlocks` | gemmini/software/gemmini-rocc-tests/include/gemmini.h:519-545 | preload and compute add the block of products to its accumulator cells, or, in the first pass of an unbiased tile, replace them. |
| `MatmulWs.CellsStep` | gemmini/software/gemmini-rocc-tests/include/gemmini.h:471-545 | The accumulator invariant of the three loops: each cell holds what it started from and the products of as many blocks as the loop counters say. |
| `MatmulWs.DownStep` | gemmini/software/gemmini-rocc-tests/include/gemmini.h:547-560 | C is stored in runs of C_blocks block columns; each flush takes exactly the columns finished since the last one. |
| `MatmulWs.Flush` | gemmini/software/gemmini-rocc-tests/include/gemmini.h:547-560 | A flush stores finished cells only, and exactly the run of blocks just completed. |
| `MatmulWs.Step` | gemmini/software/gemmini-rocc-tests/include/gemmini.h:471-563 | The body of the inner loop, moves, products and stores interleaved, keeps the state of both memories, the weights and DRAM. |
| `MatmulWs.SpTiledMatmulWs` | gemmini/software/gemmini-rocc-tests/include/gemmini.h:429-571 | One inner call: the same accumulator and the same tile of C as the output-stationary call, for transposed operands and a narrow bias too, provided A and B do not overlap the tile of C. |
| `MatmulOuter.SplitShape` | gemmini/software/gemmini-rocc-tests/include/gemmini.h:585-603 | Tile counts, last-tile sizes and padding partition a dimension: the blocks add up, the last tile is not empty, and padding is less than one block. |
| `MatmulOuter.SplitTile` | gemmini/software/gemmini-rocc-tests/include/gemmini.h:650-656 | Tile n covers exactly the elements from its origin to the next tile's, padding excluded. |
| `MatmulOuter.TileIsGood` | gemmini/software/gemmini-rocc-tests/include/gemmini.h:643-672 | Every inner call of an accepted tiling gets sizes that fit the memories and valid pointers. |
| `MatmulOuter.TileAddrs` | gemmini/software/gemmini-rocc-tests/include/gemmini.h:643-662 | Element (r, c) of a tile operand is element (origin + r, origin + c) of the whole matrix, for A and B transposed or not, for C, and for D of either width with and without repetition. |
| `MatmulOuter.TileDIn` | gemmini/software/gemmini-rocc-tests/include/gemmini.h:605-609 | A tile reads D only if there is a D, and then only inside it: the dummy address that stands for "no bias" is never dereferenced. |
| `MatmulOuter.TileSumIs` | gemmini/software/gemmini-rocc-tests/include/gemmini.h:635-673 | The sum a tile adds is exactly the next slice of the full inner product. |
| `MatmulOuter.AccStep` | gemmini/software/gemmini-rocc-tests/include/gemmini.h:635-673 | The key invariant: after k0 tiles of the shared dimension each accumulator cell is bias plus the partial sum up to there. |
| `MatmulOuter.StoreTile` | gemmini/software/gemmini-rocc-tests/include/gemmini.h:648-672 | Storing a finished output tile makes exactly its cells of C final. |
| `MatmulOuter.OutputTile` | gemmini/software/gemmini-rocc-tests/include/gemmini.h:637-673 | All inner calls of one output tile make that tile of C final and change nothing else. |
| `MatmulOuter.TiledMatmulOuter` | gemmini/software/gemmini-rocc-tests/include/gemmini.h:573-676 | For every accepted tiling and in both dataflows, the whole command stream leaves in DRAM exactly what matmul_cpu leaves: any positive dimensions, bias or none, repeating or not, full width or not, and, weight-stationary, operands transposed and a narrow bias. |
| `MatmulSpec.Addresses` | gemmini/software/gemmini-rocc-tests/include/gemmini.h:707-757 | The operands are row-major with the given strides, column-major when transposed; a repeating bias has one row; sizes count in bytes of the element's width. |
| `MatmulAuto.EffectiveIs` | gemmini/software/gemmini-rocc-tests/include/gemmini.h:922-943 | What the CPU ignores is the width of C and of the bias, and nothing else. |
| `MatmulAuto.CheckIs` | gemmini/software/gemmini-rocc-tests/include/gemmini.h:853-917 | The checks pass exactly the accepted arguments, and each refusal names a cause that holds. |
| `MatmulAuto.TiledMatmul` | gemmini/software/gemmini-rocc-tests/include/gemmini.h:841-944 | Runs if and only if the tile factors are between 1 and the blocks there are and at most 65535, A beside B fit the scratchpad and C the accumulator (half of each double-buffered), and the dataflow can do the transposes: none output-stationary, not both weight-stationary, any on the CPU. Then DRAM ends as the product; otherwise nothing changes. |
| `MatmulAuto.Isqrt` | gemmini/software/gemmini-rocc-tests/include/gemmini.h:970-977 | The truncated square root that bounds the first two tile sizes. |
| `MatmulAuto.StartFits` | gemmini/software/gemmini-rocc-tests/include/gemmini.h:992-1000 | The starting tiling fits scratchpad and accumulator, double-buffered or not. |
| `MatmulAuto.Round` | gemmini/software/gemmini-rocc-tests/include/gemmini.h:1003-1028 | One round of growth is J, then I, then K, each taken one further exactly if the larger tile fits and stays within the blocks there are; it keeps the tiling feasible and reports whether any grew. |
| `MatmulAuto.TileSearch` | gemmini/software/gemmini-rocc-tests/include/gemmini.h:980-1028 | The search ends in the tiling that the starting squares and the rounds of growth lead to, which fits; tile_K is positive if and only if there was room for one block column at the end of the first round. |
| `MatmulAuto.SquareIs` | gemmini/software/gemmini-rocc-tests/include/gemmini.h:967-977 | The starting side is the greatest square of blocks that the (half) accumulator holds. |
| `MatmulAuto.HalfIs` | gemmini/software/gemmini-rocc-tests/include/gemmini.h:967-978 | The starting depth is the greatest for which a panel of that side fills at most half of the (half) scratchpad. |
| `MatmulAuto.SearchUnique` | gemmini/software/gemmini-rocc-tests/include/gemmini.h:980-1028 | The search has no choice: blocks and memories determine its answer. |
| `MatmulAuto.NothingGrows` | gemmini/software/gemmini-rocc-tests/include/gemmini.h:1003-1028 | In its answer no single factor can grow by one. |
| `MatmulAuto.MaxTilePositive` | gemmini/software/gemmini-rocc-tests/include/gemmini.h:967-978 | The starting bound is positive, so the source does not divide by zero, if and only if the (half) accumulator holds a block. |
| `MatmulAuto.NoRoom` | gemmini/software/gemmini-rocc-tests/include/gemmini.h:967-1028 | That room can be missing: beside an accumulator of four blocks a scratchpad of two leaves the search at 2 x 2 x 0 blocks. |
| `MatmulAuto.SearchPasses` | gemmini/software/gemmini-rocc-tests/include/gemmini.h:853-907 | A found tiling with positive tile_K passes every size and capacity check of tiled_matmul. |
| `MatmulAuto.TiledMatmulAuto` | gemmini/software/gemmini-rocc-tests/include/gemmini.h:956-1061 | Automatic tiling on the array in both dataflows and on the CPU leave the same DRAM, transposes and narrow bias included. While the scratchpad has at most 65535 * DIM rows it runs if and only if there is room for one block column and the dataflow can do the transposes; always it runs if and only if the searched tiling is accepted. |
| `Overflow.WrapSumIsWrapped` | gemmini/software/gemmini-rocc-tests/include/gemmini.h:822-827 | A sum kept in 32 bits is the exact sum wrapped once. |
| `Overflow.TiledWrapSumIsWrapped` | gemmini/software/gemmini-rocc-tests/include/gemmini.h:635-673 | The same for any way of cutting the sum into separately wrapped tiles. |
| `Overflow.NoOverflow` | gemmini/software/gemmini-rocc-tests/include/gemmini_params.h:17-20 | With int8 operands, at most 65536 of them, and a bias below 2^30 in magnitude, no slice of the products and no partial sum leaves int32. |
| `Overflow.TiledAccumulationExact` | gemmini/software/gemmini-rocc-tests/include/gemmini.h:635-673 | Hence wrapped accumulation under every tiling gives the exact inner product plus bias. |
| `Quantize.NearestPassing` | gemmini/software/gemmini-rocc-tests/include/gemmini.h:678-693 | What leaves the accumulator is the element nearest to the scaled value among those the activation lets through, and the only one so near. |
| `AccumulatorRange.AccInRange` | gemmini/software/gemmini-rocc-tests/include/gemmini.h:635-673 | On such operands every accumulator cell of the tiled multiply is an int32 between any two inner calls. |
| `AccumulatorRange.PeInRange` | gemmini/software/gemmini-rocc-tests/include/gemmini.h:379-407 | So is every cell of the array after each of its passes, output-stationary. |
| `AccumulatorRange.PassIs` | gemmini/software/gemmini-rocc-tests/include/gemmini.h:471-545 | Weight-stationary, an accumulator cell after each block of the shared dimension is the multiply's own partial sum up to there. |
| `AccumulatorRange.PassInRange` | gemmini/software/gemmini-rocc-tests/include/gemmini.h:471-545 | So it is an int32 as well. |
| `Rounding.ShiftRounds` | gemmini/software/gemmini-rocc-tests/include/gemmini_params.h:40-44 | ROUNDING_RIGHT_SHIFT is division by a power of two rounded to nearest, ties to even (rounding mode rne, section 3.8 of the RISC-V "V" Vector Extension specification 1.0), negative numbers included. |
| `Rounding.NearestEvenUnique` | gemmini/software/gemmini-rocc-tests/include/gemmini_params.h:40-44 | There is only one such rounding. |
| `Rounding.RealRounds` | gemmini/software/gemmini-rocc-tests/include/gemmini_params.h:52-60 | ROUND_NEAR_EVEN of a real is a nearest integer, the even one on a tie, negative reals included. |
| `Rounding.ShiftIsRoundNearEven` | gemmini/software/gemmini-rocc-tests/include/gemmini_params.h:41-60 | The shift macro equals ROUND_NEAR_EVEN of the exact quotient. |
| `SenseBarrier.StartInv` | gemmini/software/gemmini-rocc-tests/riscv-tests/benchmarks/common/util.h:46-48 | The zero-initialised barrier satisfies the barrier invariant. |
| `SenseBarrier.ArriveInv` | gemmini/software/gemmini-rocc-tests/riscv-tests/benchmarks/common/util.h:52-53 | Entering a barrier keeps the invariant, for the last core to arrive and for the others. |
| `SenseBarrier.AdvanceInv` | gemmini/software/gemmini-rocc-tests/riscv-tests/benchmarks/common/util.h:55-59 | So do resetting the count, flipping the sense and each turn of the spin loop. |
| `SenseBarrier.NobodyBehind` | gemmini/software/gemmini-rocc-tests/riscv-tests/benchmarks/common/util.h:44-62 | A core that has left a barrier has everybody else at least inside it. |
| `SenseBarrier.SpinningWaitsForSomeone` | gemmini/software/gemmini-rocc-tests/riscv-tests/benchmarks/common/util.h:58-59 | A core spins in vain only while another has a step of its own to take first. |
| `AeMatmul.InitialInv` | gemmini/software/gemmini-rocc-tests/riscv-tests/mt/ae_matmul.c:33-44 | The initial state, with arbitrary BB and C, satisfies the invariant. |
| `AeMatmul.ReadsAreFinal` | gemmini/software/gemmini-rocc-tests/riscv-tests/mt/ae_matmul.c:64-98 | Whenever a core is about to read BB, the element holds its final, transposed value. |
| `AeMatmul.TransposeFinished` | gemmini/software/gemmini-rocc-tests/riscv-tests/mt/ae_matmul.c:38-53 | Once one core is past the transpose, every core has stored its whole share of BB. |
| `AeMatmul.StepInv` | gemmini/software/gemmini-rocc-tests/riscv-tests/mt/ae_matmul.c:38-108 | Every step of every core keeps the invariant: barrier, loop counters, running sums, transposed part and finished part of C. |
| `AeMatmul.ExecInv` | gemmini/software/gemmini-rocc-tests/riscv-tests/mt/ae_matmul.c:38-108 | The invariant holds in every state of every interleaving. |
| `AeMatmul.FinalProduct` | gemmini/software/gemmini-rocc-tests/riscv-tests/mt/ae_matmul.c:46-108 | Whatever the interleaving, when all cores have finished C is A * B. |
| `AeMatmul.ProductTerm` | gemmini/software/gemmini-rocc-tests/riscv-tests/mt/ae_matmul.c:46-105 | Its terms are row j of A by column i of B, both row-major. |
| `AeMatmul.NextWrites` | gemmini/software/gemmini-rocc-tests/riscv-tests/mt/ae_matmul.c:22-108 | The access a core is said to be about to make names every element of BB or C its step changes. |
| `AeMatmul.NextReads` | gemmini/software/gemmini-rocc-tests/riscv-tests/mt/ae_matmul.c:22-108 | And the one element of BB its step depends on: any other may differ without changing what the step does. |
| `AeMatmul.NoRace` | gemmini/software/gemmini-rocc-tests/riscv-tests/mt/ae_matmul.c:38-108 | In no reachable state are two cores about to access the same element of BB or C, one of them writing. |
| `AeMatmul.FinishedArrivals` | gemmini/software/gemmini-rocc-tests/riscv-tests/mt/ae_matmul.c:43-106 | Every core that finishes has been through the same number of barriers. |
| `AeMatmul.NotStuck` | gemmini/software/gemmini-rocc-tests/riscv-tests/mt/ae_matmul.c:43-106 | While a core is unfinished, some core has a step that does something: no core is left waiting. |
| `AeMatmul.StepProgress` | gemmini/software/gemmini-rocc-tests/riscv-tests/mt/ae_matmul.c:38-108 | A step that changes the state takes its core strictly further and sets no other core back. |
| `AeMatmul.BoundedWork` | gemmini/software/gemmini-rocc-tests/riscv-tests/mt/ae_matmul.c:38-108 | The number of steps that do anything is bounded, so every interleaving that keeps taking such steps finishes. |
| `AdMatmul.StepInvAd` | gemmini/software/gemmini-rocc-tests/riscv-tests/mt/ad_matmul.c:8-34 | Every in-place += and every barrier step keeps each element of C equal to the first terms of its inner product. |
| `AdMatmul.FinalProductAd` | gemmini/software/gemmini-rocc-tests/riscv-tests/mt/ad_matmul.c:9-34 | With C zero at the start and rows of 32, every interleaving ends in A * B. |
| `AdMatmul.ProductTermAd` | gemmini/software/gemmini-rocc-tests/riscv-tests/mt/ad_matmul.c:13-31 | Its terms are row j of A by column i of B, both row-major. |
| `AdMatmul.SameProduct` | gemmini/software/gemmini-rocc-tests/riscv-tests/mt/ad_matmul.c:9-34 | On 32 x 32 operands both programs end in the same C. |
| `AdMatmul.NoRaceAd` | gemmini/software/gemmini-rocc-tests/riscv-tests/mt/ad_matmul.c:23-30 | No two cores are about to update the same element. |
| `AdMatmul.DoneEntered` | gemmini/software/gemmini-rocc-tests/riscv-tests/mt/ad_matmul.c:11-34 | All cores enter the same number of barriers. |
| `AdMatmul.NotStuckAd` | gemmini/software/gemmini-rocc-tests/riscv-tests/mt/ad_matmul.c:9-34 | While a core is unfinished, some core can move. |
| `AdMatmul.StepProgressAd` | gemmini/software/gemmini-rocc-tests/riscv-tests/mt/ad_matmul.c:9-34 | A step that changes the state takes its core strictly further and sets no other core back. |
| `AdMatmul.BoundedWorkAd` | gemmini/software/gemmini-rocc-tests/riscv-tests/mt/ad_matmul.c:9-34 | At most 68 * (512 + n) steps on n cores do anything, whatever the interleaving. |
| `ConvSpec.OutNearest` | gemmini/software/gemmini-rocc-tests/include/gemmini.h:678-693 | Of the elements its activation lets through, a layer stores the one nearest to the scaled value. |
| `ConvDirect.IndexIs` | gemmini/software/gemmini-rocc-tests/include/gemmini.h:2457-2487 | The flat index expressions for every permitted layout are row-major indices of the permuted arrays. |
| `ConvDirect.OffGridRow` | gemmini/software/gemmini-rocc-tests/include/gemmini.h:2445-2454 | Taps that miss the grid of a dilated input add nothing, so skipping them is right. |
| `ConvDirect.ChannelTaps` | gemmini/software/gemmini-rocc-tests/include/gemmini.h:2456-2479 | The channel loop adds the products of one tap, padding counting as zero and the kernel rotated if asked for. |
| `ConvDirect.AccumulatePixel` | gemmini/software/gemmini-rocc-tests/include/gemmini.h:2442-2481 | One output element is bias plus the triple sum over kernel rows, kernel columns and channels; C's truncating division of negative coordinates makes no difference. |
| `ConvDirect.ConvCpuWithoutPool` | gemmini/software/gemmini-rocc-tests/include/gemmini.h:2421-2494 | Every output element of the layer receives its correlation value in the layout asked for; no other element of the array changes. |
| `ConvPool.WindowMaxIs` | gemmini/software/gemmini-rocc-tests/bareMetalC/conv_with_pool.c:120-135 | The running maximum is the greatest of the window's elements and the least representable element. |
| `ConvPool.Pool` | gemmini/software/gemmini-rocc-tests/bareMetalC/conv_with_pool.c:111-140 | pool() of the test: every element becomes the maximum over its window, padding counting as zero. |
| `ConvPool.PoolLayer` | gemmini/software/gemmini-rocc-tests/include/gemmini_nn.h:456-497 | pool() of the network library, with running coordinates and channels outermost, fills the same array. |
| `ConvPool.FusedWindow` | gemmini/software/gemmini-rocc-tests/include/gemmini.h:2532-2606 | The fused window loop stores, once, the maximum over the window of convolution results computed on the fly. |
| `ConvPool.PooledRows` | gemmini/software/gemmini-rocc-tests/include/gemmini.h:2525 | If the window fits into the padded image, the pooled rows are exactly the places where it fits. |
| `ConvPool.NoPooledRows` | gemmini/software/gemmini-rocc-tests/include/gemmini.h:2525 | If it fits nowhere, C's division still leaves one pooled row unless a whole stride is missing, and then none. |
| `ConvPool.ConvCpu` | gemmini/software/gemmini-rocc-tests/include/gemmini.h:2496-2611 | conv_cpu with and without pooling, in either output layout. |
| `ConvPool.FusedIsPool` | gemmini/software/gemmini-rocc-tests/include/gemmini.h:2524-2610 | Fused pooling leaves the array that pool() makes of the output of conv_cpu_without_pool, for all window sizes and strides of at least 1 and all pool paddings. |
| `Sums3.SumSparse` | gemmini/software/gemmini-rocc-tests/bareMetalC/conv_with_kernel_dilation.c:117-132 | Summing a zero-stuffed sequence is summing the original one. |
| `Dilation.ZeroFill` | gemmini/software/gemmini-rocc-tests/bareMetalC/conv_with_kernel_dilation.c:81-85 | The zeroing loops clear the whole array. |
| `Dilation.Dilate` | gemmini/software/gemmini-rocc-tests/bareMetalC/conv_with_kernel_dilation.c:81-94 | Zeroing, then copying with the running idx, puts every source element at its grid position and leaves zeros between; it serves input and kernel alike. |
| `ConvReference.PixelSame` | gemmini/software/gemmini-rocc-tests/bareMetalC/conv_with_kernel_dilation.c:120-125 | A pixel of the materialised image, padding included, is the pixel conv_cpu_without_pool would read or skip. |
| `ConvReference.AccSame` | gemmini/software/gemmini-rocc-tests/bareMetalC/conv_with_kernel_dilation.c:111-132 | The plain sum over the materialised arrays is the layer's accumulated value. |
| `ConvReference.PlainConv` | gemmini/software/gemmini-rocc-tests/bareMetalC/conv_with_kernel_dilation.c:111-141 | The main loops of the references fill the output of a plain convolution. |
| `ConvReference.ConvKernelDilated` | gemmini/software/gemmini-rocc-tests/bareMetalC/conv_with_kernel_dilation.c:56-142 | The reference with materialised zero-stuffed input and kernel computes exactly the array conv_cpu_without_pool computes, for all strides, dilations and paddings. |
| `ConvReference.Rotate` | gemmini/software/gemmini-rocc-tests/bareMetalC/conv_with_input_dilation_and_rot180.c:94-100 | The rotated kernel is the kernel turned by 180 degrees. |
| `ConvReference.ConvRotated` | gemmini/software/gemmini-rocc-tests/bareMetalC/conv_with_input_dilation_and_rot180.c:55-135 | The reference with materialised input and rotated kernel computes exactly that array too. |
| `Im2col.WindowCount` | gemmini/software/gemmini-rocc-tests/include/gemmini_nn.h:283-284 | The window positions the stride loops visit are exactly the output pixels. |
| `Im2col.PatchElementIs` | gemmini/software/gemmini-rocc-tests/include/gemmini_nn.h:283-301 | The element with row counter (b*out_dim+orow)*out_dim+ocol and column counter of tap (kr, kc, ch) is the pixel under that tap. |
| `Im2col.Im2col` | gemmini/software/gemmini-rocc-tests/include/gemmini_nn.h:274-309 | The row counter ends at batch*out_dim*out_dim; every element on the image receives its pixel, and every other element of the matrix, so exactly those on the padding, keeps what it held. |
| `Im2col.ZeroedFilling` | gemmini/software/gemmini-rocc-tests/include/gemmini_nn.h:274-309 | Into a zeroed matrix it therefore puts every pixel, the zeros of the padding included. |
| `Im2colMatmul.FlattenWeights` | gemmini/software/gemmini-rocc-tests/bareMetalC/conv_with_pool.c:142-163 | flatten_weights permutes OHWI weights to a patch_size x out_channels matrix. |
| `Im2colMatmul.FlattenedIsHwio` | gemmini/software/gemmini-rocc-tests/bareMetalC/conv_with_pool.c:142-163 | That matrix is the kernel in the layout conv_cpu reads. |
| `Im2colMatmul.PartialIsAcc` | gemmini/software/gemmini-rocc-tests/include/gemmini.h:820-827 | One row of the patch matrix times one column of the weights, plus the repeated bias, is the layer's accumulated value. |
| `Im2colMatmul.Im2colMatmulIsConv` | gemmini/software/gemmini-rocc-tests/include/gemmini.h:814-831 | im2col followed by the multiply leaves at every output index the value conv_cpu_without_pool stores there. |
| `ConvByMatmul.CallPlaced` | gemmini/software/gemmini-rocc-tests/include/gemmini_nn.h:120-138 | With its four buffers apart in DRAM, the multiply the network library issues is well placed. |
| `ConvByMatmul.ConvByMatmul` | gemmini/software/gemmini-rocc-tests/imagenet/resnet50.c:73-85 | im2col, flatten_weights and one automatic multiply, run on one DRAM, leave the output of conv_cpu_without_pool, on the array in both dataflows and on the CPU. |
| `Downsample.RowAddresses` | gemmini/software/gemmini-rocc-tests/include/gemmini.h:3068-3076 | The doubled stride makes row i of the multiply the pixel in column 2*i of the even image row. |
| `Downsample.RowWrites` | gemmini/software/gemmini-rocc-tests/include/gemmini.h:3078-3082 | The multiply of one even row writes exactly one row of the layer's output. |
| `Downsample.TiledConvDownsample` | gemmini/software/gemmini-rocc-tests/include/gemmini.h:3044-3085 | For even in_dim, one multiply per even row fills the same output as conv_cpu_without_pool with kernel 1, stride 2 and no padding, and changes nothing else. |
| `ConvLayout.SlabInjective` | gemmini/software/gemmini-rocc-tests/include/gemmini.h:1171-1233 | No two elements of a slice's padded input share a scratchpad cell, in either layout. |
| `ConvLayout.SlabOnto` | gemmini/software/gemmini-rocc-tests/include/gemmini.h:1171-1233 | Every row of the input region is the row of an element, its last one included. |
| `ConvLayout.KernelInjective` | gemmini/software/gemmini-rocc-tests/include/gemmini.h:1241-1289 | No two weights of a slice share a cell, in either layout. |
| `ConvLayout.KernelOnto` | gemmini/software/gemmini-rocc-tests/include/gemmini.h:1241-1289 | Every row of the weight region is the row of a weight, its last one included. |
| `ConvLayout.ApartIff` | gemmini/software/gemmini-rocc-tests/include/gemmini.h:1112-1126 | Input and weights can be kept apart within so many rows if and only if the sizes of their regions add up to no more. |
| `ConvLayout.CountsAre` | gemmini/software/gemmini-rocc-tests/include/gemmini.h:2399-2416 | A_rows and B_rows are the sizes of these regions. |
| `ConvRows.TotalRowsMono` | gemmini/software/gemmini-rocc-tests/include/gemmini.h:2379-2419 | Shrinking any tile size never needs more scratchpad or accumulator rows. |
| `ConvRoom.UncutCount` | gemmini/software/gemmini-rocc-tests/include/gemmini.h:2392-2419 | The scratchpad count is the room taken by a call on a full tile that meets no padding, by the call's own account of its rows. |
| `ConvRoom.SpadRoomIff` | gemmini/software/gemmini-rocc-tests/include/gemmini.h:2689-2697 | The scratchpad check passes if and only if input and weights of such a call can be kept apart in half of the scratchpad. |
| `ConvRoom.AccRoomIff` | gemmini/software/gemmini-rocc-tests/include/gemmini.h:2698-2701 | The accumulator check passes if and only if all its results lie in half of the accumulator. |
| `ConvRoom.CallsFit` | gemmini/software/gemmini-rocc-tests/include/gemmini.h:1092-1126 | Undilated, every call of an accepted tiling has room, however it is cut and padded. |
| `ConvRoom.ReadsInside` | gemmini/software/gemmini-rocc-tests/include/gemmini.h:1310-1352 | Every position a product reads lies in the rows of its call. |
| `ConvRoom.DilatedRows` | gemmini/software/gemmini-rocc-tests/include/gemmini.h:1092-1108 | A call on dilated input needs at least the rows counted for its positions, and no more if and only if the first and the last of them lie on pixels' places, the last not before the image. |
| `ConvSearch.TilingExists` | gemmini/software/gemmini-rocc-tests/include/gemmini.h:2906-2937 | If any tiling fits, the all-ones tiling does. |
| `ConvSearch.PickLargest` | gemmini/software/gemmini-rocc-tests/include/gemmini.h:2910-2917 | The size picked is the first of the largest that may shrink; there always is one. |
| `ConvSearch.ShrunkIs` | gemmini/software/gemmini-rocc-tests/include/gemmini.h:2919-2929 | Channels shrink to the greatest multiple of DIM below, or to one if that is zero, everything else by one. |
| `ConvSearch.LoweredUnique` | gemmini/software/gemmini-rocc-tests/include/gemmini.h:2919-2929 | There is one such value. |
| `ConvSearch.CanShrink` | gemmini/software/gemmini-rocc-tests/include/gemmini.h:2906-2929 | As long as the tiling does not fit but the all-ones tiling would, the size picked exceeds one. |
| `ConvSearch.Shrink` | gemmini/software/gemmini-rocc-tests/include/gemmini.h:2906-2937 | The shrinking loop ends in a tiling that fits, every size at least one, through a chain of tilings of which none fits but the last: each step lowers the first of the largest sizes that may shrink, channels to the greatest multiple of DIM below (or to one), other sizes by one. |
| `ConvSearch.ShrunkUnique` | gemmini/software/gemmini-rocc-tests/include/gemmini.h:2906-2937 | The shrinking loop has no choice: any two such chains from one tiling are the same. |
| `ConvSearch.TryGrow` | gemmini/software/gemmini-rocc-tests/include/gemmini.h:2969-2985 | A size grows by one exactly if it may and the result fits. |
| `ConvSearch.GrowColumns` | gemmini/software/gemmini-rocc-tests/include/gemmini.h:2939-2961 | The column loop takes the columns as far as they fit and stay within the layer, and no further. |
| `ConvSearch.GrowPass` | gemmini/software/gemmini-rocc-tests/include/gemmini.h:2965-2987 | One pass is the seven attempts in order; a pass in which nothing grew leaves no size that could. |
| `ConvSearch.SearchTiling` | gemmini/software/gemmini-rocc-tests/include/gemmini.h:2886-2987 | The whole search ends in a tiling that fits both memories, stays within the layer and of which no single size can be increased by one, and it is the one that shrinking, widening and passes of growth, in this order, lead to. |
| `ConvSearch.SearchUnique` | gemmini/software/gemmini-rocc-tests/include/gemmini.h:2886-2987 | The search has no choice: the layer and the memories determine its answer. |
| `ConvTile.FlipHalf` | gemmini/software/gemmini-rocc-tests/include/gemmini.h:1127-1133 | Adding half the accumulator modulo its size swaps its two halves. |
| `ConvTile.TileUpdateAt` | gemmini/software/gemmini-rocc-tests/include/gemmini.h:1329 | Each element of a tile has a cell of its own within the tile's rows, so an update reaches exactly the tile's elements. |
| `ConvTile.TileUpdateElsewhere` | gemmini/software/gemmini-rocc-tests/include/gemmini.h:1124-1125 | Tiles in different halves of the accumulator do not meet. |
| `ConvTile.ConvUnit.constructor` | gemmini/software/gemmini-rocc-tests/include/gemmini.h:1119-1120 | Both static row offsets start at zero. |
| `ConvTile.ConvUnit.Accumulate` | gemmini/software/gemmini-rocc-tests/include/gemmini.h:1119-1129 | A call with a bias loads it into the D half and moves the D offset on; its products are added in the C half. |
| `ConvTile.ConvUnit.SpTiledConv` | gemmini/software/gemmini-rocc-tests/include/gemmini.h:1063-1133 | One inner call: its kernel and channel slice is added over its zero-padded, possibly dilated window, on top of the bias only if the D half is the C half; a given output receives the tile, pooled or not, and moves the C offset on. |
| `ConvTile.StoreTile` | gemmini/software/gemmini-rocc-tests/include/gemmini.h:1389-1430 | Exactly the tile's elements of the output are stored, in either layout or as the maxima of the pooling windows. |
| `TiledConv.PaddingExact` | gemmini/software/gemmini-rocc-tests/include/gemmini.h:2786-2802 | lpad/rpad and upad/dpad hide exactly the positions that carry no pixel; for a dilated image their parity adjustments keep the pixels in step with the halved coordinates. |
| `TiledConv.ReadPosition` | gemmini/software/gemmini-rocc-tests/include/gemmini.h:1176-1325 | The halved position a product reads is the one its pixel was moved in to, and it was moved in. |
| `TiledConv.SliceWeight` | gemmini/software/gemmini-rocc-tests/include/gemmini.h:2804-2816 | The weight slice pointer and the rotation inside the slice together address the weight the whole layer uses, for every layout and with wrot180. |
| `TiledConv.SlicePixel` | gemmini/software/gemmini-rocc-tests/include/gemmini.h:2744-2821 | The input pointer, halved for a dilated image, and the padding together address the pixel the whole layer uses, for both layouts. |
| `TiledConv.SliceSum` | gemmini/software/gemmini-rocc-tests/include/gemmini.h:2743-2846 | What one call adds to an element is a box of the layer's own triple sum. |
| `TiledConv.RegionComplete` | gemmini/software/gemmini-rocc-tests/include/gemmini.h:2743-2751 | The boxes of all calls partition the sum. |
| `TiledConv.StripFacts` | gemmini/software/gemmini-rocc-tests/include/gemmini.h:2735-2784 | The rows and columns of the convolution a pooled tile is computed from lie in the image, are not empty, and fit the tile sizes that were checked. |
| `TiledConv.StripWindow` | gemmini/software/gemmini-rocc-tests/include/gemmini.h:2735-2784 | Seen from that strip, a window element is inside it if and only if it is inside the image: what the accelerator pads with zeros is what conv_cpu counts as zero. |
| `TiledConv.DoneElement` | gemmini/software/gemmini-rocc-tests/include/gemmini.h:1412-1430 | An element as it leaves the finished tile is the maximum over its window of the layer's results. |
| `TiledConv.CallStep` | gemmini/software/gemmini-rocc-tests/include/gemmini.h:2757-2768 | Bias enters with the first call and only there; afterwards the C half holds bias plus the slices done so far. |
| `TiledConv.OutputTile` | gemmini/software/gemmini-rocc-tests/include/gemmini.h:2743-2849 | All calls of one output tile: its elements receive the layer's values, pooled if asked for, stored once; the two offsets, equal before, are equal after and in the other half. |
| `TiledConv.TiledConvOuter` | gemmini/software/gemmini-rocc-tests/include/gemmini.h:2735-2853 | For all positive tile sizes that fit, the seven loops fill the output exactly as conv_cpu does, with or without pooling, with input dilation 1 or 2, and leave the two offsets equal for the next layer. |
| `ConvAuto.CheckIs` | gemmini/software/gemmini-rocc-tests/include/gemmini.h:2631-2722 | The checks pass exactly the accepted layers and tile sizes, and each refusal names a cause that holds. |
| `ConvAuto.OneCall` | gemmini/software/gemmini-rocc-tests/include/gemmini.h:2884-2888 | The search's bounds are the least sizes with which each of the seven loops has one iteration. |
| `ConvAuto.TiledConvAStride` | gemmini/software/gemmini-rocc-tests/include/gemmini.h:2613-2854 | Runs on the array if and only if an uncut call finds room in half of either memory and the layer's own conditions hold, on the CPU unless the weights are transposed both ways; then array and CPU fill the same output, pooled layers and dilated inputs included; otherwise nothing changes. |
| `ConvAuto.CheckedJob` | gemmini/software/gemmini-rocc-tests/include/gemmini.h:2681-2722 | A tiling that passes the checks is one the loops can run with. |
| `ConvAuto.UnitPool` | gemmini/software/gemmini-rocc-tests/include/gemmini.h:2669-2674 | A 1 x 1 window leaves the convolution as it is, which is why no_pool can run with one. |
| `ConvAuto.NothingFits` | gemmini/software/gemmini-rocc-tests/include/gemmini.h:2681-2697 | If not even the all-ones tiling fits by the count of tiled_conv_A_stride, every tiling is refused. |
| `ConvAuto.SearchedTilingPasses` | gemmini/software/gemmini-rocc-tests/include/gemmini.h:2681-2722 | If the two downsample conditions agree, the searched tiling passes the capacity checks and only the layer's own checks remain. |
| `ConvAuto.FlagsAgree` | gemmini/software/gemmini-rocc-tests/include/gemmini.h:2676-2677 | They agree exactly for undilated, untransposed input, or when the search does not downsample at all. |
| `ConvAuto.DilatedStopsAnyway` | gemmini/software/gemmini-rocc-tests/include/gemmini.h:2706-2713 | Where they differ because the input is dilated, the program stops whatever the tiling. |
| `ConvAuto.TransposedWholeLayer` | gemmini/software/gemmini-rocc-tests/include/gemmini.h:2882-2987 | Where they differ because the input is transposed, a layer that fits whole by the search's count passes the scratchpad check if and only if it fits whole by the other count. |
| `ConvAuto.DisagreementStopsTheProgram` | gemmini/software/gemmini-rocc-tests/include/gemmini.h:2676-2697 | A concrete family: a transposed 2 x 2 input with a quarter of the scratchpad's rows as channels is searched successfully and then refused for lack of scratchpad space. |
| `ConvAuto.TiledConvAStrideAuto` | gemmini/software/gemmini-rocc-tests/include/gemmini.h:2856-3042 | Automatic tiling on the array and on the CPU fill the same output; it runs if and only if the searched tiling is accepted; with agreeing flags only the layer's own checks can stop it; the family of inputs on which they disagree is stopped. |
| `ConvAuto.DilatedOverlap` | gemmini/software/gemmini-rocc-tests/include/gemmini.h:1092-1117 | An input: a bordered pixel of dilated input passes the scratchpad check, although input and weights of its first call cannot be kept apart in the half. |
| `ConvAuto.UnrollerRoom` | gemmini/src/main/scala/gemmini/LoopConv.scala:1324-1331 | Where the unroller places the weights, DIM rows below the end of the half, an uncut call has room if and only if the count leaves these rows free. |
| `ConvAuto.UnrollerOverlap` | gemmini/src/main/scala/gemmini/LoopConv.scala:1324-1331 | An input: a pixel with many channels is accepted and has no room there. |
| `Resadd.SaturatedSum` | gemmini/software/gemmini-rocc-tests/include/gemmini.h:4686-4697 | Clipping between 0 (or the least element) and the greatest is what the accelerator's saturation followed by relu does. |
| `Resadd.ResaddCpu` | gemmini/software/gemmini-rocc-tests/include/gemmini.h:4677-4702 | C becomes the saturated sum of A and B as they were, C aliasing either of them included; nothing else changes. |
| `Resadd.SearchTile` | gemmini/software/gemmini-rocc-tests/include/gemmini.h:4817-4830 | The shrinking loop takes one off the larger side at a time and ends in the first tile that fits the accumulator, not empty unless the matrix is. |
| `Resadd.MvinA` | gemmini/software/gemmini-rocc-tests/include/gemmini.h:4721-4733 | Every element of A overwrites its accumulator cell, whatever was there. |
| `Resadd.MvinB` | gemmini/software/gemmini-rocc-tests/include/gemmini.h:4735-4746 | Every element of B is added exactly once. |
| `Resadd.MvoutC` | gemmini/software/gemmini-rocc-tests/include/gemmini.h:4748-4759 | The tile of C receives the quantised cells. |
| `Resadd.SpTiledResadd` | gemmini/software/gemmini-rocc-tests/include/gemmini.h:4704-4760 | One tile: all operands are read before C is written. |
| `Resadd.TileValue` | gemmini/software/gemmini-rocc-tests/include/gemmini.h:4780-4793 | A tile computes from the initial operands even where B is C and other tiles are already stored. |
| `Resadd.TiledResadd` | gemmini/software/gemmini-rocc-tests/include/gemmini.h:4763-4797 | The tiles partition the matrix, for all tile sizes that fit. |
| `Resadd.AddedUnique` | gemmini/software/gemmini-rocc-tests/include/gemmini.h:4677-4702 | The required DRAM is unique, so accelerator and CPU leave the same one. |
| `Resadd.TiledResaddAuto` | gemmini/software/gemmini-rocc-tests/include/gemmini.h:4800-4847 | For every I and J the accelerator run leaves what resadd_cpu leaves; the output-stationary type stops the program. |
| `GlobalAverage.MvinPixel` | gemmini/software/gemmini-rocc-tests/include/gemmini.h:4877-4894 | The first pixel overwrites, each later one accumulates; channels outside the chunk are unchanged. |
| `GlobalAverage.SumTile` | gemmini/software/gemmini-rocc-tests/include/gemmini.h:4876-4896 | Just before the first move-out every channel's accumulator cell is the exact sum over all pixels of the image. |
| `GlobalAverage.MvoutRun` | gemmini/software/gemmini-rocc-tests/include/gemmini.h:4898-4909 | One move-out stores the next run of channels and nothing else. |
| `GlobalAverage.SpTiledGlobalAverage` | gemmini/software/gemmini-rocc-tests/include/gemmini.h:4869-4910 | One call stores the averages of exactly its channels. |
| `GlobalAverage.TiledGlobalAverage` | gemmini/software/gemmini-rocc-tests/include/gemmini.h:4912-4930 | Channel tiles and batches cover every channel of every batch exactly once. |
| `GlobalAverage.SearchTile` | gemmini/software/gemmini-rocc-tests/include/gemmini.h:4939-4945 | The tile loop ends in all channels or ACC_ROWS * DIM of them, whichever is less. |
| `GlobalAverageAuto.SumChannel` | gemmini/software/gemmini-rocc-tests/include/gemmini.h:4855-4862 | The row and column loops add up exactly the pixels of one channel. |
| `GlobalAverageAuto.GlobalAverageCpu` | gemmini/software/gemmini-rocc-tests/include/gemmini.h:4849-4867 | Every channel of every batch receives its CPU average; nothing else changes. |
| `GlobalAverageAuto.RoundedIsNearest` | gemmini/software/gemmini-rocc-tests/include/gemmini.h:4864 | The CPU average is an integer nearest to the true average if and only if the sum is not negative, or at most half the pixel count below zero, or exactly half a pixel count off a multiple. |
| `GlobalAverageAuto.MinusOnes` | gemmini/software/gemmini-rocc-tests/include/gemmini.h:4864 | It can miss: four pixels of -1 average to 0. |
| `GlobalAverageAuto.RoundedInRange` | gemmini/software/gemmini-rocc-tests/include/gemmini.h:4864 | Averages of elements are elements, so the narrowing store wraps nothing. |
| `GlobalAverageAuto.SameAverage` | gemmini/software/gemmini-rocc-tests/include/gemmini.h:4849-4930 | Where the sum is not negative and no exact half, the accelerator stores what the CPU stores, for every scale that rounds to nearest. |
| `GlobalAverageAuto.TiledGlobalAverageAuto` | gemmini/software/gemmini-rocc-tests/include/gemmini.h:4932-4949 | Every channel of every batch is stored once, as the scaled exact sum of its pixels or, on the CPU, as their sum plus half, divided; nothing else changes. |
| `TestBench.OperandRange` | gemmini/software/gemmini-rocc-tests/bareMetalC/matmul_ws.c:26-30 | operands() always names existing matrices. |
| `TestBench.OperandDigits` | gemmini/software/gemmini-rocc-tests/bareMetalC/matmul_ws.c:26-30 | operands() reads the computation's number in base N: its digits are the A, the B and the D. |
| `TestBench.EveryTriple` | gemmini/software/gemmini-rocc-tests/bareMetalC/matmul_ws.c:26-30 | Every triple of an A, a B and a D is the operands of exactly one computation. |
| `TestBench.ElementAt` | gemmini/software/gemmini-rocc-tests/bareMetalC/matmul_ws.c:56-61 | The arrays of matrices are row-major without gaps. |
| `TestBench.Matmul` | gemmini/software/gemmini-rocc-tests/include/gemmini_testutils.h:30-56 | matmul and matmul_full: addend plus product. |
| `TestBench.Finish` | gemmini/software/gemmini-rocc-tests/include/gemmini_testutils.h:146-192 | matscale or matshift followed by matrelu or matrelu6 is saturation followed by the activation. |
| `TestBench.GoldActivateIs` | gemmini/software/gemmini-rocc-tests/include/gemmini_testutils.h:178-192 | The tests' activation is the accelerator's. |
| `TestBench.MvinOperands` | gemmini/software/gemmini-rocc-tests/bareMetalC/matmul_ws.c:163-175 | After the move-ins every scratchpad block holds its A, B or D matrix. |
| `TestBench.IsEqual` | gemmini/software/gemmini-rocc-tests/include/gemmini_testutils.h:239-253 | is_equal decides equality of two matrices. |
| `TestBench.AnyWrong` | gemmini/software/gemmini-rocc-tests/bareMetalC/matmul_ws.c:217-226 | The checking loop reports a failure if and only if some result that was to be stored differs from its gold. |
| `TestBench.Last` | gemmini/software/gemmini-rocc-tests/bareMetalC/matmul_ws.c:119-126 | The backward search finds the last preload at or before a computation. |
| `TestWs.EveryCombination` | gemmini/software/gemmini-rocc-tests/bareMetalC/matmul_ws.c:60-61 | A round tries every combination of an A, a B and a D. |
| `TestWs.OutputsAre` | gemmini/software/gemmini-rocc-tests/bareMetalC/matmul_ws.c:82-85 | What is stored are the results of the last computation of each chain. |
| `TestWs.Addresses` | gemmini/software/gemmini-rocc-tests/bareMetalC/matmul_ws.c:150-161 | Every computation of an accumulate chain is sent to the accumulator block of the chain's head, with the accumulate bit on all but the head. |
| `TestWs.WeightsStep` | gemmini/software/gemmini-rocc-tests/bareMetalC/matmul_ws.c:189-195 | The stationary weights are always those of the last preload. |
| `TestWs.AccStep` | gemmini/software/gemmini-rocc-tests/bareMetalC/matmul_ws.c:181-196 | Each write keeps every finished chain and the one in progress summed in the block of its head. |
| `TestWs.Step` | gemmini/software/gemmini-rocc-tests/bareMetalC/matmul_ws.c:181-196 | The commands of one computation carry out that computation. |
| `TestWs.MvoutIsGold` | gemmini/software/gemmini-rocc-tests/bareMetalC/matmul_ws.c:199-202 | What a chain's head stores is the gold of the chain's last computation. |
| `TestWs.ComputeGold` | gemmini/software/gemmini-rocc-tests/bareMetalC/matmul_ws.c:115-135 | The gold loops compute the chained sums. |
| `TestWs.FinishGold` | gemmini/software/gemmini-rocc-tests/bareMetalC/matmul_ws.c:137-143 | The gold results are those sums narrowed and activated. |
| `TestWs.RunTest` | gemmini/software/gemmini-rocc-tests/bareMetalC/matmul_ws.c:145-202 | For every N that fits and every choice of the flag arrays that starts with a preload and no accumulation, each stored result is its gold and nothing outside the results changes. |
| `TestWs.Round` | gemmini/software/gemmini-rocc-tests/bareMetalC/matmul_ws.c:115-226 | Hence the program's own comparison never fails. |
| `TestOs.EveryCombination` | gemmini/software/gemmini-rocc-tests/bareMetalC/matmul_os.c:58-59 | A round tries every combination of an A, a B and a D. |
| `TestOs.OutputsAre` | gemmini/software/gemmini-rocc-tests/bareMetalC/matmul_os.c:74-77 | What is stored are the results of the last computation of each chain. |
| `TestOs.ArrayResult` | gemmini/software/gemmini-rocc-tests/bareMetalC/matmul_os.c:153-162 | After each computation the array holds the chained sum: from D, from zeros or from the previous result. |
| `TestOs.ResultWritten` | gemmini/software/gemmini-rocc-tests/bareMetalC/matmul_os.c:149-163 | Writing a result touches neither the operands nor earlier results. |
| `TestOs.Step` | gemmini/software/gemmini-rocc-tests/bareMetalC/matmul_os.c:143-163 | The commands of one computation carry out that computation. |
| `TestOs.ComputeGold` | gemmini/software/gemmini-rocc-tests/bareMetalC/matmul_os.c:103-113 | The gold loops compute the chained sums. |
| `TestOs.FinishGold` | gemmini/software/gemmini-rocc-tests/bareMetalC/matmul_os.c:115-121 | The gold results are those sums shifted with rounding, narrowed and activated. |
| `TestOs.RunTest` | gemmini/software/gemmini-rocc-tests/bareMetalC/matmul_os.c:123-170 | For every N that fits and every choice of the flag arrays that starts with a preload, each stored result is its gold and nothing outside the results changes. |
| `TestOs.Round` | gemmini/software/gemmini-rocc-tests/bareMetalC/matmul_os.c:103-205 | Hence the program's own comparison never fails. |

## Left out

- The units that unroll the hardware loops, LoopMatmul.scala and LoopConv.scala: which half of each memory a loop is
  given, and how the commands of two loops are interleaved. What a loop does is taken from the loops kept as comments
  beside it (gemmini.h:439-563 and 1137-1432), the matrix multiply command by command, the convolution by its row
  addressing, its sums and its output order.
- MatmulAuto.TiledMatmul: `low_D` with a bias on the output-stationary array, which the source announces as not
  implemented before it goes on; `weightA`, which only weighs the arbitration between loads.
- ConvTile.ConvUnit.SpTiledConv: the scratchpad traffic inside the call is not modelled; the call computes as if its
  input and weights lay apart, which ConvRoom.CallsFit proves for undilated input and which ConvAuto.DilatedOverlap
  shows can fail for dilated input. The downsampling mode, which only changes addressing, has the same contract.
- TiledConv.TiledConvOuter: pooling windows no larger than their padding, where a tile may have no element of the
  convolution under it, and layers without kernel or input channels.
- ConvAuto.SearchedTilingPasses: where the two conditions differ for a transposed layer that must be cut, passing
  depends on the tiling found, which ConvSearch.SearchUnique shows to be determined by the layer; there is no shorter
  condition.
- ConvPool.FusedIsPool: for NHWC output only, which is what pool() reads; ConvPool.ConvCpu covers the other layout.
- GlobalAverageAuto.SameAverage: for negative sums and exact halves the CPU and the accelerator may differ, depending
  on the scale.
- Floating-point scale factors as such: bit patterns, and the rounding of the product with a scale.
- 32-bit and size_t wrap-around outside `Overflow` and `AccumulatorRange`; int8 wrap-around of inputs.
- Byte overlap: DRAM keeps each element whole under the address of its first byte.
- Strides other than 1 on A and C inside the array.
- The consistency exits on out_dim in the reference convolutions, and their fixed array sizes.
- `im2col_with_col2im` and `pool_with_col2im`, the im2col-in-hardware convolutions and their tilers.
- Cycle counters, fences, flushes, `mlockall`, printing, random initialisation, command lines and the network drivers.
- `my_test_headers/` and `riscv-tests/debug/`.

/** The hardware parameters of gemmini_params.h, kept symbolic: every result of this
    project holds for each configuration that satisfies Valid. */
module Config {
  datatype Params = Params(
    dim: int,              // side of the systolic array, and elements per memory row
    bankNum: int,          // scratchpad banks
    bankRows: int,         // rows per bank
    accRows: int,          // accumulator rows
    maxBlockLen: int,      // blocks one mvin can bring into the scratchpad
    maxBlockLenAcc: int)   // blocks one full-width mvin can bring into the accumulator
  {
    ghost predicate Valid() {
      && dim > 1
      && bankNum > 0
      && bankRows > 0
      && 2 * dim <= bankNum * bankRows < ADDR_ROWS
      && dim <= accRows < ADDR_ROWS
      && accRows % 2 == 0
      && maxBlockLen > 0
      && maxBlockLenAcc > 0
    }
  }

  type ValidParams = p: Params | p.Valid() witness Params(2, 1, 4, 2, 1, 1)

  const CFG: ValidParams

  const DIM: int := CFG.dim
  const SPAD_ROWS: int := CFG.bankNum * CFG.bankRows
  const ACC_ROWS: int := CFG.accRows
  const MAX_BLOCK_LEN: int := CFG.maxBlockLen
  const MAX_BLOCK_LEN_ACC: int := CFG.maxBlockLenAcc

  // The row field of a local address is 29 bits wide; above it sit the flag bits.
  const ADDR_ROWS: int := 0x2000_0000

  const SIZEOF_ELEM: int := 1
  const SIZEOF_ACC: int := 4

  function SizeofC(fullC: bool): int { if fullC then SIZEOF_ACC else SIZEOF_ELEM }
  function SizeofD(lowD: bool): int { if lowD then SIZEOF_ELEM else SIZEOF_ACC }

  /** tiled_matmul_type_t: the dataflow of the array, or the CPU. */
  datatype Kind = OS | WS | CPU

  const ELEM_MAX: int := 127
  const ELEM_MIN: int := -128
}

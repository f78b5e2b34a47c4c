/**
 * The canonical instruction record threaded from decode to execute, and the
 * opcode enumeration it carries. The Rust `instruction` module that declares
 * them is not part of this model; the variants are the ones the 32-bit
 * decoder names, including the four it names only in comments (SRAI, SUB,
 * SRA, EBREAK).
 */
module Instructions {
  import opened Wrappers
  import opened Bits

  datatype OpecodeKind =
    | LUI | AUIPC | JAL | JALR
    | BEQ | BNE | BLT | BGE | BLTU | BGEU
    | LB | LH | LW | LBU | LHU
    | SB | SH | SW
    | ADDI | SLTI | SLTIU | XORI | ORI | ANDI | SLLI | SRLI | SRAI
    | ADD | SUB | SLL | SLT | SLTU | XOR | SRL | SRA | OR | AND
    | FENCE | ECALL | EBREAK

  /**
   * One decoded instruction. Register indices are `usize` in the source and
   * the immediate is an `i32`; absent operands are `None`.
   */
  datatype Instruction = Instruction(
    opc: OpecodeKind,
    rd: Option<nat>,
    rs1: Option<nat>,
    rs2: Option<nat>,
    imm: Option<I32>,
    isCompressed: bool)

  /**
   * What `decode` reports instead of panicking: the message of the failed
   * opcode classification and the offending word.
   */
  datatype DecodeFailure = DecodeFailure(msg: string, word: U32)
}

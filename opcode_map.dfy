/**
 * An independent reference for the 32-bit decoder: the RV32I opcode map
 * ("RV32/64G Instruction Set Listings" of the RISC-V Unprivileged ISA), the
 * operands each format defines, and encoders that lay fields out as the ISA's
 * instruction formats do ("Base Instruction Formats" and "Immediate Encoding
 * Variants"). Nothing here is used by the decoder; it exists to state what
 * the decoder is compared with.
 */
module OpcodeMap {
  import opened Wrappers
  import opened Bits
  import opened Instructions

  datatype Format = R | I | S | B | U | J

  function FormatOf(k: OpecodeKind): Format {
    match k
    case LUI | AUIPC => U
    case JAL => J
    case BEQ | BNE | BLT | BGE | BLTU | BGEU => B
    case SB | SH | SW => S
    case ADD | SUB | SLL | SLT | SLTU | XOR | SRL | SRA | OR | AND => R
    case _ => I
  }

  /** Major opcode, bits 6:0. */
  function MajorOpcode(k: OpecodeKind): nat {
    match k
    case LUI => 0x37
    case AUIPC => 0x17
    case JAL => 0x6F
    case JALR => 0x67
    case BEQ | BNE | BLT | BGE | BLTU | BGEU => 0x63
    case LB | LH | LW | LBU | LHU => 0x03
    case SB | SH | SW => 0x23
    case ADDI | SLTI | SLTIU | XORI | ORI | ANDI | SLLI | SRLI | SRAI => 0x13
    case ADD | SUB | SLL | SLT | SLTU | XOR | SRL | SRA | OR | AND => 0x33
    case FENCE => 0x0F
    case ECALL | EBREAK => 0x73
  }

  /** funct3, bits 14:12, for the kinds whose format has that field. */
  function Funct3Of(k: OpecodeKind): Option<nat> {
    match k
    case LUI | AUIPC | JAL => None
    case JALR | BEQ | LB | SB | ADDI | ADD | SUB | FENCE | ECALL | EBREAK => Some(0)
    case BNE | LH | SH | SLLI | SLL => Some(1)
    case LW | SW | SLTI | SLT => Some(2)
    case SLTIU | SLTU => Some(3)
    case BLT | LBU | XORI | XOR => Some(4)
    case BGE | LHU | SRLI | SRAI | SRL | SRA => Some(5)
    case BLTU | ORI | OR => Some(6)
    case BGEU | ANDI | AND => Some(7)
  }

  /** Bits 31:25, for the kinds that use them to tell kinds apart. */
  function Funct7Of(k: OpecodeKind): Option<nat> {
    match k
    case SUB | SRA | SRAI => Some(0x20)
    case ADD | SLL | SLT | SLTU | XOR | SRL | OR | AND | SLLI | SRLI => Some(0)
    case _ => None
  }

  /** Bits 31:7 of the two SYSTEM instructions. */
  function SystemFieldOf(k: OpecodeKind): Option<nat> {
    match k
    case ECALL => Some(0)
    case EBREAK => Some(0x2000)  // imm = 1 at bits 31:20
    case _ => None
  }

  /** `w` is an encoding of `k` in the RV32I opcode map. */
  predicate IsaMatches(w: U32, k: OpecodeKind) {
    && w % 0x80 == MajorOpcode(k)
    && (Funct3Of(k).Some? ==> (w / 0x1000) % 8 == Funct3Of(k).value)
    && (Funct7Of(k).Some? ==> w / 0x200_0000 == Funct7Of(k).value)
    && (SystemFieldOf(k).Some? ==> w / 0x80 == SystemFieldOf(k).value)
  }

  /**
   * The kinds that share their opcode and funct3 with another kind and are
   * told apart only by funct7 bit 30 or the SYSTEM immediate, mapped to the
   * kind they share them with.
   */
  function BaseKind(k: OpecodeKind): OpecodeKind {
    match k
    case SUB => ADD
    case SRA => SRL
    case SRAI => SRLI
    case EBREAK => ECALL
    case _ => k
  }

  /** Operand presence as the formats (and the decoder's own comments) define it. */
  predicate HasRd(k: OpecodeKind) {
    FormatOf(k) !in {S, B} && k !in {ECALL, EBREAK}
  }

  predicate HasRs1(k: OpecodeKind) {
    FormatOf(k) !in {U, J} && k !in {FENCE, ECALL, EBREAK}
  }

  predicate HasRs2(k: OpecodeKind) {
    FormatOf(k) in {R, S, B}
  }

  predicate HasImm(k: OpecodeKind) {
    FormatOf(k) != R && k !in {FENCE, ECALL, EBREAK}
  }

  // Encoders. Register indices are below 32; every immediate is given as
  // the unsigned pieces the format scatters over the word.

  function EncodeR(k: OpecodeKind, rd: nat, rs1: nat, rs2: nat): (w: U32)
    requires FormatOf(k) == R && rd < 32 && rs1 < 32 && rs2 < 32
  {
    MajorOpcode(k) + rd * 0x80 + Funct3Of(k).value * 0x1000 + rs1 * 0x8000
      + rs2 * 0x10_0000 + Funct7Of(k).value * 0x200_0000
  }

  /** `imm` is the 12-bit immediate, bits 31:20. */
  function EncodeI(k: OpecodeKind, rd: nat, rs1: nat, imm: nat): (w: U32)
    requires FormatOf(k) == I && rd < 32 && rs1 < 32 && imm < 0x1000
  {
    MajorOpcode(k) + rd * 0x80 + Funct3Of(k).value * 0x1000 + rs1 * 0x8000 + imm * 0x10_0000
  }

  /** `imm` is the 12-bit immediate: its bits 4:0 go to 11:7, bits 11:5 to 31:25. */
  function EncodeS(k: OpecodeKind, rs1: nat, rs2: nat, imm: nat): (w: U32)
    requires FormatOf(k) == S && rs1 < 32 && rs2 < 32 && imm < 0x1000
  {
    MajorOpcode(k) + (imm % 0x20) * 0x80 + Funct3Of(k).value * 0x1000 + rs1 * 0x8000
      + rs2 * 0x10_0000 + (imm / 0x20) * 0x200_0000
  }

  /** The branch offset held by the pieces `imm12 imm11 imm10_5 imm4_1 0`. */
  function BranchOffset(imm12: nat, imm11: nat, imm10_5: nat, imm4_1: nat): nat {
    imm12 * 0x1000 + imm11 * 0x800 + imm10_5 * 0x20 + imm4_1 * 2
  }

  /** imm[12] to bit 31, imm[10:5] to 30:25, imm[4:1] to 11:8, imm[11] to bit 7. */
  function EncodeB(k: OpecodeKind, rs1: nat, rs2: nat, imm12: nat, imm11: nat, imm10_5: nat, imm4_1: nat): (w: U32)
    requires FormatOf(k) == B && rs1 < 32 && rs2 < 32
    requires imm12 < 2 && imm11 < 2 && imm10_5 < 0x40 && imm4_1 < 0x10
  {
    MajorOpcode(k) + (imm11 + imm4_1 * 2) * 0x80 + Funct3Of(k).value * 0x1000 + rs1 * 0x8000
      + rs2 * 0x10_0000 + (imm10_5 + imm12 * 0x40) * 0x200_0000
  }

  /** `imm` is the 20-bit field held in bits 31:12. */
  function EncodeU(k: OpecodeKind, rd: nat, imm: nat): (w: U32)
    requires FormatOf(k) in {U, J} && rd < 32 && imm < 0x10_0000
  {
    MajorOpcode(k) + rd * 0x80 + imm * 0x1000
  }

  /** The jump offset held by the pieces `imm20 imm19_12 imm11 imm10_1 0`. */
  function JumpOffset(imm20: nat, imm10_1: nat, imm11: nat, imm19_12: nat): nat {
    imm20 * 0x10_0000 + imm19_12 * 0x1000 + imm11 * 0x800 + imm10_1 * 2
  }

  /** imm[20] to bit 31, imm[10:1] to 30:21, imm[11] to bit 20, imm[19:12] to 19:12. */
  function EncodeJ(rd: nat, imm20: nat, imm10_1: nat, imm11: nat, imm19_12: nat): (w: U32)
    requires rd < 32 && imm20 < 2 && imm10_1 < 0x400 && imm11 < 2 && imm19_12 < 0x100
  {
    EncodeU(JAL, rd, imm19_12 + imm11 * 0x100 + imm10_1 * 0x200 + imm20 * 0x8_0000)
  }
}

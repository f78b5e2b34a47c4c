/**
 * The standard-width (32-bit) decoder: `impl Decode for u32`.
 *
 * Every query looks at masked and shifted bit fields of the word. The model
 * follows the code as written, including where it departs from the RISC-V
 * Unprivileged ISA: immediates are never sign-extended, the J and B layouts
 * are not the ISA's, the U immediate is not moved to the upper bits,
 * classification never consults funct7 or the SYSTEM immediate, nor funct3
 * for JALR, FENCE and SYSTEM, and the register-presence tests compare
 * against 0x57 where LUI is 0x37.
 */
module MmapParse32 {
  import opened Wrappers
  import opened Bits
  import opened Instructions

  /** `inst & 0x7F`: bits 6:0. */
  function Opmap(w: U32): nat {
    w % 0x80
  }

  /** `(inst >> 12) & 0x7`: bits 14:12. */
  function Funct3(w: U32): nat {
    (w / 0x1000) % 8
  }

  const DecodingFailed := "opecode decoding failed"

  /**
   * Classifies a word by opmap and, for the opmaps that hold several
   * instructions, by funct3.
   */
  function ParseOpecode(w: U32): (r: Result<OpecodeKind, string>)
    ensures r.Err? ==> r.error == DecodingFailed
    ensures r.Err? <==>
      || Opmap(w) !in {0x37, 0x17, 0x6F, 0x67, 0x63, 0x03, 0x23, 0x13, 0x33, 0x0F, 0x73}
      || (Opmap(w) == 0x63 && Funct3(w) in {2, 3})
      || (Opmap(w) == 0x03 && Funct3(w) in {3, 6, 7})
      || (Opmap(w) == 0x23 && Funct3(w) >= 3)
  {
    var funct3 := Funct3(w);
    match Opmap(w)
    case 0x37 => Ok(LUI)    // 0b0110111
    case 0x17 => Ok(AUIPC)  // 0b0010111
    case 0x6F => Ok(JAL)    // 0b1101111
    case 0x67 => Ok(JALR)   // 0b1100111
    case 0x63 =>            // 0b1100011
      (match funct3
       case 0 => Ok(BEQ)
       case 1 => Ok(BNE)
       case 4 => Ok(BLT)
       case 5 => Ok(BGE)
       case 6 => Ok(BLTU)
       case 7 => Ok(BGEU)
       case _ => Err(DecodingFailed))
    case 0x03 =>            // 0b0000011
      (match funct3
       case 0 => Ok(LB)
       case 1 => Ok(LH)
       case 2 => Ok(LW)
       case 4 => Ok(LBU)
       case 5 => Ok(LHU)
       case _ => Err(DecodingFailed))
    case 0x23 =>            // 0b0100011
      (match funct3
       case 0 => Ok(SB)
       case 1 => Ok(SH)
       case 2 => Ok(SW)
       case _ => Err(DecodingFailed))
    case 0x13 =>            // 0b0010011
      (match funct3
       case 0 => Ok(ADDI)
       case 1 => Ok(SLLI)
       case 2 => Ok(SLTI)
       case 3 => Ok(SLTIU)
       case 4 => Ok(XORI)
       case 5 => Ok(SRLI)   // SRAI shares this pattern and is never chosen
       case 6 => Ok(ORI)
       case 7 => Ok(ANDI)
       case _ => Err(DecodingFailed))
    case 0x33 =>            // 0b0110011
      (match funct3
       case 0 => Ok(ADD)    // SUB shares this pattern and is never chosen
       case 1 => Ok(SLL)
       case 2 => Ok(SLT)
       case 3 => Ok(SLTU)
       case 4 => Ok(XOR)
       case 5 => Ok(SRL)    // SRA shares this pattern and is never chosen
       case 6 => Ok(OR)
       case 7 => Ok(AND)
       case _ => Err(DecodingFailed))
    case 0x0F => Ok(FENCE)  // 0b0001111
    case 0x73 => Ok(ECALL)  // 0b1110011; EBREAK shares it and is never chosen
    case _ => Err(DecodingFailed)
  }

  /**
   * Destination register, bits 11:7. Presence is decided by the opmap alone;
   * the opcode argument is ignored.
   */
  function ParseRd(w: U32, opkind: OpecodeKind): (r: Option<nat>)
    ensures r.None? <==> Opmap(w) in {0x63, 0x23, 0x73}
    ensures r.Some? ==> r.value == (w / 0x80) % 0x20 && r.value < 32
  {
    var opmap := Opmap(w);
    var rd := (w / 0x80) % 0x20;  // (inst >> 7) & 0x1F
    // branches, stores, ECALL/EBREAK
    if opmap == 0x63 || opmap == 0x23 || opmap == 0x73 then None else Some(rd)
  }

  /**
   * First source register, bits 19:15. The first opmap compared against is 0x57, not
   * LUI's 0x37, and FENCE is not compared against at all, so both LUI and FENCE get one.
   */
  function ParseRs1(w: U32, opkind: OpecodeKind): (r: Option<nat>)
    ensures r.None? <==> Opmap(w) in {0x57, 0x17, 0x6F, 0x73}
    ensures r.Some? ==> r.value == (w / 0x8000) % 0x20 && r.value < 32
  {
    var opmap := Opmap(w);
    var rs1 := (w / 0x8000) % 0x20;  // (inst >> 15) & 0x1F
    if opmap == 0x57 || opmap == 0x17 || opmap == 0x6F || opmap == 0x73 then None else Some(rs1)
  }

  /**
   * Second source register, bits 24:20. The same 0x57 test makes LUI get one.
   */
  function ParseRs2(w: U32, opkind: OpecodeKind): (r: Option<nat>)
    ensures r.None? <==> Opmap(w) in {0x57, 0x17, 0x6F, 0x67, 0x03, 0x13, 0x0F, 0x73}
    ensures r.Some? ==> r.value == (w / 0x10_0000) % 0x20 && r.value < 32
  {
    var opmap := Opmap(w);
    var rs2 := (w / 0x10_0000) % 0x20;  // (inst >> 20) & 0x1F
    if || opmap == 0x57 || opmap == 0x17 || opmap == 0x6F
       || opmap == 0x67 || opmap == 0x03 || opmap == 0x13
       || opmap == 0x0F || opmap == 0x73
    then None
    else Some(rs2)
  }

  /**
   * The immediate, rebuilt from unsigned fields of the word. Nothing is
   * sign-extended, so the result is never negative.
   */
  function ParseImm(w: U32, opkind: OpecodeKind): (r: Option<I32>)
    ensures r.None? <==> Opmap(w) !in {0x37, 0x17, 0x6F, 0x67, 0x03, 0x13, 0x23, 0x63}
    ensures r.Some? ==> 0 <= r.value < 0x10_0000
  {
    var opmap := Opmap(w);
    if opmap == 0x37 || opmap == 0x17 then
      // LUI, AUIPC: (inst >> 12) & 0xFFFFF
      Some((w / 0x1000) % 0x10_0000)
    else if opmap == 0x6F then
      // JAL: (inst >> 12) & 0xFFFFF
      Some((w / 0x1000) % 0x10_0000)
    else if opmap == 0x67 || opmap == 0x03 || opmap == 0x13 then
      // JALR, loads, immediate ALU: (inst >> 20) & 0xFFF
      Some((w / 0x10_0000) % 0x1000)
    else if opmap == 0x23 then
      // stores: (((inst >> 25) & 0x1F) << 5) + ((inst >> 7) & 0x1F)
      Some(((w / 0x200_0000) % 0x20) * 0x20 + (w / 0x80) % 0x20)
    else if opmap == 0x63 then
      // branches: (((inst >> 27) & 0x1) << 11) + (((inst >> 7) & 0x1) << 10)
      //           + (((inst >> 25) & 0x1F) << 4) + ((inst >> 8) & 0xF)
      Some(((w / 0x800_0000) % 2) * 0x800 + ((w / 0x80) % 2) * 0x400
           + ((w / 0x200_0000) % 0x20) * 0x10 + (w / 0x100) % 0x10)
    else
      None
  }

  /**
   * `decode`: classify, then read the four operand fields. The source panics
   * when classification fails; here that is an `Err` carrying the message
   * and the word.
   */
  function Decode(w: U32): (r: Result<Instruction, DecodeFailure>)
    ensures r.Err? <==> ParseOpecode(w).Err?
    ensures r.Err? ==> r.error == DecodeFailure(DecodingFailed, w)
    ensures r.Ok? ==>
      && r.value.opc == ParseOpecode(w).value
      && r.value.rd == ParseRd(w, r.value.opc)
      && r.value.rs1 == ParseRs1(w, r.value.opc)
      && r.value.rs2 == ParseRs2(w, r.value.opc)
      && r.value.imm == ParseImm(w, r.value.opc)
      && !r.value.isCompressed
  {
    match ParseOpecode(w)
    case Err(msg) => Err(DecodeFailure(msg, w))
    case Ok(opc) =>
      Ok(Instruction(
        opc := opc,
        rd := ParseRd(w, opc),
        rs1 := ParseRs1(w, opc),
        rs2 := ParseRs2(w, opc),
        imm := ParseImm(w, opc),
        isCompressed := false))
  }

  /** Classification reads bits 6:0 and 14:12 of the word and nothing else. */
  lemma ParseOpecodeReadsOpmapAndFunct3(w1: U32, w2: U32)
    requires Opmap(w1) == Opmap(w2) && Funct3(w1) == Funct3(w2)
    ensures ParseOpecode(w1) == ParseOpecode(w2)
  {
  }

  /**
   * SUB, SRA, SRAI and EBREAK are never produced: `parse_opecode` never
   * reads funct7 or the SYSTEM immediate, which tell them from ADD, SRL,
   * SRLI and ECALL. (For the OP-IMM shifts, bits 31:25 still come back
   * inside the immediate.)
   */
  lemma AliasedKindsNeverParsed(w: U32)
    ensures ParseOpecode(w) != Ok(SUB) && ParseOpecode(w) != Ok(SRA)
    ensures ParseOpecode(w) != Ok(SRAI) && ParseOpecode(w) != Ok(EBREAK)
  {
  }

  /** The operand queries never look at the opcode they are handed. */
  lemma OperandsIgnoreOpkind(w: U32, k1: OpecodeKind, k2: OpecodeKind)
    ensures ParseRd(w, k1) == ParseRd(w, k2)
    ensures ParseRs1(w, k1) == ParseRs1(w, k2)
    ensures ParseRs2(w, k1) == ParseRs2(w, k2)
    ensures ParseImm(w, k1) == ParseImm(w, k2)
  {
  }

  /** The range of the immediate, format by format. */
  lemma ImmBoundsByFormat(w: U32, k: OpecodeKind)
    ensures Opmap(w) in {0x37, 0x17, 0x6F} ==> ParseImm(w, k).Some? && ParseImm(w, k).value < 0x10_0000
    ensures Opmap(w) in {0x67, 0x03, 0x13} ==> ParseImm(w, k).Some? && ParseImm(w, k).value < 0x1000
    ensures Opmap(w) == 0x23 ==> ParseImm(w, k).Some? && ParseImm(w, k).value <= 1023
    ensures Opmap(w) == 0x63 ==> ParseImm(w, k).Some? && ParseImm(w, k).value <= 3583
    ensures Opmap(w) in {0x33, 0x0F, 0x73} ==> ParseImm(w, k).None?
  {
  }

  /**
   * Store and branch immediates are built from bits 29:7 only, so bits 31:30
   * (the sign bit among them) never reach them.
   */
  lemma StoreBranchImmIgnoreTopBits(w1: U32, w2: U32, k: OpecodeKind)
    requires w1 % 0x4000_0000 == w2 % 0x4000_0000
    requires Opmap(w1) in {0x23, 0x63}
    ensures Opmap(w2) == Opmap(w1)
    ensures ParseImm(w1, k) == ParseImm(w2, k)
  {
    var M := 0x4000_0000;
    FieldBelowAgrees(w1, w2, 1, 0x80, 0x80_0000, M);
    assert Opmap(w1) == Opmap(w2);
    FieldBelowAgrees(w1, w2, 0x80, 0x20, 0x4_0000, M);
    FieldBelowAgrees(w1, w2, 0x80, 2, 0x40_0000, M);
    FieldBelowAgrees(w1, w2, 0x100, 0x10, 0x4_0000, M);
    FieldBelowAgrees(w1, w2, 0x200_0000, 0x20, 1, M);
    FieldBelowAgrees(w1, w2, 0x800_0000, 2, 4, M);
  }

  /** Bit 30 set in an OP word (the ISA's SUB) still decodes as ADD. */
  lemma SubWordDecodesAsAdd()
    ensures Decode(0x4000_0033).Ok? && Decode(0x4000_0033).value.opc == ADD
  {
    assert Opmap(0x4000_0033) == 0x33 && Funct3(0x4000_0033) == 0;
  }

  /**
   * `mul x1, x2, x3` (an RV32M word: opmap 0x33, funct3 000, funct7 0000001)
   * decodes as ADD, because funct7 is never read.
   */
  lemma MulWordDecodesAsAdd()
    ensures Decode(0x0231_00B3).Ok? && Decode(0x0231_00B3).value.opc == ADD
  {
    assert Opmap(0x0231_00B3) == 0x33 && Funct3(0x0231_00B3) == 0;
  }

  /**
   * `csrrw x1, mstatus, x2` (opmap 0x73, funct3 001) is accepted as ECALL
   * with no operands: funct3 is not read for SYSTEM, and rd, rs1 and the
   * immediate are absent for opmap 0x73.
   */
  lemma CsrWordDecodesAsEcall()
    ensures Decode(0x3001_10F3) == Ok(Instruction(ECALL, None, None, None, None, false))
  {
    assert Opmap(0x3001_10F3) == 0x73;
  }

  /** `fence.i` (opmap 0x0F, funct3 001) is accepted as FENCE. */
  lemma FenceIDecodesAsFence()
    ensures Decode(0x0000_100F).Ok? && Decode(0x0000_100F).value.opc == FENCE
  {
    assert Opmap(0x0000_100F) == 0x0F;
  }

  /** The all-zero word matches no opmap and is refused. */
  lemma ZeroWordIsRefused()
    ensures Decode(0) == Err(DecodeFailure(DecodingFailed, 0))
  {
  }
}

/**
 * The 32-bit decoder compared with the RV32I reference: which kinds it
 * produces for which words, which operands it reports, and what it gives
 * back for words laid out by the ISA's encoders. Where the decoder departs
 * from the ISA, the lemmas state what it does instead.
 */
module DecodeProperties {
  import opened Wrappers
  import opened Bits
  import opened Instructions
  import opened MmapParse32
  import opened OpcodeMap

  /**
   * Reading back the fields of a word assembled from the R-type slots
   * `funct7 | rs2 | rs1 | funct3 | rd | opcode`.
   */
  lemma SlotFields(w: U32, op: nat, rd: nat, f3: nat, rs1: nat, rs2: nat, f7: nat)
    requires op < 0x80 && rd < 0x20 && f3 < 8 && rs1 < 0x20 && rs2 < 0x20
    requires w == op + rd * 0x80 + f3 * 0x1000 + rs1 * 0x8000 + rs2 * 0x10_0000 + f7 * 0x200_0000
    ensures Opmap(w) == op && Funct3(w) == f3
    ensures (w / 0x80) % 0x20 == rd && (w / 0x8000) % 0x20 == rs1 && (w / 0x10_0000) % 0x20 == rs2
    ensures w / 0x200_0000 == f7
  {
    DivModUnique(w, 0x80, rd + f3 * 0x20 + rs1 * 0x100 + rs2 * 0x2000 + f7 * 0x4_0000, op);
    FieldOfSum(w, op, rd, f3 + rs1 * 8 + rs2 * 0x100 + f7 * 0x2000, 0x80, 0x20);
    FieldOfSum(w, op + rd * 0x80, f3, rs1 + rs2 * 0x20 + f7 * 0x400, 0x1000, 8);
    FieldOfSum(w, op + rd * 0x80 + f3 * 0x1000, rs1, rs2 + f7 * 0x20, 0x8000, 0x20);
    FieldOfSum(w, op + rd * 0x80 + f3 * 0x1000 + rs1 * 0x8000, rs2, f7, 0x10_0000, 0x20);
    DivModUnique(w, 0x200_0000, f7, op + rd * 0x80 + f3 * 0x1000 + rs1 * 0x8000 + rs2 * 0x10_0000);
  }

  /** Each kind shares opcode, funct3 and format with the kind the decoder produces for it. */
  lemma BaseKindSharesOpcodeAndFunct3(k: OpecodeKind)
    ensures BaseKind(BaseKind(k)) == BaseKind(k)
    ensures MajorOpcode(BaseKind(k)) == MajorOpcode(k)
    ensures Funct3Of(BaseKind(k)) == Funct3Of(k)
    ensures FormatOf(BaseKind(k)) == FormatOf(k)
  {
  }

  /**
   * Apart from the four kinds it never produces, the decoder picks `k`
   * exactly when the word has `k`'s opcode and, for the five opcodes that
   * hold several kinds, `k`'s funct3. The funct3 the ISA fixes for JALR,
   * FENCE and ECALL is not checked.
   */
  lemma ParseOpecodeAgreesWithMap(w: U32, k: OpecodeKind)
    requires BaseKind(k) == k
    ensures ParseOpecode(w) == Ok(k) <==>
      && Opmap(w) == MajorOpcode(k)
      && (MajorOpcode(k) in {0x63, 0x03, 0x23, 0x13, 0x33} ==> Funct3(w) == Funct3Of(k).value)
  {
  }

  /**
   * Every word the RV32I map assigns to a kind is accepted, and decodes to
   * that kind, or for SUB, SRA, SRAI and EBREAK to the kind they share
   * opcode and funct3 with.
   */
  lemma IsaEncodingsParseToBaseKind(w: U32, k: OpecodeKind)
    requires IsaMatches(w, k)
    ensures ParseOpecode(w) == Ok(BaseKind(k))
  {
  }

  /** A JALR word with the reserved funct3 001 is accepted as JALR. */
  lemma ReservedJalrFunct3Accepted()
    ensures !IsaMatches(0x1067, JALR)
    ensures ParseOpecode(0x1067) == Ok(JALR)
  {
    assert Funct3(0x1067) == 1;
  }

  /**
   * Which operands a decoded instruction carries, against the formats:
   * rd, rs2 and the immediate as the format defines them except that LUI
   * also gets rs2; rs1 as the format defines it except that LUI and FENCE
   * also get one (the presence tests use 0x57 where LUI is 0x37, and never
   * test FENCE).
   */
  lemma OperandPresence(w: U32)
    requires Decode(w).Ok?
    ensures var i := Decode(w).value;
      && (i.rd.Some? <==> HasRd(i.opc))
      && (i.rs1.Some? <==> HasRs1(i.opc) || i.opc in {LUI, FENCE})
      && (i.rs2.Some? <==> HasRs2(i.opc) || i.opc == LUI)
      && (i.imm.Some? <==> HasImm(i.opc))
  {
    var k := Decode(w).value.opc;
    AliasedKindsNeverParsed(w);
    ParseOpecodeAgreesWithMap(w, k);
    assert Opmap(w) == MajorOpcode(k);
  }

  /** Register-register words give back all three registers and no immediate. */
  lemma RoundTripR(k: OpecodeKind, rd: nat, rs1: nat, rs2: nat)
    requires FormatOf(k) == R && rd < 32 && rs1 < 32 && rs2 < 32
    ensures Decode(EncodeR(k, rd, rs1, rs2))
      == Ok(Instruction(BaseKind(k), Some(rd), Some(rs1), Some(rs2), None, false))
  {
    var w := EncodeR(k, rd, rs1, rs2);
    SlotFields(w, MajorOpcode(k), rd, Funct3Of(k).value, rs1, rs2, Funct7Of(k).value);
    assert IsaMatches(w, k);
    IsaEncodingsParseToBaseKind(w, k);
  }

  lemma IFields(k: OpecodeKind, rd: nat, rs1: nat, imm: nat)
    requires FormatOf(k) == I && rd < 32 && rs1 < 32 && imm < 0x1000
    ensures var w := EncodeI(k, rd, rs1, imm);
      && Opmap(w) == MajorOpcode(k) && Funct3(w) == Funct3Of(k).value
      && (w / 0x80) % 0x20 == rd && (w / 0x8000) % 0x20 == rs1 && (w / 0x10_0000) % 0x1000 == imm
  {
    var w := EncodeI(k, rd, rs1, imm);
    var op, f3 := MajorOpcode(k), Funct3Of(k).value;
    var lo := op + rd * 0x80 + f3 * 0x1000 + rs1 * 0x8000;
    assert w == lo + imm * 0x10_0000;
    assert imm * 0x10_0000 == (imm % 0x20) * 0x10_0000 + (imm / 0x20) * 0x200_0000;
    SlotFields(w, op, rd, f3, rs1, imm % 0x20, imm / 0x20);
    FieldOfSum(w, lo, imm, 0, 0x10_0000, 0x1000);
  }

  /**
   * I-type words (JALR, loads, immediate ALU) give back rd, rs1 and the
   * 12-bit immediate as an unsigned number: 0xFFF stays 4095, it is not -1.
   */
  lemma RoundTripI(k: OpecodeKind, rd: nat, rs1: nat, imm: nat)
    requires FormatOf(k) == I && k !in {FENCE, ECALL, EBREAK}
    requires rd < 32 && rs1 < 32 && imm < 0x1000
    ensures Decode(EncodeI(k, rd, rs1, imm))
      == Ok(Instruction(BaseKind(k), Some(rd), Some(rs1), None, Some(imm), false))
  {
    var w := EncodeI(k, rd, rs1, imm);
    IFields(k, rd, rs1, imm);
    BaseKindSharesOpcodeAndFunct3(k);
    ParseOpecodeAgreesWithMap(w, BaseKind(k));
  }

  /**
   * Two JALR words that differ only in funct3 (bits 14:12) decode alike:
   * every field the decoder reads for opmap 0x67 lies outside those bits.
   */
  lemma JalrDecodeIgnoresFunct3(w1: U32, w2: U32)
    requires Opmap(w1) == 0x67
    requires w1 % 0x1000 == w2 % 0x1000 && w1 / 0x8000 == w2 / 0x8000
    ensures Decode(w1) == Decode(w2)
  {
    FieldBelowAgrees(w1, w2, 1, 0x80, 0x20, 0x1000);
    assert Opmap(w2) == 0x67;
    FieldBelowAgrees(w1, w2, 0x80, 0x20, 1, 0x1000);
    FieldOfShifted(w1, w1 % 0x8000, w1 / 0x8000, 0x8000, 0x20, 0x1000, 0x10_0000);
    FieldOfShifted(w2, w2 % 0x8000, w2 / 0x8000, 0x8000, 0x20, 0x1000, 0x10_0000);
  }

  /**
   * A JALR word decodes to rd, rs1 and the unsigned bits 31:20 whatever its
   * funct3, including the seven values the ISA reserves.
   */
  lemma JalrRoundTripAnyFunct3(rd: nat, rs1: nat, f3: nat, imm: nat)
    requires rd < 32 && rs1 < 32 && f3 < 8 && imm < 0x1000
    ensures EncodeI(JALR, rd, rs1, imm) + f3 * 0x1000 < 0x1_0000_0000
    ensures Decode(EncodeI(JALR, rd, rs1, imm) + f3 * 0x1000)
      == Ok(Instruction(JALR, Some(rd), Some(rs1), None, Some(imm), false))
  {
    var w0 := EncodeI(JALR, rd, rs1, imm);
    var w := w0 + f3 * 0x1000;
    var lo := 0x67 + rd * 0x80;
    DivModUnique(w0, 0x1000, rs1 * 8 + imm * 0x100, lo);
    DivModUnique(w, 0x1000, f3 + rs1 * 8 + imm * 0x100, lo);
    DivModUnique(w0, 0x8000, rs1 + imm * 0x20, lo);
    DivModUnique(w, 0x8000, rs1 + imm * 0x20, lo + f3 * 0x1000);
    RoundTripI(JALR, rd, rs1, imm);
    JalrDecodeIgnoresFunct3(w0, w);
  }

  lemma SFields(k: OpecodeKind, rs1: nat, rs2: nat, imm: nat)
    requires FormatOf(k) == S && rs1 < 32 && rs2 < 32 && imm < 0x1000
    ensures var w := EncodeS(k, rs1, rs2, imm);
      && Opmap(w) == MajorOpcode(k) && Funct3(w) == Funct3Of(k).value
      && (w / 0x8000) % 0x20 == rs1 && (w / 0x10_0000) % 0x20 == rs2
      && ((w / 0x200_0000) % 0x20) * 0x20 + (w / 0x80) % 0x20 == imm % 0x400
  {
    var w := EncodeS(k, rs1, rs2, imm);
    var q := imm / 0x20;
    SlotFields(w, MajorOpcode(k), imm % 0x20, Funct3Of(k).value, rs1, rs2, q);
    DivModUnique(imm, 0x400, q / 0x20, (q % 0x20) * 0x20 + imm % 0x20);
  }

  /**
   * Store words give back rs1 and rs2 and the low ten bits of the 12-bit
   * immediate: its bits 11:10, which sit in word bits 31:30 and carry the
   * sign, are dropped.
   */
  lemma RoundTripS(k: OpecodeKind, rs1: nat, rs2: nat, imm: nat)
    requires FormatOf(k) == S && rs1 < 32 && rs2 < 32 && imm < 0x1000
    ensures Decode(EncodeS(k, rs1, rs2, imm))
      == Ok(Instruction(k, None, Some(rs1), Some(rs2), Some(imm % 0x400), false))
  {
    var w := EncodeS(k, rs1, rs2, imm);
    SFields(k, rs1, rs2, imm);
    ParseOpecodeAgreesWithMap(w, k);
  }

  lemma BFields(k: OpecodeKind, rs1: nat, rs2: nat, imm12: nat, imm11: nat, imm10_5: nat, imm4_1: nat)
    requires FormatOf(k) == B && rs1 < 32 && rs2 < 32
    requires imm12 < 2 && imm11 < 2 && imm10_5 < 0x40 && imm4_1 < 0x10
    ensures var w := EncodeB(k, rs1, rs2, imm12, imm11, imm10_5, imm4_1);
      && Opmap(w) == MajorOpcode(k) && Funct3(w) == Funct3Of(k).value
      && (w / 0x8000) % 0x20 == rs1 && (w / 0x10_0000) % 0x20 == rs2
      && (w / 0x80) % 2 == imm11 && (w / 0x100) % 0x10 == imm4_1
      && (w / 0x200_0000) % 0x20 == imm10_5 % 0x20 && (w / 0x800_0000) % 2 == (imm10_5 / 4) % 2
  {
    var w := EncodeB(k, rs1, rs2, imm12, imm11, imm10_5, imm4_1);
    var op, f3 := MajorOpcode(k), Funct3Of(k).value;
    var f7 := imm10_5 + imm12 * 0x40;
    SlotFields(w, op, imm11 + imm4_1 * 2, f3, rs1, rs2, f7);
    var above := f3 + rs1 * 8 + rs2 * 0x100 + f7 * 0x2000;
    FieldOfSum(w, op, imm11, imm4_1 + above * 0x10, 0x80, 2);
    FieldOfSum(w, op + imm11 * 0x80, imm4_1, above, 0x100, 0x10);
    var lo25 := op + (imm11 + imm4_1 * 2) * 0x80 + f3 * 0x1000 + rs1 * 0x8000 + rs2 * 0x10_0000;
    FieldOfSum(w, lo25, imm10_5 % 0x20, imm10_5 / 0x20 + imm12 * 2, 0x200_0000, 0x20);
    var t := imm10_5 / 4;
    FieldOfSum(w, lo25 + (imm10_5 % 4) * 0x200_0000, t % 2, t / 2 + imm12 * 8, 0x800_0000, 2);
  }

  /**
   * Branch words give back rs1 and rs2, and an immediate that is not the
   * branch offset: the decoder adds offset bit 7 (word bit 27) times 2048,
   * offset bit 11 (word bit 7) times 1024, offset bits 9:5 (word bits 29:25)
   * times 16 and offset bits 4:1 (word bits 11:8). Offset bits 12 and 10
   * are dropped and nothing is sign-extended.
   */
  lemma RoundTripB(k: OpecodeKind, rs1: nat, rs2: nat, imm12: nat, imm11: nat, imm10_5: nat, imm4_1: nat)
    requires FormatOf(k) == B && rs1 < 32 && rs2 < 32
    requires imm12 < 2 && imm11 < 2 && imm10_5 < 0x40 && imm4_1 < 0x10
    ensures Decode(EncodeB(k, rs1, rs2, imm12, imm11, imm10_5, imm4_1))
      == Ok(Instruction(k, None, Some(rs1), Some(rs2),
                        Some(((imm10_5 / 4) % 2) * 0x800 + imm11 * 0x400 + (imm10_5 % 0x20) * 0x10 + imm4_1),
                        false))
  {
    var w := EncodeB(k, rs1, rs2, imm12, imm11, imm10_5, imm4_1);
    BFields(k, rs1, rs2, imm12, imm11, imm10_5, imm4_1);
    ParseOpecodeAgreesWithMap(w, k);
  }

  lemma UFields(k: OpecodeKind, rd: nat, imm: nat)
    requires FormatOf(k) in {U, J} && rd < 32 && imm < 0x10_0000
    ensures var w := EncodeU(k, rd, imm);
      && Opmap(w) == MajorOpcode(k) && (w / 0x80) % 0x20 == rd && (w / 0x1000) % 0x10_0000 == imm
      && (w / 0x8000) % 0x20 == (imm / 8) % 0x20 && (w / 0x10_0000) % 0x20 == (imm / 0x100) % 0x20
  {
    var w := EncodeU(k, rd, imm);
    var op := MajorOpcode(k);
    DivModUnique(w, 0x80, rd + imm * 0x20, op);
    FieldOfSum(w, op, rd, imm, 0x80, 0x20);
    FieldOfSum(w, op + rd * 0x80, imm, 0, 0x1000, 0x10_0000);
    FieldOfShifted(w, op + rd * 0x80, imm, 0x1000, 8, 0x20, 0x8000);
    FieldOfShifted(w, op + rd * 0x80, imm, 0x1000, 0x100, 0x20, 0x10_0000);
  }

  /**
   * Upper-immediate and jump words give back rd and the raw 20-bit field of
   * bits 31:12, not moved up by twelve places. LUI also reports rs1 and rs2,
   * read from bits 7:3 and 12:8 of that field.
   */
  lemma RoundTripU(k: OpecodeKind, rd: nat, imm: nat)
    requires FormatOf(k) in {U, J} && rd < 32 && imm < 0x10_0000
    ensures Decode(EncodeU(k, rd, imm))
      == Ok(Instruction(k, Some(rd),
                        if k == LUI then Some((imm / 8) % 0x20) else None,
                        if k == LUI then Some((imm / 0x100) % 0x20) else None,
                        Some(imm), false))
  {
    var w := EncodeU(k, rd, imm);
    UFields(k, rd, imm);
    ParseOpecodeAgreesWithMap(w, k);
  }

  /**
   * A JAL word's immediate is the scrambled field of bits 31:12 as it stands,
   * not the jump offset it encodes.
   */
  lemma RoundTripJ(rd: nat, imm20: nat, imm10_1: nat, imm11: nat, imm19_12: nat)
    requires rd < 32 && imm20 < 2 && imm10_1 < 0x400 && imm11 < 2 && imm19_12 < 0x100
    ensures Decode(EncodeJ(rd, imm20, imm10_1, imm11, imm19_12))
      == Ok(Instruction(JAL, Some(rd), None, None,
                        Some(imm19_12 + imm11 * 0x100 + imm10_1 * 0x200 + imm20 * 0x8_0000), false))
  {
    RoundTripU(JAL, rd, imm19_12 + imm11 * 0x100 + imm10_1 * 0x200 + imm20 * 0x8_0000);
  }

  /** `addi x1, x0, -1` decodes with immediate 4095. */
  lemma AddiMinusOneIsNotSignExtended()
    ensures EncodeI(ADDI, 1, 0, 0xFFF) == 0xFFF0_0093
    ensures Decode(0xFFF0_0093) == Ok(Instruction(ADDI, Some(1), Some(0), None, Some(4095), false))
  {
    RoundTripI(ADDI, 1, 0, 0xFFF);
  }

  /**
   * `srai x1, x2, 5` decodes as SRLI, yet its funct7 bit 30 survives as bit
   * 10 of the immediate (0x405), where `srli x1, x2, 5` has 0x005.
   */
  lemma SraiBit30SurvivesInImmediate()
    ensures EncodeI(SRAI, 1, 2, 0x405) == 0x4051_5093
    ensures EncodeI(SRLI, 1, 2, 0x005) == 0x0051_5093
    ensures Decode(0x4051_5093) == Ok(Instruction(SRLI, Some(1), Some(2), None, Some(0x405), false))
    ensures Decode(0x0051_5093) == Ok(Instruction(SRLI, Some(1), Some(2), None, Some(0x005), false))
  {
    RoundTripI(SRAI, 1, 2, 0x405);
    RoundTripI(SRLI, 1, 2, 0x005);
  }

  /** `beq x0, x0, 8` decodes with immediate 4. */
  lemma BranchOffsetEightDecodesAsFour()
    ensures BranchOffset(0, 0, 0, 4) == 8 && EncodeB(BEQ, 0, 0, 0, 0, 0, 4) == 0x463
    ensures Decode(0x463) == Ok(Instruction(BEQ, None, Some(0), Some(0), Some(4), false))
  {
    var w := EncodeB(BEQ, 0, 0, 0, 0, 0, 4);
    assert w == 0x463;
    RoundTripB(BEQ, 0, 0, 0, 0, 0, 4);
    assert Decode(w) == Ok(Instruction(BEQ, None, Some(0), Some(0), Some(4), false));
  }

  /** `jal x0, 8` decodes with immediate 2048. */
  lemma JumpOffsetEightDecodesAs2048()
    ensures JumpOffset(0, 4, 0, 0) == 8 && EncodeJ(0, 0, 4, 0, 0) == 0x0080_006F
    ensures Decode(0x0080_006F) == Ok(Instruction(JAL, Some(0), None, None, Some(0x800), false))
  {
    RoundTripJ(0, 0, 4, 0, 0);
  }

  /** `lui x1, 1` decodes with immediate 1, where the ISA's value is 0x1000. */
  lemma LuiImmediateIsNotPositioned()
    ensures EncodeU(LUI, 1, 1) == 0x10B7
    ensures Decode(0x10B7) == Ok(Instruction(LUI, Some(1), Some(0), Some(0), Some(1), false))
  {
    RoundTripU(LUI, 1, 1);
  }

  /** `fence` (iorw, iorw) reports rs1 = x0 though FENCE has no rs1 operand here. */
  lemma FenceReportsRs1()
    ensures !HasRs1(FENCE)
    ensures Decode(0x0FF0_000F).Ok? && Decode(0x0FF0_000F).value.rs1 == Some(0)
  {
    assert Opmap(0x0FF0_000F) == 0x0F && (0x0FF0_000F / 0x8000) % 0x20 == 0;
  }
}

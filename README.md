# rv32im_simulator: the 32-bit decoder and fetch, in Dafny

This project models the front end of the `rv32im_simulator` RISC-V simulator:

- `fetch` reads the raw instruction bytes at the program counter.
- The 32-bit decoder (`impl Decode for u32`) turns a 32-bit word into an
  `Instruction { opc, rd, rs1, rs2, imm, is_compressed }`.
- The `CPU` record holds the program counter and the register file.

The model follows the Rust code as written. In several places that code
departs from the RISC-V Unprivileged ISA, and the model keeps every one of
those departures. Each is stated as a lemma, either over all inputs or as a
concrete word.

Files:

- `wrappers.dfy`: the `Option` and `Result` datatypes.
- `bits.dfy`: the fixed-width integer types, modelled as bounded naturals.
  Also the bit-field lemmas. A Rust expression `(x >> s) & (2^k - 1)` is
  written `(x / 2^s) % 2^k`, and an OR of disjoint shifted fields is written
  as their sum.
- `instruction.dfy`: `OpecodeKind`, `Instruction`, and the failure value
  that stands for `decode`'s panic.
- `mmap_parse_32.dfy`: `decode`, `parse_opecode`, `parse_rd`, `parse_rs1`,
  `parse_rs2` and `parse_imm` as pure functions. It also holds the lemmas
  that can be read off the code alone.
- `opcode_map.dfy`: an independent reference. It holds the RV32I opcode map,
  the operands each instruction format defines, and encoders that lay
  fields out as the ISA does.
- `decode_properties.dfy`: the decoder compared with that reference. It
  covers which kinds the decoder produces, which operands it reports, and
  what it returns for words built by each ISA encoder.
- `cpu.dfy`: the `CPU` class (`pc` and a 32-entry register array) and
  `fetch` as a function over a byte sequence.

Where the decoder departs from the ISA:

- Immediates are never sign-extended.
- The U immediate is the raw 20-bit field; it is not moved to bits 31:12.
- The J and B immediates are not rebuilt in the ISA's bit order.
- The store and branch immediates ignore word bits 31:30.
- `parse_rs1` and `parse_rs2` compare against 0x57 where LUI is 0x37, so
  LUI reports rs1 and rs2.
- `parse_rs1` does not test FENCE, so FENCE reports rs1.
- `parse_opecode` never reads funct7 or the SYSTEM immediate. As a result
  SUB, SRA, SRAI and EBREAK are never produced, and RV32M words such as
  `mul` decode as the base ALU kind with the same funct3. For the OP-IMM
  shifts, bits 31:25 still come back inside the immediate, so SRAI and
  SRLI words differ in immediate bit 10.
- `parse_opecode` never reads funct3 for JALR, FENCE and SYSTEM, so
  reserved JALR funct3 values, FENCE.I and every CSR instruction are
  accepted, as JALR, FENCE and ECALL (a CSR word with no operands).

Where `fetch` departs from the ISA:

- It takes the 32-bit path when the low two bits of the byte at `pc` are
  *not* 11. The ISA's length rule is the opposite.
- On the 32-bit path it reads bytes `pc+1 .. pc+4`, not `pc .. pc+3`.

## Model

| member | source | states |
|---|---|---|
| MmapParse32.ParseOpecode | src/cpu/decode/mmap_parse_32.rs:29-88 | fails, with the message "opecode decoding failed", exactly for an unlisted opmap, branch funct3 010/011, load funct3 011/110/111, or store funct3 011 and up |
| MmapParse32.ParseRd | src/cpu/decode/mmap_parse_32.rs:90-102 | absent exactly when opmap is 0x63, 0x23 or 0x73; otherwise bits 11:7, below 32 |
| MmapParse32.ParseRs1 | src/cpu/decode/mmap_parse_32.rs:104-116 | absent exactly when opmap is 0x57, 0x17, 0x6F or 0x73, so LUI and FENCE get one; otherwise bits 19:15, below 32 |
| MmapParse32.ParseRs2 | src/cpu/decode/mmap_parse_32.rs:118-133 | absent exactly when opmap is 0x57, 0x17, 0x6F, 0x67, 0x03, 0x13, 0x0F or 0x73; otherwise bits 24:20, below 32 |
| MmapParse32.ParseImm | src/cpu/decode/mmap_parse_32.rs:135-166 | present exactly for opmaps 0x37, 0x17, 0x6F, 0x67, 0x03, 0x13, 0x23, 0x63, and never negative |
| MmapParse32.Decode | src/cpu/decode/mmap_parse_32.rs:9-27 | fails exactly when classification fails, carrying the message and the word; otherwise holds the classified kind and the four operand results unchanged, with `is_compressed` false |
| MmapParse32.ParseOpecodeReadsOpmapAndFunct3 | src/cpu/decode/mmap_parse_32.rs:29-32 | two words that agree on bits 6:0 and 14:12 are classified alike |
| MmapParse32.AliasedKindsNeverParsed | src/cpu/decode/mmap_parse_32.rs:62-85 | SUB, SRA, SRAI and EBREAK are never the result |
| MmapParse32.OperandsIgnoreOpkind | src/cpu/decode/mmap_parse_32.rs:90-166 | the four operand queries give the same answer whatever opcode they are handed |
| MmapParse32.ImmBoundsByFormat | src/cpu/decode/mmap_parse_32.rs:139-165 | the immediate is below 2^20 for LUI/AUIPC/JAL, below 4096 for JALR/loads/OP-IMM, at most 1023 for stores and at most 3583 for branches; OP, FENCE and SYSTEM have none |
| MmapParse32.StoreBranchImmIgnoreTopBits | src/cpu/decode/mmap_parse_32.rs:154-163 | for store and branch words, words that agree on bits 29:0 get the same immediate |
| MmapParse32.SubWordDecodesAsAdd | src/cpu/decode/mmap_parse_32.rs:73-74 | the word 0x40000033 (SUB x0, x0, x0 in the ISA) decodes as ADD |
| MmapParse32.MulWordDecodesAsAdd | src/cpu/decode/mmap_parse_32.rs:73-74 | the RV32M word 0x023100B3 (`mul x1, x2, x3`) decodes as ADD |
| MmapParse32.CsrWordDecodesAsEcall | src/cpu/decode/mmap_parse_32.rs:85 | `csrrw x1, mstatus, x2` (0x300110F3) decodes as ECALL with no rd, rs1, rs2 or immediate |
| MmapParse32.FenceIDecodesAsFence | src/cpu/decode/mmap_parse_32.rs:84 | `fence.i` (0x0000100F) decodes as FENCE |
| MmapParse32.ZeroWordIsRefused | src/cpu/decode/mmap_parse_32.rs:86 | the all-zero word is refused |
| DecodeProperties.BaseKindSharesOpcodeAndFunct3 | src/cpu/decode/mmap_parse_32.rs:68-85 | each kind the decoder never produces shares opcode, funct3 and format with the kind produced in its place |
| DecodeProperties.ParseOpecodeAgreesWithMap | src/cpu/decode/mmap_parse_32.rs:34-86 | for every kind it can produce, the decoder picks it exactly when the word has that kind's RV32I opcode and, for the five multi-kind opcodes, its funct3 |
| DecodeProperties.IsaEncodingsParseToBaseKind | src/cpu/decode/mmap_parse_32.rs:34-86 | every word the RV32I map assigns to a kind is accepted and classified as that kind, or as the kind it is aliased to |
| DecodeProperties.ReservedJalrFunct3Accepted | src/cpu/decode/mmap_parse_32.rs:38 | a JALR word with funct3 001, which the ISA reserves, is accepted as JALR |
| DecodeProperties.OperandPresence | src/cpu/decode/mmap_parse_32.rs:90-166 | on any decoded word, rd, rs2 and the immediate are present exactly as the ISA formats define them, except that LUI also has rs2; rs1 is present as the formats define it, plus LUI and FENCE |
| DecodeProperties.SlotFields | src/cpu/decode/mmap_parse_32.rs:31-32 | the opmap, funct3, rd, rs1 and rs2 fields read back the values an R-type layout put in them |
| DecodeProperties.RoundTripR | src/cpu/decode/mmap_parse_32.rs:9-27 | an ISA-encoded register-register word decodes to its kind, or its aliased kind, with rd, rs1, rs2 and no immediate |
| DecodeProperties.IFields | src/cpu/decode/mmap_parse_32.rs:150-152 | an ISA-encoded I-type word holds its opcode, funct3, rd, rs1 and 12-bit immediate where the decoder reads them |
| DecodeProperties.RoundTripI | src/cpu/decode/mmap_parse_32.rs:9-27 | an ISA-encoded JALR, load or OP-IMM word decodes to its kind (SRLI for SRAI) with rd, rs1 and the unsigned 12-bit immediate |
| DecodeProperties.JalrDecodeIgnoresFunct3 | src/cpu/decode/mmap_parse_32.rs:38 | two JALR words that differ only in funct3 decode to the same instruction |
| DecodeProperties.JalrRoundTripAnyFunct3 | src/cpu/decode/mmap_parse_32.rs:150-151 | a JALR word with any funct3, reserved values included, decodes with rd, rs1 and the unsigned bits 31:20 |
| DecodeProperties.SFields | src/cpu/decode/mmap_parse_32.rs:154-157 | the store immediate read from an ISA-encoded store word is the encoded immediate modulo 1024 |
| DecodeProperties.RoundTripS | src/cpu/decode/mmap_parse_32.rs:9-27 | an ISA-encoded store word decodes with rs1, rs2 and the immediate's low ten bits |
| DecodeProperties.BFields | src/cpu/decode/mmap_parse_32.rs:159-163 | the four pieces the branch immediate is built from, read from an ISA-encoded branch word |
| DecodeProperties.RoundTripB | src/cpu/decode/mmap_parse_32.rs:9-27 | an ISA-encoded branch word decodes with rs1, rs2 and an immediate that is not its offset (built from offset bit 7, bit 11, bits 9:5 and bits 4:1) |
| DecodeProperties.UFields | src/cpu/decode/mmap_parse_32.rs:139-147 | an ISA-encoded U/J word holds rd and the 20-bit field where the decoder reads them; its rs1 and rs2 positions are bits 7:3 and 12:8 of that field |
| DecodeProperties.RoundTripU | src/cpu/decode/mmap_parse_32.rs:9-27 | an ISA-encoded LUI, AUIPC or JAL word decodes with rd and the raw 20-bit field; LUI also reports rs1 and rs2 |
| DecodeProperties.RoundTripJ | src/cpu/decode/mmap_parse_32.rs:144-147 | an ISA-encoded JAL word's immediate is the scrambled bits 31:12, not its jump offset |
| DecodeProperties.AddiMinusOneIsNotSignExtended | src/cpu/decode/mmap_parse_32.rs:150-152 | `addi x1, x0, -1` decodes with immediate 4095 |
| DecodeProperties.SraiBit30SurvivesInImmediate | src/cpu/decode/mmap_parse_32.rs:150-151 | `srai x1, x2, 5` decodes as SRLI with immediate 0x405, while `srli x1, x2, 5` has 0x005: bit 30 reaches the immediate |
| DecodeProperties.BranchOffsetEightDecodesAsFour | src/cpu/decode/mmap_parse_32.rs:159-163 | `beq x0, x0, 8` decodes with immediate 4 |
| DecodeProperties.JumpOffsetEightDecodesAs2048 | src/cpu/decode/mmap_parse_32.rs:144-147 | `jal x0, 8` decodes with immediate 2048 |
| DecodeProperties.LuiImmediateIsNotPositioned | src/cpu/decode/mmap_parse_32.rs:139-142 | `lui x1, 1` decodes with immediate 1, and also with rs1 = rs2 = x0 |
| DecodeProperties.FenceReportsRs1 | src/cpu/decode/mmap_parse_32.rs:109-113 | a FENCE word reports rs1 = x0, though FENCE has no rs1 operand |
| Cpu.CPU.constructor | src/cpu.rs:10-22 | the new CPU has `pc` equal to the entry address and a fresh 32-entry register file, all zero |
| Cpu.Fetch | src/cpu.rs:44-60 | takes the 32-bit path exactly when the low two bits of the byte at `pc` are not 11; that path yields bytes `pc+1 .. pc+4` little-endian, and the 16-bit path yields bytes `pc, pc+1` little-endian |
| Cpu.LeValueOfBytes32 | src/cpu.rs:50-53 | a 32-bit value split into little-endian bytes reads back as itself |
| Cpu.BytesOfLeValue32 | src/cpu.rs:50-53 | four bytes read little-endian give a 32-bit value that splits back into the same bytes |
| Cpu.FetchWideIsLittleEndian | src/cpu.rs:50-54 | on the 32-bit path, `fetch` yields `v` exactly when bytes `pc+1 .. pc+4` are `v`'s little-endian bytes |
| Cpu.FetchNarrowIsLittleEndian | src/cpu.rs:56-58 | on the 16-bit path, `fetch` yields `h` exactly when bytes `pc, pc+1` are `h`'s little-endian bytes |
| Cpu.FetchDependsOnlyOnBytesRead | src/cpu.rs:44-59 | two memories that agree on the low two bits at `pc` and on the bytes of the chosen path fetch alike |
| Cpu.FetchLengthRuleIsInverted | src/cpu.rs:47-57 | the bytes of `addi x10, x0, 0` are fetched as the 16-bit half-word 0x0513; a first byte with low bits 01 is skipped on the 32-bit path |

## Left out

- `Wrapper`, `impl Deref for Decode` and `Decode::new` are boxing plumbing
  with no behaviour. `fetch` returns a width-tagged `RawWord` in place of a
  boxed decoder.
- `Dram` is not part of this model. Memory is a read-only byte sequence, and
  `raw_byte(a)` is `mem[a]`. Reading past the end belongs to `Dram`; here it
  is excluded by the precondition `FetchInBounds`.
- The 16-bit decoder is not part of this model. `fetch`'s 16-bit result is
  only the raw half-word.
- The execution and instruction modules are not part of this model. The
  `OpecodeKind` variants are the ones the 32-bit decoder names. No execute
  semantics are modelled.
- `decode`'s panic is an `Err(DecodeFailure(msg, word))`. The panic
  message's `{:b}` formatting of the word is diagnostic text and is not
  modelled.
- `usize` (`pc`, register indices) is an unbounded `nat`, so wrap-around of
  `pc + 4` near the top of the address space is not modelled.
- `i32` casts: every immediate the decoder builds is below 2^20, so its
  `as i32` cast is the identity, and `I32` is modelled as a bounded integer.
- The `CPU` record has no methods besides `new` in the code, so the class
  has only its constructor.

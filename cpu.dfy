/**
 * CPU state and the fetch step of `src/cpu.rs`.
 *
 * Memory (the `Dram` collaborator) is a read-only sequence of bytes here;
 * `raw_byte(a)` is `mem[a]`, and reading past its end is excluded by the
 * preconditions. The value `fetch` hands on is a width-tagged raw word.
 */
module Cpu {
  import opened Bits

  /** A raw instruction word, tagged with its width. */
  datatype RawWord = W16(half: U16) | W32(word: U32)

  /** Architectural state: the PC and the 32 integer registers (`[i32; 32]`). */
  class CPU {
    var pc: nat
    var reg: array<I32>

    /** `CPU::new`: start at `entryAddress` with every register zero. */
    constructor (entryAddress: nat)
      ensures reg.Length == 32 && fresh(reg)
      ensures pc == entryAddress
      ensures forall i :: 0 <= i < reg.Length ==> reg[i] == 0
    {
      pc := entryAddress;
      reg := new I32[32](_ => 0);
    }
  }

  /**
   * Whether `fetch` takes its 32-bit path: `raw_byte(pc) & 0x3 != 0x3`.
   * The ISA's rule is the opposite (low bits 11 mark a 32-bit instruction).
   */
  predicate TakesWidePath(mem: seq<U8>, pc: nat)
    requires pc < |mem|
  {
    mem[pc] % 4 != 3
  }

  /** The bytes `fetch` reads lie inside memory. */
  predicate FetchInBounds(mem: seq<U8>, pc: nat) {
    pc < |mem| && (if TakesWidePath(mem, pc) then pc + 4 < |mem| else pc + 1 < |mem|)
  }

  /** The number whose little-endian bytes are `b` (least significant first). */
  function LeValue(b: seq<U8>): nat {
    if b == [] then 0 else b[0] + 0x100 * LeValue(b[1..])
  }

  /**
   * `fetch`: on the 32-bit path the word is bytes `pc+1 .. pc+4`, little
   * endian (the byte at `pc` is not part of it); on the 16-bit path it is
   * bytes `pc`, `pc+1`, little endian.
   */
  function Fetch(mem: seq<U8>, pc: nat): (r: RawWord)
    requires FetchInBounds(mem, pc)
    ensures r.W32? <==> TakesWidePath(mem, pc)
    ensures r.W32? ==> r.word == LeValue(mem[pc + 1 .. pc + 5])
    ensures r.W16? ==> r.half == LeValue(mem[pc .. pc + 2])
  {
    if TakesWidePath(mem, pc) then
      LeValue4(mem[pc + 1 .. pc + 5]);
      // byte(pc+4) << 24 | byte(pc+3) << 16 | byte(pc+2) << 8 | byte(pc+1)
      W32((mem[pc + 4] as nat) * 0x100_0000 + (mem[pc + 3] as nat) * 0x1_0000
          + (mem[pc + 2] as nat) * 0x100 + mem[pc + 1] as nat)
    else
      LeValue2(mem[pc .. pc + 2]);
      // byte(pc+1) << 8 | byte(pc)
      W16((mem[pc + 1] as nat) * 0x100 + mem[pc] as nat)
  }

  /** The four bytes of a 32-bit value, least significant first. */
  function LeBytes32(v: U32): (b: seq<U8>)
    ensures |b| == 4
  {
    [v % 0x100, (v / 0x100) % 0x100, (v / 0x1_0000) % 0x100, v / 0x100_0000]
  }

  /** The two bytes of a 16-bit value, least significant first. */
  function LeBytes16(h: U16): (b: seq<U8>)
    ensures |b| == 2
  {
    [h % 0x100, h / 0x100]
  }

  lemma LeValue2(b: seq<U8>)
    requires |b| == 2
    ensures LeValue(b) == b[0] as nat + 0x100 * b[1] as nat
  {
    assert LeValue(b[2..]) == 0;
  }

  lemma LeValue4(b: seq<U8>)
    requires |b| == 4
    ensures LeValue(b) == b[0] as nat + 0x100 * b[1] as nat + 0x1_0000 * b[2] as nat + 0x100_0000 * b[3] as nat
  {
    LeValue2(b[2..]);
    assert b[2..][0] == b[2] && b[2..][1] == b[3];
    assert LeValue(b[1..]) == b[1] + 0x100 * LeValue(b[2..]) by {
      assert b[1..][1..] == b[2..];
    }
  }

  /** Splitting a 32-bit value into bytes and reading them back gives the value. */
  lemma LeValueOfBytes32(v: U32)
    ensures LeValue(LeBytes32(v)) == v
  {
    LeValue4(LeBytes32(v));
    var q1, q2 := v / 0x100, v / 0x1_0000;
    DivModUnique(v, 0x1_0000, q1 / 0x100, (q1 % 0x100) * 0x100 + v % 0x100);
    DivModUnique(v, 0x100_0000, q2 / 0x100, (q2 % 0x100) * 0x1_0000 + v % 0x1_0000);
  }

  /** Reading four bytes as a value and splitting it again gives the bytes. */
  lemma BytesOfLeValue32(b: seq<U8>)
    requires |b| == 4
    ensures LeValue(b) < 0x1_0000_0000 && LeBytes32(LeValue(b)) == b
  {
    var v := LeValue(b);
    var b0, b1, b2, b3: nat := b[0], b[1], b[2], b[3];
    LeValue4(b);
    DivModUnique(v, 0x100, b1 + b2 * 0x100 + b3 * 0x1_0000, b0);
    DivModUnique(v / 0x100, 0x100, b2 + b3 * 0x100, b1);
    DivModUnique(v, 0x1_0000, b2 + b3 * 0x100, b0 + b1 * 0x100);
    DivModUnique(v / 0x1_0000, 0x100, b3, b2);
    DivModUnique(v, 0x100_0000, b3, b0 + b1 * 0x100 + b2 * 0x1_0000);
  }

  /**
   * On the 32-bit path `fetch` yields `v` exactly when bytes `pc+1 .. pc+4`
   * are `v` in little-endian order.
   */
  lemma FetchWideIsLittleEndian(mem: seq<U8>, pc: nat, v: U32)
    requires FetchInBounds(mem, pc) && TakesWidePath(mem, pc)
    ensures Fetch(mem, pc) == W32(v) <==> mem[pc + 1 .. pc + 5] == LeBytes32(v)
  {
    BytesOfLeValue32(mem[pc + 1 .. pc + 5]);
    LeValueOfBytes32(v);
  }

  /**
   * On the 16-bit path `fetch` yields `h` exactly when bytes `pc`, `pc+1`
   * are `h` in little-endian order.
   */
  lemma FetchNarrowIsLittleEndian(mem: seq<U8>, pc: nat, h: U16)
    requires FetchInBounds(mem, pc) && !TakesWidePath(mem, pc)
    ensures Fetch(mem, pc) == W16(h) <==> mem[pc .. pc + 2] == LeBytes16(h)
  {
    var b := mem[pc .. pc + 2];
    var b0, b1: nat := b[0], b[1];
    LeValue2(b);
    LeValue2(LeBytes16(h));
    DivModUnique(b0 + 0x100 * b1, 0x100, b1, b0);
  }

  /**
   * `fetch` reads memory only: its result is fixed by the low two bits of
   * the byte at `pc` and the bytes of the path they select, so on the
   * 32-bit path the rest of the byte at `pc` plays no part.
   */
  lemma FetchDependsOnlyOnBytesRead(m1: seq<U8>, m2: seq<U8>, pc: nat)
    requires FetchInBounds(m1, pc) && pc < |m2| && m1[pc] % 4 == m2[pc] % 4
    requires TakesWidePath(m1, pc) ==> pc + 4 < |m2| && m1[pc + 1 .. pc + 5] == m2[pc + 1 .. pc + 5]
    requires !TakesWidePath(m1, pc) ==> pc + 1 < |m2| && m1[pc .. pc + 2] == m2[pc .. pc + 2]
    ensures FetchInBounds(m2, pc)
    ensures Fetch(m1, pc) == Fetch(m2, pc)
  {
  }

  /**
   * The bytes of `addi x10, x0, 0` start with 0x13, whose low bits are 11:
   * `fetch` takes its 16-bit path and yields the half-word 0x0513. A first
   * byte with low bits 01 takes the 32-bit path and skips that byte.
   */
  lemma FetchLengthRuleIsInverted()
    ensures Fetch([0x13, 0x05, 0x00, 0x00], 0) == W16(0x0513)
    ensures Fetch([0x01, 0x11, 0x22, 0x33, 0x44], 0) == W32(0x4433_2211)
  {
  }
}

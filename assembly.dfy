/*
 * The MIPS32 / microMIPS instruction encoder used by the EJTAG backend to
 * synthesize the instruction words it feeds to a halted core.
 *
 * Every encoder is a shift-and-or expression over 32-bit words. probe-rs
 * neither masks nor range-checks its operands, and a left shift on a 32-bit
 * word silently drops the bits pushed past bit 31; `bv32` has exactly that
 * behaviour, so the bodies below carry no masking either. The contracts say
 * what the produced word decodes to, field by field, whenever the operands
 * fit their fields.
 */
module Assembly {

  // ---------------------------------------------------------------------
  // Constants
  // ---------------------------------------------------------------------

  const MIPS_NOP: bv32 := 0x0

  // 6-bit major opcodes of the microMIPS pools
  const POOL32A: bv32 := 0x00
  const POOL32B: bv32 := 0x08
  const POOL32I: bv32 := 0x10
  const POOL32AXF: bv32 := 0x3C

  // MIPS32 opcodes and function codes
  const MIPS32_OP_ADDU: bv32 := 0x21
  const MIPS32_OP_ADDIU: bv32 := 0x09
  const MIPS32_OP_ANDI: bv32 := 0x0C
  const MIPS32_OP_BEQ: bv32 := 0x04
  const MIPS32_OP_BGTZ: bv32 := 0x07
  const MIPS32_OP_BNE: bv32 := 0x05
  const MIPS32_OP_ADDI: bv32 := 0x08
  const MIPS32_OP_AND: bv32 := 0x24
  const MIPS32_OP_CACHE: bv32 := 0x2F
  const MIPS32_OP_COP0: bv32 := 0x10
  const MIPS32_OP_J: bv32 := 0x02
  const MIPS32_OP_JR: bv32 := 0x08
  const MIPS32_OP_LUI: bv32 := 0x0F
  const MIPS32_OP_LW: bv32 := 0x23
  const MIPS32_OP_LB: bv32 := 0x20
  const MIPS32_OP_LBU: bv32 := 0x24
  const MIPS32_OP_LHU: bv32 := 0x25
  const MIPS32_OP_MFHI: bv32 := 0x10
  const MIPS32_OP_MTHI: bv32 := 0x11
  const MIPS32_OP_MFLO: bv32 := 0x12
  const MIPS32_OP_MTLO: bv32 := 0x13
  const MIPS32_OP_RDHWR: bv32 := 0x3B
  const MIPS32_OP_SB: bv32 := 0x28
  const MIPS32_OP_SH: bv32 := 0x29
  const MIPS32_OP_SW: bv32 := 0x2B
  const MIPS32_OP_ORI: bv32 := 0x0D
  const MIPS32_OP_XORI: bv32 := 0x0E
  const MIPS32_OP_XOR: bv32 := 0x26
  const MIPS32_OP_SLTU: bv32 := 0x2B
  /** the value probe-rs gives SRL; see `IsaSrlAsWritten`. */
  const MIPS32_OP_SRL: bv32 := 0x03
  const MIPS32_OP_SYNCI: bv32 := 0x1F
  const MIPS32_OP_SLL: bv32 := 0x00
  const MIPS32_OP_SLTI: bv32 := 0x0A
  const MIPS32_OP_MOVN: bv32 := 0x0B

  const MIPS32_OP_REGIMM: bv32 := 0x01
  const MIPS32_OP_SDBBP: bv32 := 0x3F
  const MIPS32_OP_SPECIAL: bv32 := 0x00
  /**
   * Kept with its probe-rs value, which is not the SPECIAL2 major opcode
   * (0x1C) that the SDBBP word actually carries; no encoder uses it.
   */
  const MIPS32_OP_SPECIAL2: bv32 := 0x07
  const MIPS32_OP_SPECIAL3: bv32 := 0x1F

  const MIPS32_COP0_MF: bv32 := 0x00
  const MIPS32_COP0_MT: bv32 := 0x04

  const MIPS32_ISA_DRET: bv32 := 0x4200001F
  const MIPS32_ISA_SDBBP: bv32 := 0x7000003F
  const MIPS16_ISA_SDBBP: bv32 := 0xE801

  /**
   * Function codes of the two SPECIAL shifts right as the MIPS32
   * Architecture Reference Manual (Volume II, SRL and SRA) assigns them.
   */
  const MIPS32_STD_FUNCT_SRL: bv32 := 0x02
  const MIPS32_STD_FUNCT_SRA: bv32 := 0x03

  // microMIPS opcodes, pool minor codes and POOL32AXF extensions
  const MMIPS32_OP_ADDI: bv32 := 0x04
  const MMIPS32_OP_ADDIU: bv32 := 0x0C
  const MMIPS32_OP_ADDU: bv32 := 0x150
  const MMIPS32_OP_AND: bv32 := 0x250
  const MMIPS32_OP_ANDI: bv32 := 0x34
  const MMIPS32_OP_BEQ: bv32 := 0x25
  const MMIPS32_OP_BGTZ: bv32 := 0x06
  const MMIPS32_OP_BNE: bv32 := 0x2D
  const MMIPS32_OP_CACHE: bv32 := 0x06
  const MMIPS32_OP_J: bv32 := 0x35
  const MMIPS32_OP_JALR: bv32 := 0x03C
  const MMIPS32_OP_LB: bv32 := 0x07
  const MMIPS32_OP_LBU: bv32 := 0x05
  const MMIPS32_OP_LHU: bv32 := 0x0D
  const MMIPS32_OP_LUI: bv32 := 0x0D
  const MMIPS32_OP_LW: bv32 := 0x3F
  const MMIPS32_OP_MFC0: bv32 := 0x03
  const MMIPS32_OP_MTC0: bv32 := 0x0B
  const MMIPS32_OP_MFLO: bv32 := 0x075
  const MMIPS32_OP_MFHI: bv32 := 0x035
  const MMIPS32_OP_MTLO: bv32 := 0x0F5
  const MMIPS32_OP_MTHI: bv32 := 0x0B5
  const MMIPS32_OP_MOVN: bv32 := 0x018
  const MMIPS32_OP_ORI: bv32 := 0x14
  const MMIPS32_OP_RDHWR: bv32 := 0x1AC
  const MMIPS32_OP_SB: bv32 := 0x06
  const MMIPS32_OP_SH: bv32 := 0x0E
  const MMIPS32_OP_SW: bv32 := 0x3E
  const MMIPS32_OP_SLTU: bv32 := 0x390
  const MMIPS32_OP_SLL: bv32 := 0x000
  const MMIPS32_OP_SLTI: bv32 := 0x24
  const MMIPS32_OP_SRL: bv32 := 0x040
  const MMIPS32_OP_SYNCI: bv32 := 0x10
  const MMIPS32_OP_XOR: bv32 := 0x310
  const MMIPS32_OP_XORI: bv32 := 0x1C

  /** POOL32AXF extension code of SYNC (microMIPS32 Instruction Set, SYNC). */
  const MMIPS32_EXT_SYNC: bv32 := 0x1AD

  const MMIPS32_DRET: bv32 := 0x0000E37C
  const MMIPS32_SDBBP: bv32 := 0x0000DB7C
  const MMIPS16_SDBBP: bv32 := 0x46C0

  // 5-bit general purpose register specifiers
  const AT: bv32 := 0x01
  const V0: bv32 := 0x02
  const V1: bv32 := 0x03
  const A0: bv32 := 0x04
  const A1: bv32 := 0x05
  const A2: bv32 := 0x06
  const A3: bv32 := 0x07
  const T0: bv32 := 0x08
  const T1: bv32 := 0x09
  const T2: bv32 := 0x0A
  const T3: bv32 := 0x0B
  const T4: bv32 := 0x0C
  const T5: bv32 := 0x0D
  const T6: bv32 := 0x0E
  const T7: bv32 := 0x0F
  const T8: bv32 := 0x18
  const T9: bv32 := 0x19
  const S0: bv32 := 0x10
  const S1: bv32 := 0x11
  const S2: bv32 := 0x12
  const S3: bv32 := 0x13
  const S4: bv32 := 0x14
  const S5: bv32 := 0x15
  const S6: bv32 := 0x16
  const S7: bv32 := 0x17
  const S8: bv32 := 0x1E
  const K0: bv32 := 0x1A
  const K1: bv32 := 0x1B
  const GP: bv32 := 0x1C
  const SP: bv32 := 0x1D
  const RA: bv32 := 0x1F

  // ---------------------------------------------------------------------
  // Field decoders: the reference against which every encoder is stated
  // ---------------------------------------------------------------------

  /** Bits 31:26. */
  function OpcodeField(w: bv32): bv32 { w >> 26 }
  /** Bits 25:21 (rs in MIPS32, rt in microMIPS). */
  function RsField(w: bv32): bv32 { (w >> 21) & 0x1F }
  /** Bits 20:16 (rt in MIPS32, rs in microMIPS). */
  function RtField(w: bv32): bv32 { (w >> 16) & 0x1F }
  /** Bits 15:11. */
  function RdField(w: bv32): bv32 { (w >> 11) & 0x1F }
  /** Bits 10:6. */
  function ShamtField(w: bv32): bv32 { (w >> 6) & 0x1F }
  /** Bits 5:0. */
  function FunctField(w: bv32): bv32 { w & 0x3F }
  /** Bits 15:0. */
  function ImmField(w: bv32): bv32 { w & 0xFFFF }
  /** Bits 25:0. */
  function TargetField(w: bv32): bv32 { w & 0x3FFFFFF }
  /** Bits 10:0: the minor opcode of a microMIPS POOL32A instruction. */
  function Pool32AMinorField(w: bv32): bv32 { w & 0x7FF }
  /** Bits 15:6: the extension code of a microMIPS POOL32AXF instruction. */
  function Pool32AxfExtField(w: bv32): bv32 { (w >> 6) & 0x3FF }
  /** Bits 15:12: the function code of a microMIPS POOL32B instruction. */
  function Pool32BFuncField(w: bv32): bv32 { (w >> 12) & 0xF }
  /** Bits 11:0: the offset of a microMIPS POOL32B instruction. */
  function Pool32BOffsetField(w: bv32): bv32 { w & 0xFFF }

  predicate IsReg(x: bv32) { x < 32 }
  predicate IsImm16(x: bv32) { x < 0x10000 }

  /** `w` is an immediate-format word with the given fields. */
  predicate IForm(w: bv32, op: bv32, rs: bv32, rt: bv32, imm: bv32) {
    OpcodeField(w) == op && RsField(w) == rs && RtField(w) == rt && ImmField(w) == imm
  }

  /** `w` is a register-format word with the given fields. */
  predicate RForm(w: bv32, op: bv32, rs: bv32, rt: bv32, rd: bv32, sa: bv32, fn: bv32) {
    OpcodeField(w) == op && RsField(w) == rs && RtField(w) == rt
    && RdField(w) == rd && ShamtField(w) == sa && FunctField(w) == fn
  }

  /** `w` is a microMIPS POOL32A word with the given register fields and minor opcode. */
  predicate Pool32AForm(w: bv32, hi: bv32, lo: bv32, rd: bv32, minor: bv32) {
    OpcodeField(w) == POOL32A && RsField(w) == hi && RtField(w) == lo
    && RdField(w) == rd && Pool32AMinorField(w) == minor
  }

  /** `w` is a microMIPS POOL32AXF word with the given register fields and extension code. */
  predicate Pool32AxfForm(w: bv32, hi: bv32, lo: bv32, ext: bv32) {
    OpcodeField(w) == POOL32A && RsField(w) == hi && RtField(w) == lo
    && Pool32AxfExtField(w) == ext && FunctField(w) == POOL32AXF
  }

  // ---------------------------------------------------------------------
  // Field packers
  // ---------------------------------------------------------------------

  /** Immediate format: opcode, two register fields and a 16-bit immediate. */
  function IInst(opcode: bv32, rs: bv32, rt: bv32, imm: bv32): (w: bv32)
    ensures opcode < 64 && IsReg(rs) && IsReg(rt) && IsImm16(imm) ==>
              IForm(w, opcode, rs, rt, imm)
  {
    IInstHighFields(opcode, rs, rt, imm);
    IInstLowFields(opcode, rs, rt, imm);
    (opcode << 26) | (rs << 21) | (rt << 16) | imm
  }

  // The immediate-format decoding, split in two small bit-vector obligations.
  lemma IInstHighFields(opcode: bv32, rs: bv32, rt: bv32, imm: bv32)
    ensures opcode < 64 && IsReg(rs) && IsReg(rt) && IsImm16(imm) ==>
              var w := (opcode << 26) | (rs << 21) | (rt << 16) | imm;
              OpcodeField(w) == opcode && RsField(w) == rs
  {
  }

  lemma IInstLowFields(opcode: bv32, rs: bv32, rt: bv32, imm: bv32)
    ensures opcode < 64 && IsReg(rs) && IsReg(rt) && IsImm16(imm) ==>
              var w := (opcode << 26) | (rs << 21) | (rt << 16) | imm;
              RtField(w) == rt && ImmField(w) == imm
  {
  }

  /** Jump format: opcode and a 26-bit target. */
  function JInst(opcode: bv32, addr: bv32): (w: bv32)
    ensures opcode < 64 && addr < 0x4000000 ==>
              OpcodeField(w) == opcode && TargetField(w) == addr
  {
    (opcode << 26) | addr
  }

  /** Register format: opcode, three register fields, shift amount and function code. */
  function RInst(opcode: bv32, rs: bv32, rt: bv32, rd: bv32, shft: bv32, funct: bv32): (w: bv32)
    ensures opcode < 64 && IsReg(rs) && IsReg(rt) && IsReg(rd) && IsReg(shft) && funct < 64 ==>
              RForm(w, opcode, rs, rt, rd, shft, funct)
  {
    RInstHighFields(opcode, rs, rt, rd, shft, funct);
    RInstLowFields(opcode, rs, rt, rd, shft, funct);
    (opcode << 26) | (rs << 21) | (rt << 16) | (rd << 11) | (shft << 6) | funct
  }

  // The two halves of the register-format decoding, kept apart so that each
  // bit-vector obligation stays small.
  lemma RInstHighFields(opcode: bv32, rs: bv32, rt: bv32, rd: bv32, shft: bv32, funct: bv32)
    ensures opcode < 64 && IsReg(rs) && IsReg(rt) && IsReg(rd) && IsReg(shft) && funct < 64 ==>
              var w := (opcode << 26) | (rs << 21) | (rt << 16) | (rd << 11) | (shft << 6) | funct;
              OpcodeField(w) == opcode && RsField(w) == rs && RtField(w) == rt
  {
  }

  lemma RInstLowFields(opcode: bv32, rs: bv32, rt: bv32, rd: bv32, shft: bv32, funct: bv32)
    ensures opcode < 64 && IsReg(rs) && IsReg(rt) && IsReg(rd) && IsReg(shft) && funct < 64 ==>
              var w := (opcode << 26) | (rs << 21) | (rt << 16) | (rd << 11) | (shft << 6) | funct;
              RdField(w) == rd && ShamtField(w) == shft && FunctField(w) == funct
  {
  }

  /**
   * microMIPS POOL32A words reuse the register packer with a function code
   * wider than six bits; when the shift amount is zero it lands whole in
   * the 11-bit minor field.
   */
  lemma RInstPool32A(rs: bv32, rt: bv32, rd: bv32, minor: bv32)
    ensures IsReg(rs) && IsReg(rt) && IsReg(rd) && minor < 0x400 ==>
              Pool32AForm(RInst(POOL32A, rs, rt, rd, 0, minor), rs, rt, rd, minor)
  {
    RInstHighFields(POOL32A, rs, rt, rd, 0, minor);
    Pool32ALowFields(rs, rt, rd, minor);
  }

  lemma Pool32ALowFields(rs: bv32, rt: bv32, rd: bv32, minor: bv32)
    ensures IsReg(rs) && IsReg(rt) && IsReg(rd) && minor < 0x400 ==>
              var w := (rs << 21) | (rt << 16) | (rd << 11) | minor;
              RdField(w) == rd && Pool32AMinorField(w) == minor
  {
  }

  /**
   * microMIPS POOL32AXF words put a 10-bit extension code across the rd and
   * shift fields; with rd zero it lands whole in bits 15:6.
   */
  lemma RInstPool32Axf(rs: bv32, rt: bv32, ext: bv32)
    ensures IsReg(rs) && IsReg(rt) && ext < 0x400 ==>
              Pool32AxfForm(RInst(POOL32A, rs, rt, 0, ext, POOL32AXF), rs, rt, ext)
  {
    Pool32AxfHighFields(rs, rt, ext);
    Pool32AxfLowFields(rs, rt, ext);
  }

  lemma Pool32AxfHighFields(rs: bv32, rt: bv32, ext: bv32)
    ensures IsReg(rs) && IsReg(rt) && ext < 0x400 ==>
              var w := (POOL32A << 26) | (rs << 21) | (rt << 16) | (0 << 11) | (ext << 6) | POOL32AXF;
              OpcodeField(w) == POOL32A && RsField(w) == rs && RtField(w) == rt
  {
  }

  lemma Pool32AxfLowFields(rs: bv32, rt: bv32, ext: bv32)
    ensures IsReg(rs) && IsReg(rt) && ext < 0x400 ==>
              var w := (POOL32A << 26) | (rs << 21) | (rt << 16) | (0 << 11) | (ext << 6) | POOL32AXF;
              Pool32AxfExtField(w) == ext && FunctField(w) == POOL32AXF
  {
  }

  /**
   * Nothing is masked: an opcode wider than six bits loses its high bits,
   * and an immediate wider than 16 bits spills into the rt field.
   */
  lemma IInstOverflow(opcode: bv32, rs: bv32, rt: bv32, imm: bv32)
    ensures IInst(opcode | 0x40, rs, rt, imm) == IInst(opcode, rs, rt, imm)
    ensures IInst(0, 0, 0, 0x10000) == IInst(0, 0, 1, 0)
  {
  }

  // ---------------------------------------------------------------------
  // MIPS32 encoders: rs holds `src`/`base`, rt holds `tar`/`reg`
  // ---------------------------------------------------------------------

  function IsaAddi(tar: bv32, src: bv32, val: bv32): (w: bv32)
    ensures IsReg(tar) && IsReg(src) && IsImm16(val) ==> IForm(w, MIPS32_OP_ADDI, src, tar, val)
  {
    IInst(MIPS32_OP_ADDI, src, tar, val)
  }

  function IsaAddiu(tar: bv32, src: bv32, val: bv32): (w: bv32)
    ensures IsReg(tar) && IsReg(src) && IsImm16(val) ==> IForm(w, MIPS32_OP_ADDIU, src, tar, val)
  {
    IInst(MIPS32_OP_ADDIU, src, tar, val)
  }

  function IsaAddu(dst: bv32, src: bv32, tar: bv32): (w: bv32)
    ensures IsReg(dst) && IsReg(src) && IsReg(tar) ==>
              RForm(w, MIPS32_OP_SPECIAL, src, tar, dst, 0, MIPS32_OP_ADDU)
  {
    RInst(MIPS32_OP_SPECIAL, src, tar, dst, 0, MIPS32_OP_ADDU)
  }

  function IsaAnd(dst: bv32, src: bv32, tar: bv32): (w: bv32)
    ensures IsReg(dst) && IsReg(src) && IsReg(tar) ==>
              RForm(w, MIPS32_OP_SPECIAL, src, tar, dst, 0, MIPS32_OP_AND)
  {
    RInst(0, src, tar, dst, 0, MIPS32_OP_AND)
  }

  function IsaAndi(tar: bv32, src: bv32, val: bv32): (w: bv32)
    ensures IsReg(tar) && IsReg(src) && IsImm16(val) ==> IForm(w, MIPS32_OP_ANDI, src, tar, val)
  {
    IInst(MIPS32_OP_ANDI, src, tar, val)
  }

  /** Unconditional branch: `beq $0, $0, off`. */
  function IsaB(off: bv32): (w: bv32)
    ensures IsImm16(off) ==> IForm(w, MIPS32_OP_BEQ, 0, 0, off)
  {
    IsaBeq(0, 0, off)
  }

  function IsaBeq(src: bv32, tar: bv32, off: bv32): (w: bv32)
    ensures IsReg(src) && IsReg(tar) && IsImm16(off) ==> IForm(w, MIPS32_OP_BEQ, src, tar, off)
  {
    IInst(MIPS32_OP_BEQ, src, tar, off)
  }

  function IsaBgtz(reg: bv32, off: bv32): (w: bv32)
    ensures IsReg(reg) && IsImm16(off) ==> IForm(w, MIPS32_OP_BGTZ, reg, 0, off)
  {
    IInst(MIPS32_OP_BGTZ, reg, 0, off)
  }

  function IsaBne(src: bv32, tar: bv32, off: bv32): (w: bv32)
    ensures IsReg(src) && IsReg(tar) && IsImm16(off) ==> IForm(w, MIPS32_OP_BNE, src, tar, off)
  {
    IInst(MIPS32_OP_BNE, src, tar, off)
  }

  function IsaCache(op: bv32, off: bv32, base: bv32): (w: bv32)
    ensures IsReg(op) && IsImm16(off) && IsReg(base) ==> IForm(w, MIPS32_OP_CACHE, base, op, off)
  {
    IInst(MIPS32_OP_CACHE, base, op, off)
  }

  /**
   * Absolute jump within the current 256 MB region: the target field holds
   * address bits 27:2, so bits 31:28 and 1:0 of `tar` do not reach the word.
   */
  function IsaJ(tar: bv32): (w: bv32)
    ensures OpcodeField(w) == MIPS32_OP_J
    ensures TargetField(w) << 2 == tar & 0x0FFFFFFC
  {
    IsaJFields(tar);
    JInst(MIPS32_OP_J, (0x0FFFFFFF & tar) >> 2)
  }

  lemma IsaJFields(tar: bv32)
    ensures var w := (MIPS32_OP_J << 26) | ((0x0FFFFFFF & tar) >> 2);
            OpcodeField(w) == MIPS32_OP_J && TargetField(w) << 2 == tar & 0x0FFFFFFC
  {
  }

  function IsaJr(reg: bv32): (w: bv32)
    ensures IsReg(reg) ==> RForm(w, MIPS32_OP_SPECIAL, reg, 0, 0, 0, MIPS32_OP_JR)
  {
    RInst(0, reg, 0, 0, 0, MIPS32_OP_JR)
  }

  function IsaLb(reg: bv32, off: bv32, base: bv32): (w: bv32)
    ensures IsReg(reg) && IsImm16(off) && IsReg(base) ==> IForm(w, MIPS32_OP_LB, base, reg, off)
  {
    IInst(MIPS32_OP_LB, base, reg, off)
  }

  function IsaLbu(reg: bv32, off: bv32, base: bv32): (w: bv32)
    ensures IsReg(reg) && IsImm16(off) && IsReg(base) ==> IForm(w, MIPS32_OP_LBU, base, reg, off)
  {
    IInst(MIPS32_OP_LBU, base, reg, off)
  }

  function IsaLhu(reg: bv32, off: bv32, base: bv32): (w: bv32)
    ensures IsReg(reg) && IsImm16(off) && IsReg(base) ==> IForm(w, MIPS32_OP_LHU, base, reg, off)
  {
    IInst(MIPS32_OP_LHU, base, reg, off)
  }

  function IsaLui(reg: bv32, val: bv32): (w: bv32)
    ensures IsReg(reg) && IsImm16(val) ==> IForm(w, MIPS32_OP_LUI, 0, reg, val)
  {
    IInst(MIPS32_OP_LUI, 0, reg, val)
  }

  function IsaLw(reg: bv32, off: bv32, base: bv32): (w: bv32)
    ensures IsReg(reg) && IsImm16(off) && IsReg(base) ==> IForm(w, MIPS32_OP_LW, base, reg, off)
  {
    IInst(MIPS32_OP_LW, base, reg, off)
  }

  function IsaMfc0(gpr: bv32, cpr: bv32, sel: bv32): (w: bv32)
    ensures IsReg(gpr) && IsReg(cpr) && sel < 64 ==>
              RForm(w, MIPS32_OP_COP0, MIPS32_COP0_MF, gpr, cpr, 0, sel)
  {
    RInst(MIPS32_OP_COP0, MIPS32_COP0_MF, gpr, cpr, 0, sel)
  }

  function IsaMtc0(gpr: bv32, cpr: bv32, sel: bv32): (w: bv32)
    ensures IsReg(gpr) && IsReg(cpr) && sel < 64 ==>
              RForm(w, MIPS32_OP_COP0, MIPS32_COP0_MT, gpr, cpr, 0, sel)
  {
    RInst(MIPS32_OP_COP0, MIPS32_COP0_MT, gpr, cpr, 0, sel)
  }

  function IsaMflo(reg: bv32): (w: bv32)
    ensures IsReg(reg) ==> RForm(w, MIPS32_OP_SPECIAL, 0, 0, reg, 0, MIPS32_OP_MFLO)
  {
    RInst(0, 0, 0, reg, 0, MIPS32_OP_MFLO)
  }

  function IsaMfhi(reg: bv32): (w: bv32)
    ensures IsReg(reg) ==> RForm(w, MIPS32_OP_SPECIAL, 0, 0, reg, 0, MIPS32_OP_MFHI)
  {
    RInst(0, 0, 0, reg, 0, MIPS32_OP_MFHI)
  }

  function IsaMtlo(reg: bv32): (w: bv32)
    ensures IsReg(reg) ==> RForm(w, MIPS32_OP_SPECIAL, reg, 0, 0, 0, MIPS32_OP_MTLO)
  {
    RInst(0, reg, 0, 0, 0, MIPS32_OP_MTLO)
  }

  function IsaMthi(reg: bv32): (w: bv32)
    ensures IsReg(reg) ==> RForm(w, MIPS32_OP_SPECIAL, reg, 0, 0, 0, MIPS32_OP_MTHI)
  {
    RInst(0, reg, 0, 0, 0, MIPS32_OP_MTHI)
  }

  function IsaMovn(dst: bv32, src: bv32, tar: bv32): (w: bv32)
    ensures IsReg(dst) && IsReg(src) && IsReg(tar) ==>
              RForm(w, MIPS32_OP_SPECIAL, src, tar, dst, 0, MIPS32_OP_MOVN)
  {
    RInst(MIPS32_OP_SPECIAL, src, tar, dst, 0, MIPS32_OP_MOVN)
  }

  function IsaOri(tar: bv32, src: bv32, val: bv32): (w: bv32)
    ensures IsReg(tar) && IsReg(src) && IsImm16(val) ==> IForm(w, MIPS32_OP_ORI, src, tar, val)
  {
    IInst(MIPS32_OP_ORI, src, tar, val)
  }

  function IsaRdhwr(tar: bv32, dst: bv32): (w: bv32)
    ensures IsReg(tar) && IsReg(dst) ==>
              RForm(w, MIPS32_OP_SPECIAL3, 0, tar, dst, 0, MIPS32_OP_RDHWR)
  {
    RInst(MIPS32_OP_SPECIAL3, 0, tar, dst, 0, MIPS32_OP_RDHWR)
  }

  function IsaSb(reg: bv32, off: bv32, base: bv32): (w: bv32)
    ensures IsReg(reg) && IsImm16(off) && IsReg(base) ==> IForm(w, MIPS32_OP_SB, base, reg, off)
  {
    IInst(MIPS32_OP_SB, base, reg, off)
  }

  function IsaSh(reg: bv32, off: bv32, base: bv32): (w: bv32)
    ensures IsReg(reg) && IsImm16(off) && IsReg(base) ==> IForm(w, MIPS32_OP_SH, base, reg, off)
  {
    IInst(MIPS32_OP_SH, base, reg, off)
  }

  function IsaSw(reg: bv32, off: bv32, base: bv32): (w: bv32)
    ensures IsReg(reg) && IsImm16(off) && IsReg(base) ==> IForm(w, MIPS32_OP_SW, base, reg, off)
  {
    IInst(MIPS32_OP_SW, base, reg, off)
  }

  function IsaSll(dst: bv32, src: bv32, sa: bv32): (w: bv32)
    ensures IsReg(dst) && IsReg(src) && IsReg(sa) ==>
              RForm(w, MIPS32_OP_SPECIAL, 0, src, dst, sa, MIPS32_OP_SLL)
  {
    RInst(MIPS32_OP_SPECIAL, 0, src, dst, sa, MIPS32_OP_SLL)
  }

  function IsaSlti(tar: bv32, src: bv32, val: bv32): (w: bv32)
    ensures IsReg(tar) && IsReg(src) && IsImm16(val) ==> IForm(w, MIPS32_OP_SLTI, src, tar, val)
  {
    IInst(MIPS32_OP_SLTI, src, tar, val)
  }

  function IsaSltu(dst: bv32, src: bv32, tar: bv32): (w: bv32)
    ensures IsReg(dst) && IsReg(src) && IsReg(tar) ==>
              RForm(w, MIPS32_OP_SPECIAL, src, tar, dst, 0, MIPS32_OP_SLTU)
  {
    RInst(MIPS32_OP_SPECIAL, src, tar, dst, 0, MIPS32_OP_SLTU)
  }

  /**
   * Logical shift right as probe-rs writes it: its function code 0x03 is
   * the code the MIPS32 standard gives to SRA, the arithmetic shift.
   */
  function IsaSrlAsWritten(reg: bv32, src: bv32, off: bv32): (w: bv32)
    ensures IsReg(reg) && IsReg(src) && IsReg(off) ==>
              RForm(w, MIPS32_OP_SPECIAL, 0, src, reg, off, MIPS32_STD_FUNCT_SRA)
  {
    RInst(0, 0, src, reg, off, MIPS32_OP_SRL)
  }

  /** Logical shift right with the standard SRL function code. */
  function IsaSrl(reg: bv32, src: bv32, off: bv32): (w: bv32)
    ensures IsReg(reg) && IsReg(src) && IsReg(off) ==>
              RForm(w, MIPS32_OP_SPECIAL, 0, src, reg, off, MIPS32_STD_FUNCT_SRL)
  {
    RInst(0, 0, src, reg, off, MIPS32_STD_FUNCT_SRL)
  }

  /**
   * The word probe-rs emits for `srl` is not an SRL word under the MIPS32
   * standard: it is the standard SRA word for the same operands.
   */
  lemma SrlAsWrittenIsSra(reg: bv32, src: bv32, off: bv32)
    requires IsReg(reg) && IsReg(src) && IsReg(off)
    ensures IsaSrlAsWritten(reg, src, off) == RInst(MIPS32_OP_SPECIAL, 0, src, reg, off, MIPS32_STD_FUNCT_SRA)
    ensures IsaSrlAsWritten(reg, src, off) != IsaSrl(reg, src, off)
  {
  }

  function IsaSync(): (w: bv32)
    ensures RForm(w, MIPS32_OP_SPECIAL, 0, 0, 0, 0, 0x0F)
  {
    0xF
  }

  function IsaSynci(off: bv32, base: bv32): (w: bv32)
    ensures IsImm16(off) && IsReg(base) ==> IForm(w, MIPS32_OP_REGIMM, base, MIPS32_OP_SYNCI, off)
  {
    IInst(MIPS32_OP_REGIMM, base, MIPS32_OP_SYNCI, off)
  }

  function IsaXor(reg: bv32, val1: bv32, val2: bv32): (w: bv32)
    ensures IsReg(reg) && IsReg(val1) && IsReg(val2) ==>
              RForm(w, MIPS32_OP_SPECIAL, val1, val2, reg, 0, MIPS32_OP_XOR)
  {
    RInst(0, val1, val2, reg, 0, MIPS32_OP_XOR)
  }

  function IsaXori(tar: bv32, src: bv32, val: bv32): (w: bv32)
    ensures IsReg(tar) && IsReg(src) && IsImm16(val) ==> IForm(w, MIPS32_OP_XORI, src, tar, val)
  {
    IInst(MIPS32_OP_XORI, src, tar, val)
  }

  // ---------------------------------------------------------------------
  // microMIPS encoders: bits 25:21 hold `tar`/`reg`, bits 20:16 `src`/`base`
  // ---------------------------------------------------------------------

  function MmAddi(tar: bv32, src: bv32, val: bv32): (w: bv32)
    ensures IsReg(tar) && IsReg(src) && IsImm16(val) ==> IForm(w, MMIPS32_OP_ADDI, tar, src, val)
  {
    IInst(MMIPS32_OP_ADDI, tar, src, val)
  }

  function MmAddiu(tar: bv32, src: bv32, val: bv32): (w: bv32)
    ensures IsReg(tar) && IsReg(src) && IsImm16(val) ==> IForm(w, MMIPS32_OP_ADDIU, tar, src, val)
  {
    IInst(MMIPS32_OP_ADDIU, tar, src, val)
  }

  function MmAddu(dst: bv32, src: bv32, tar: bv32): (w: bv32)
    ensures IsReg(dst) && IsReg(src) && IsReg(tar) ==> Pool32AForm(w, tar, src, dst, MMIPS32_OP_ADDU)
  {
    RInstPool32A(tar, src, dst, MMIPS32_OP_ADDU);
    RInst(POOL32A, tar, src, dst, 0, MMIPS32_OP_ADDU)
  }

  function MmAnd(dst: bv32, src: bv32, tar: bv32): (w: bv32)
    ensures IsReg(dst) && IsReg(src) && IsReg(tar) ==> Pool32AForm(w, tar, src, dst, MMIPS32_OP_AND)
  {
    RInstPool32A(tar, src, dst, MMIPS32_OP_AND);
    RInst(POOL32A, tar, src, dst, 0, MMIPS32_OP_AND)
  }

  function MmAndi(tar: bv32, src: bv32, val: bv32): (w: bv32)
    ensures IsReg(tar) && IsReg(src) && IsImm16(val) ==> IForm(w, MMIPS32_OP_ANDI, tar, src, val)
  {
    IInst(MMIPS32_OP_ANDI, tar, src, val)
  }

  function MmB(off: bv32): (w: bv32)
    ensures IsImm16(off) ==> IForm(w, MMIPS32_OP_BEQ, 0, 0, off)
  {
    MmBeq(0, 0, off)
  }

  function MmBeq(src: bv32, tar: bv32, off: bv32): (w: bv32)
    ensures IsReg(src) && IsReg(tar) && IsImm16(off) ==> IForm(w, MMIPS32_OP_BEQ, tar, src, off)
  {
    IInst(MMIPS32_OP_BEQ, tar, src, off)
  }

  function MmBgtz(reg: bv32, off: bv32): (w: bv32)
    ensures IsReg(reg) && IsImm16(off) ==> IForm(w, POOL32I, MMIPS32_OP_BGTZ, reg, off)
  {
    IInst(POOL32I, MMIPS32_OP_BGTZ, reg, off)
  }

  function MmBne(src: bv32, tar: bv32, off: bv32): (w: bv32)
    ensures IsReg(src) && IsReg(tar) && IsImm16(off) ==> IForm(w, MMIPS32_OP_BNE, tar, src, off)
  {
    IInst(MMIPS32_OP_BNE, tar, src, off)
  }

  /**
   * POOL32B CACHE: the function code sits in bits 15:12 (passed as rd
   * shifted by one) and the 12-bit offset in bits 11:0.
   */
  function MmCache(op: bv32, off: bv32, base: bv32): (w: bv32)
    ensures IsReg(op) && off < 0x1000 && IsReg(base) ==>
              OpcodeField(w) == POOL32B && RsField(w) == op && RtField(w) == base
              && Pool32BFuncField(w) == MMIPS32_OP_CACHE && Pool32BOffsetField(w) == off
  {
    RInst(POOL32B, op, base, MMIPS32_OP_CACHE << 1, 0, off)
  }

  /**
   * microMIPS jump: the target field holds address bits 26:1. The mask is
   * 27 bits wide, so bit 27 of `tar` reaches bit 26 of the word, where the
   * opcode 0x35 already has a one: the opcode survives and the bit is lost.
   */
  function MmJ(tar: bv32): (w: bv32)
    ensures OpcodeField(w) == MMIPS32_OP_J
    ensures TargetField(w) << 1 == tar & 0x07FFFFFE
  {
    MmJFields(tar);
    JInst(MMIPS32_OP_J, 0x07FFFFFF & (tar >> 1))
  }

  lemma MmJFields(tar: bv32)
    ensures var w := (MMIPS32_OP_J << 26) | (0x07FFFFFF & (tar >> 1));
            OpcodeField(w) == MMIPS32_OP_J && TargetField(w) << 1 == tar & 0x07FFFFFE
  {
  }

  /** `jalr $0, reg`: a jump that links into the zero register. */
  function MmJr(reg: bv32): (w: bv32)
    ensures IsReg(reg) ==> Pool32AxfForm(w, 0, reg, MMIPS32_OP_JALR)
  {
    RInstPool32Axf(0, reg, MMIPS32_OP_JALR);
    RInst(POOL32A, 0, reg, 0, MMIPS32_OP_JALR, POOL32AXF)
  }

  function MmLb(reg: bv32, off: bv32, base: bv32): (w: bv32)
    ensures IsReg(reg) && IsImm16(off) && IsReg(base) ==> IForm(w, MMIPS32_OP_LB, reg, base, off)
  {
    IInst(MMIPS32_OP_LB, reg, base, off)
  }

  function MmLbu(reg: bv32, off: bv32, base: bv32): (w: bv32)
    ensures IsReg(reg) && IsImm16(off) && IsReg(base) ==> IForm(w, MMIPS32_OP_LBU, reg, base, off)
  {
    IInst(MMIPS32_OP_LBU, reg, base, off)
  }

  function MmLhu(reg: bv32, off: bv32, base: bv32): (w: bv32)
    ensures IsReg(reg) && IsImm16(off) && IsReg(base) ==> IForm(w, MMIPS32_OP_LHU, reg, base, off)
  {
    IInst(MMIPS32_OP_LHU, reg, base, off)
  }

  function MmLui(reg: bv32, val: bv32): (w: bv32)
    ensures IsReg(reg) && IsImm16(val) ==> IForm(w, POOL32I, MMIPS32_OP_LUI, reg, val)
  {
    IInst(POOL32I, MMIPS32_OP_LUI, reg, val)
  }

  function MmLw(reg: bv32, off: bv32, base: bv32): (w: bv32)
    ensures IsReg(reg) && IsImm16(off) && IsReg(base) ==> IForm(w, MMIPS32_OP_LW, reg, base, off)
  {
    IInst(MMIPS32_OP_LW, reg, base, off)
  }

  function MmMfc0(gpr: bv32, cpr: bv32, sel: bv32): (w: bv32)
    ensures IsReg(gpr) && IsReg(cpr) && IsReg(sel) ==>
              RForm(w, POOL32A, gpr, cpr, sel, MMIPS32_OP_MFC0, POOL32AXF)
  {
    RInst(POOL32A, gpr, cpr, sel, MMIPS32_OP_MFC0, POOL32AXF)
  }

  function MmMflo(reg: bv32): (w: bv32)
    ensures IsReg(reg) ==> Pool32AxfForm(w, 0, reg, MMIPS32_OP_MFLO)
  {
    RInstPool32Axf(0, reg, MMIPS32_OP_MFLO);
    RInst(POOL32A, 0, reg, 0, MMIPS32_OP_MFLO, POOL32AXF)
  }

  function MmMfhi(reg: bv32): (w: bv32)
    ensures IsReg(reg) ==> Pool32AxfForm(w, 0, reg, MMIPS32_OP_MFHI)
  {
    RInstPool32Axf(0, reg, MMIPS32_OP_MFHI);
    RInst(POOL32A, 0, reg, 0, MMIPS32_OP_MFHI, POOL32AXF)
  }

  function MmMtc0(gpr: bv32, cpr: bv32, sel: bv32): (w: bv32)
    ensures IsReg(gpr) && IsReg(cpr) && IsReg(sel) ==>
              RForm(w, POOL32A, gpr, cpr, sel, MMIPS32_OP_MTC0, POOL32AXF)
  {
    RInst(POOL32A, gpr, cpr, sel, MMIPS32_OP_MTC0, POOL32AXF)
  }

  function MmMtlo(reg: bv32): (w: bv32)
    ensures IsReg(reg) ==> Pool32AxfForm(w, 0, reg, MMIPS32_OP_MTLO)
  {
    RInstPool32Axf(0, reg, MMIPS32_OP_MTLO);
    RInst(POOL32A, 0, reg, 0, MMIPS32_OP_MTLO, POOL32AXF)
  }

  function MmMthi(reg: bv32): (w: bv32)
    ensures IsReg(reg) ==> Pool32AxfForm(w, 0, reg, MMIPS32_OP_MTHI)
  {
    RInstPool32Axf(0, reg, MMIPS32_OP_MTHI);
    RInst(POOL32A, 0, reg, 0, MMIPS32_OP_MTHI, POOL32AXF)
  }

  function MmMovn(dst: bv32, src: bv32, tar: bv32): (w: bv32)
    ensures IsReg(dst) && IsReg(src) && IsReg(tar) ==> Pool32AForm(w, tar, src, dst, MMIPS32_OP_MOVN)
  {
    RInstPool32A(tar, src, dst, MMIPS32_OP_MOVN);
    RInst(POOL32A, tar, src, dst, 0, MMIPS32_OP_MOVN)
  }

  function MmOri(tar: bv32, src: bv32, val: bv32): (w: bv32)
    ensures IsReg(tar) && IsReg(src) && IsImm16(val) ==> IForm(w, MMIPS32_OP_ORI, tar, src, val)
  {
    IInst(MMIPS32_OP_ORI, tar, src, val)
  }

  function MmRdhwr(tar: bv32, dst: bv32): (w: bv32)
    ensures IsReg(tar) && IsReg(dst) ==> Pool32AxfForm(w, dst, tar, MMIPS32_OP_RDHWR)
  {
    RInstPool32Axf(dst, tar, MMIPS32_OP_RDHWR);
    RInst(POOL32A, dst, tar, 0, MMIPS32_OP_RDHWR, POOL32AXF)
  }

  function MmSb(reg: bv32, off: bv32, base: bv32): (w: bv32)
    ensures IsReg(reg) && IsImm16(off) && IsReg(base) ==> IForm(w, MMIPS32_OP_SB, reg, base, off)
  {
    IInst(MMIPS32_OP_SB, reg, base, off)
  }

  function MmSh(reg: bv32, off: bv32, base: bv32): (w: bv32)
    ensures IsReg(reg) && IsImm16(off) && IsReg(base) ==> IForm(w, MMIPS32_OP_SH, reg, base, off)
  {
    IInst(MMIPS32_OP_SH, reg, base, off)
  }

  function MmSw(reg: bv32, off: bv32, base: bv32): (w: bv32)
    ensures IsReg(reg) && IsImm16(off) && IsReg(base) ==> IForm(w, MMIPS32_OP_SW, reg, base, off)
  {
    IInst(MMIPS32_OP_SW, reg, base, off)
  }

  /** The shift amount travels in bits 15:11. */
  function MmSrl(reg: bv32, src: bv32, off: bv32): (w: bv32)
    ensures IsReg(reg) && IsReg(src) && IsReg(off) ==> Pool32AForm(w, reg, src, off, MMIPS32_OP_SRL)
  {
    RInstPool32A(reg, src, off, MMIPS32_OP_SRL);
    RInst(POOL32A, reg, src, off, 0, MMIPS32_OP_SRL)
  }

  function MmSltu(dst: bv32, src: bv32, tar: bv32): (w: bv32)
    ensures IsReg(dst) && IsReg(src) && IsReg(tar) ==> Pool32AForm(w, tar, src, dst, MMIPS32_OP_SLTU)
  {
    RInstPool32A(tar, src, dst, MMIPS32_OP_SLTU);
    RInst(POOL32A, tar, src, dst, 0, MMIPS32_OP_SLTU)
  }

  function MmSynci(off: bv32, base: bv32): (w: bv32)
    ensures IsImm16(off) && IsReg(base) ==> IForm(w, POOL32I, MMIPS32_OP_SYNCI, base, off)
  {
    IInst(POOL32I, MMIPS32_OP_SYNCI, base, off)
  }

  /** The shift amount travels in bits 15:11. */
  function MmSll(dst: bv32, src: bv32, sa: bv32): (w: bv32)
    ensures IsReg(dst) && IsReg(src) && IsReg(sa) ==> Pool32AForm(w, dst, src, sa, MMIPS32_OP_SLL)
  {
    RInstPool32A(dst, src, sa, MMIPS32_OP_SLL);
    RInst(POOL32A, dst, src, sa, 0, MMIPS32_OP_SLL)
  }

  function MmSlti(tar: bv32, src: bv32, val: bv32): (w: bv32)
    ensures IsReg(tar) && IsReg(src) && IsImm16(val) ==> IForm(w, MMIPS32_OP_SLTI, tar, src, val)
  {
    IInst(MMIPS32_OP_SLTI, tar, src, val)
  }

  /** microMIPS SYNC as probe-rs writes it: the literal word 0x1A7C. */
  function MmSyncAsWritten(): (w: bv32)
    ensures Pool32AxfForm(w, 0, 0, 0x069)
  {
    0x00001A7C
  }

  /** microMIPS SYNC: the POOL32AXF word with extension code 0x1AD. */
  function MmSync(): (w: bv32)
    ensures Pool32AxfForm(w, 0, 0, MMIPS32_EXT_SYNC)
  {
    RInstPool32Axf(0, 0, MMIPS32_EXT_SYNC);
    RInst(POOL32A, 0, 0, 0, MMIPS32_EXT_SYNC, POOL32AXF)
  }

  /**
   * The literal probe-rs returns is not the word its own formula
   * (POOL32A, extension 0x1AD, POOL32AXF) produces: it decodes to extension
   * 0x069, which is not SYNC.
   */
  lemma MmSyncAsWrittenIsNotSync()
    ensures MmSyncAsWritten() != MmSync()
    ensures Pool32AxfExtField(MmSyncAsWritten()) != MMIPS32_EXT_SYNC
    ensures MmSync() == 0x00006B7C
  {
  }

  function MmXor(reg: bv32, val1: bv32, val2: bv32): (w: bv32)
    ensures IsReg(reg) && IsReg(val1) && IsReg(val2) ==> Pool32AForm(w, val1, val2, reg, MMIPS32_OP_XOR)
  {
    RInstPool32A(val1, val2, reg, MMIPS32_OP_XOR);
    RInst(POOL32A, val1, val2, reg, 0, MMIPS32_OP_XOR)
  }

  function MmXori(tar: bv32, src: bv32, val: bv32): (w: bv32)
    ensures IsReg(tar) && IsReg(src) && IsImm16(val) ==> IForm(w, MMIPS32_OP_XORI, tar, src, val)
  {
    IInst(MMIPS32_OP_XORI, tar, src, val)
  }

  /**
   * Address step of SYNCI, the same for both encodings: probe-rs has three
   * identical functions for it, one per encoder family and the dispatcher.
   */
  function SynciStep(): (w: bv32)
    ensures w == 1
  {
    1
  }

  // ---------------------------------------------------------------------
  // Encoders that choose the family: microMIPS when `micro`, else MIPS32
  // ---------------------------------------------------------------------

  /** The all-zero word is `sll $0, $0, 0` in both families. */
  function Nop(): (w: bv32)
    ensures RForm(w, MIPS32_OP_SPECIAL, 0, 0, 0, 0, MIPS32_OP_SLL)
    ensures Pool32AForm(w, 0, 0, 0, MMIPS32_OP_SLL)
  {
    0
  }

  function Addi(micro: bool, tar: bv32, src: bv32, val: bv32): (w: bv32)
    ensures IsReg(tar) && IsReg(src) && IsImm16(val) ==>
              if micro then IForm(w, MMIPS32_OP_ADDI, tar, src, val)
              else IForm(w, MIPS32_OP_ADDI, src, tar, val)
  {
    if micro then MmAddi(tar, src, val) else IsaAddi(tar, src, val)
  }

  function Addiu(micro: bool, tar: bv32, src: bv32, val: bv32): (w: bv32)
    ensures IsReg(tar) && IsReg(src) && IsImm16(val) ==>
              if micro then IForm(w, MMIPS32_OP_ADDIU, tar, src, val)
              else IForm(w, MIPS32_OP_ADDIU, src, tar, val)
  {
    if micro then MmAddiu(tar, src, val) else IsaAddiu(tar, src, val)
  }

  function Addu(micro: bool, dst: bv32, src: bv32, tar: bv32): (w: bv32)
    ensures IsReg(dst) && IsReg(src) && IsReg(tar) ==>
              if micro then Pool32AForm(w, tar, src, dst, MMIPS32_OP_ADDU)
              else RForm(w, MIPS32_OP_SPECIAL, src, tar, dst, 0, MIPS32_OP_ADDU)
  {
    if micro then MmAddu(dst, src, tar) else IsaAddu(dst, src, tar)
  }

  function And(micro: bool, dst: bv32, src: bv32, tar: bv32): (w: bv32)
    ensures IsReg(dst) && IsReg(src) && IsReg(tar) ==>
              if micro then Pool32AForm(w, tar, src, dst, MMIPS32_OP_AND)
              else RForm(w, MIPS32_OP_SPECIAL, src, tar, dst, 0, MIPS32_OP_AND)
  {
    if micro then MmAnd(dst, src, tar) else IsaAnd(dst, src, tar)
  }

  function Andi(micro: bool, tar: bv32, src: bv32, val: bv32): (w: bv32)
    ensures IsReg(tar) && IsReg(src) && IsImm16(val) ==>
              if micro then IForm(w, MMIPS32_OP_ANDI, tar, src, val)
              else IForm(w, MIPS32_OP_ANDI, src, tar, val)
  {
    if micro then MmAndi(tar, src, val) else IsaAndi(tar, src, val)
  }

  function B(micro: bool, off: bv32): (w: bv32)
    ensures IsImm16(off) ==>
              if micro then IForm(w, MMIPS32_OP_BEQ, 0, 0, off)
              else IForm(w, MIPS32_OP_BEQ, 0, 0, off)
  {
    if micro then MmB(off) else IsaB(off)
  }

  function Beq(micro: bool, src: bv32, tar: bv32, off: bv32): (w: bv32)
    ensures IsReg(src) && IsReg(tar) && IsImm16(off) ==>
              if micro then IForm(w, MMIPS32_OP_BEQ, tar, src, off)
              else IForm(w, MIPS32_OP_BEQ, src, tar, off)
  {
    if micro then MmBeq(src, tar, off) else IsaBeq(src, tar, off)
  }

  function Bgtz(micro: bool, reg: bv32, off: bv32): (w: bv32)
    ensures IsReg(reg) && IsImm16(off) ==>
              if micro then IForm(w, POOL32I, MMIPS32_OP_BGTZ, reg, off)
              else IForm(w, MIPS32_OP_BGTZ, reg, 0, off)
  {
    if micro then MmBgtz(reg, off) else IsaBgtz(reg, off)
  }

  function Bne(micro: bool, src: bv32, tar: bv32, off: bv32): (w: bv32)
    ensures IsReg(src) && IsReg(tar) && IsImm16(off) ==>
              if micro then IForm(w, MMIPS32_OP_BNE, tar, src, off)
              else IForm(w, MIPS32_OP_BNE, src, tar, off)
  {
    if micro then MmBne(src, tar, off) else IsaBne(src, tar, off)
  }

  /** The microMIPS word has a 12-bit offset field, the MIPS32 word a 16-bit one. */
  function Cache(micro: bool, op: bv32, off: bv32, base: bv32): (w: bv32)
    ensures micro && IsReg(op) && off < 0x1000 && IsReg(base) ==>
              OpcodeField(w) == POOL32B && RsField(w) == op && RtField(w) == base
              && Pool32BFuncField(w) == MMIPS32_OP_CACHE && Pool32BOffsetField(w) == off
    ensures !micro && IsReg(op) && IsImm16(off) && IsReg(base) ==> IForm(w, MIPS32_OP_CACHE, base, op, off)
  {
    if micro then MmCache(op, off, base) else IsaCache(op, off, base)
  }

  function J(micro: bool, tar: bv32): (w: bv32)
    ensures micro ==> OpcodeField(w) == MMIPS32_OP_J && TargetField(w) << 1 == tar & 0x07FFFFFE
    ensures !micro ==> OpcodeField(w) == MIPS32_OP_J && TargetField(w) << 2 == tar & 0x0FFFFFFC
  {
    if micro then MmJ(tar) else IsaJ(tar)
  }

  function Jr(micro: bool, reg: bv32): (w: bv32)
    ensures IsReg(reg) ==>
              if micro then Pool32AxfForm(w, 0, reg, MMIPS32_OP_JALR)
              else RForm(w, MIPS32_OP_SPECIAL, reg, 0, 0, 0, MIPS32_OP_JR)
  {
    if micro then MmJr(reg) else IsaJr(reg)
  }

  function Lb(micro: bool, reg: bv32, off: bv32, base: bv32): (w: bv32)
    ensures IsReg(reg) && IsImm16(off) && IsReg(base) ==>
              if micro then IForm(w, MMIPS32_OP_LB, reg, base, off)
              else IForm(w, MIPS32_OP_LB, base, reg, off)
  {
    if micro then MmLb(reg, off, base) else IsaLb(reg, off, base)
  }

  function Lbu(micro: bool, reg: bv32, off: bv32, base: bv32): (w: bv32)
    ensures IsReg(reg) && IsImm16(off) && IsReg(base) ==>
              if micro then IForm(w, MMIPS32_OP_LBU, reg, base, off)
              else IForm(w, MIPS32_OP_LBU, base, reg, off)
  {
    if micro then MmLbu(reg, off, base) else IsaLbu(reg, off, base)
  }

  function Lhu(micro: bool, reg: bv32, off: bv32, base: bv32): (w: bv32)
    ensures IsReg(reg) && IsImm16(off) && IsReg(base) ==>
              if micro then IForm(w, MMIPS32_OP_LHU, reg, base, off)
              else IForm(w, MIPS32_OP_LHU, base, reg, off)
  {
    if micro then MmLhu(reg, off, base) else IsaLhu(reg, off, base)
  }

  function Lw(micro: bool, reg: bv32, off: bv32, base: bv32): (w: bv32)
    ensures IsReg(reg) && IsImm16(off) && IsReg(base) ==>
              if micro then IForm(w, MMIPS32_OP_LW, reg, base, off)
              else IForm(w, MIPS32_OP_LW, base, reg, off)
  {
    if micro then MmLw(reg, off, base) else IsaLw(reg, off, base)
  }

  function Lui(micro: bool, reg: bv32, val: bv32): (w: bv32)
    ensures IsReg(reg) && IsImm16(val) ==>
              if micro then IForm(w, POOL32I, MMIPS32_OP_LUI, reg, val)
              else IForm(w, MIPS32_OP_LUI, 0, reg, val)
  {
    if micro then MmLui(reg, val) else IsaLui(reg, val)
  }

  function Mfc0(micro: bool, gpr: bv32, cpr: bv32, sel: bv32): (w: bv32)
    ensures IsReg(gpr) && IsReg(cpr) && IsReg(sel) ==>
              if micro then RForm(w, POOL32A, gpr, cpr, sel, MMIPS32_OP_MFC0, POOL32AXF)
              else RForm(w, MIPS32_OP_COP0, MIPS32_COP0_MF, gpr, cpr, 0, sel)
  {
    if micro then MmMfc0(gpr, cpr, sel) else IsaMfc0(gpr, cpr, sel)
  }

  function Mtc0(micro: bool, gpr: bv32, cpr: bv32, sel: bv32): (w: bv32)
    ensures IsReg(gpr) && IsReg(cpr) && IsReg(sel) ==>
              if micro then RForm(w, POOL32A, gpr, cpr, sel, MMIPS32_OP_MTC0, POOL32AXF)
              else RForm(w, MIPS32_OP_COP0, MIPS32_COP0_MT, gpr, cpr, 0, sel)
  {
    if micro then MmMtc0(gpr, cpr, sel) else IsaMtc0(gpr, cpr, sel)
  }

  function Mflo(micro: bool, reg: bv32): (w: bv32)
    ensures IsReg(reg) ==>
              if micro then Pool32AxfForm(w, 0, reg, MMIPS32_OP_MFLO)
              else RForm(w, MIPS32_OP_SPECIAL, 0, 0, reg, 0, MIPS32_OP_MFLO)
  {
    if micro then MmMflo(reg) else IsaMflo(reg)
  }

  function Mfhi(micro: bool, reg: bv32): (w: bv32)
    ensures IsReg(reg) ==>
              if micro then Pool32AxfForm(w, 0, reg, MMIPS32_OP_MFHI)
              else RForm(w, MIPS32_OP_SPECIAL, 0, 0, reg, 0, MIPS32_OP_MFHI)
  {
    if micro then MmMfhi(reg) else IsaMfhi(reg)
  }

  function Mtlo(micro: bool, reg: bv32): (w: bv32)
    ensures IsReg(reg) ==>
              if micro then Pool32AxfForm(w, 0, reg, MMIPS32_OP_MTLO)
              else RForm(w, MIPS32_OP_SPECIAL, reg, 0, 0, 0, MIPS32_OP_MTLO)
  {
    if micro then MmMtlo(reg) else IsaMtlo(reg)
  }

  function Mthi(micro: bool, reg: bv32): (w: bv32)
    ensures IsReg(reg) ==>
              if micro then Pool32AxfForm(w, 0, reg, MMIPS32_OP_MTHI)
              else RForm(w, MIPS32_OP_SPECIAL, reg, 0, 0, 0, MIPS32_OP_MTHI)
  {
    if micro then MmMthi(reg) else IsaMthi(reg)
  }

  function Movn(micro: bool, dst: bv32, src: bv32, tar: bv32): (w: bv32)
    ensures IsReg(dst) && IsReg(src) && IsReg(tar) ==>
              if micro then Pool32AForm(w, tar, src, dst, MMIPS32_OP_MOVN)
              else RForm(w, MIPS32_OP_SPECIAL, src, tar, dst, 0, MIPS32_OP_MOVN)
  {
    if micro then MmMovn(dst, src, tar) else IsaMovn(dst, src, tar)
  }

  function Ori(micro: bool, tar: bv32, src: bv32, val: bv32): (w: bv32)
    ensures IsReg(tar) && IsReg(src) && IsImm16(val) ==>
              if micro then IForm(w, MMIPS32_OP_ORI, tar, src, val)
              else IForm(w, MIPS32_OP_ORI, src, tar, val)
  {
    if micro then MmOri(tar, src, val) else IsaOri(tar, src, val)
  }

  function Rdhwr(micro: bool, tar: bv32, dst: bv32): (w: bv32)
    ensures IsReg(tar) && IsReg(dst) ==>
              if micro then Pool32AxfForm(w, dst, tar, MMIPS32_OP_RDHWR)
              else RForm(w, MIPS32_OP_SPECIAL3, 0, tar, dst, 0, MIPS32_OP_RDHWR)
  {
    if micro then MmRdhwr(tar, dst) else IsaRdhwr(tar, dst)
  }

  function Sb(micro: bool, reg: bv32, off: bv32, base: bv32): (w: bv32)
    ensures IsReg(reg) && IsImm16(off) && IsReg(base) ==>
              if micro then IForm(w, MMIPS32_OP_SB, reg, base, off)
              else IForm(w, MIPS32_OP_SB, base, reg, off)
  {
    if micro then MmSb(reg, off, base) else IsaSb(reg, off, base)
  }

  function Sh(micro: bool, reg: bv32, off: bv32, base: bv32): (w: bv32)
    ensures IsReg(reg) && IsImm16(off) && IsReg(base) ==>
              if micro then IForm(w, MMIPS32_OP_SH, reg, base, off)
              else IForm(w, MIPS32_OP_SH, base, reg, off)
  {
    if micro then MmSh(reg, off, base) else IsaSh(reg, off, base)
  }

  function Sw(micro: bool, reg: bv32, off: bv32, base: bv32): (w: bv32)
    ensures IsReg(reg) && IsImm16(off) && IsReg(base) ==>
              if micro then IForm(w, MMIPS32_OP_SW, reg, base, off)
              else IForm(w, MIPS32_OP_SW, base, reg, off)
  {
    if micro then MmSw(reg, off, base) else IsaSw(reg, off, base)
  }

  function Sll(micro: bool, dst: bv32, src: bv32, sa: bv32): (w: bv32)
    ensures IsReg(dst) && IsReg(src) && IsReg(sa) ==>
              if micro then Pool32AForm(w, dst, src, sa, MMIPS32_OP_SLL)
              else RForm(w, MIPS32_OP_SPECIAL, 0, src, dst, sa, MIPS32_OP_SLL)
  {
    if micro then MmSll(dst, src, sa) else IsaSll(dst, src, sa)
  }

  function Slti(micro: bool, tar: bv32, src: bv32, val: bv32): (w: bv32)
    ensures IsReg(tar) && IsReg(src) && IsImm16(val) ==>
              if micro then IForm(w, MMIPS32_OP_SLTI, tar, src, val)
              else IForm(w, MIPS32_OP_SLTI, src, tar, val)
  {
    if micro then MmSlti(tar, src, val) else IsaSlti(tar, src, val)
  }

  function Sltu(micro: bool, dst: bv32, src: bv32, tar: bv32): (w: bv32)
    ensures IsReg(dst) && IsReg(src) && IsReg(tar) ==>
              if micro then Pool32AForm(w, tar, src, dst, MMIPS32_OP_SLTU)
              else RForm(w, MIPS32_OP_SPECIAL, src, tar, dst, 0, MIPS32_OP_SLTU)
  {
    if micro then MmSltu(dst, src, tar) else IsaSltu(dst, src, tar)
  }

  /**
   * Shift right as probe-rs dispatches it: the MIPS32 word comes from
   * `IsaSrlAsWritten` and so carries the SRA function code.
   */
  function Srl(micro: bool, reg: bv32, src: bv32, off: bv32): (w: bv32)
    ensures IsReg(reg) && IsReg(src) && IsReg(off) ==>
              if micro then Pool32AForm(w, reg, src, off, MMIPS32_OP_SRL)
              else RForm(w, MIPS32_OP_SPECIAL, 0, src, reg, off, MIPS32_STD_FUNCT_SRA)
  {
    if micro then MmSrl(reg, src, off) else IsaSrlAsWritten(reg, src, off)
  }

  /** Shift right with the standard MIPS32 SRL word; the microMIPS word is unchanged. */
  function SrlCorrected(micro: bool, reg: bv32, src: bv32, off: bv32): (w: bv32)
    ensures IsReg(reg) && IsReg(src) && IsReg(off) ==>
              if micro then Pool32AForm(w, reg, src, off, MMIPS32_OP_SRL)
              else RForm(w, MIPS32_OP_SPECIAL, 0, src, reg, off, MIPS32_STD_FUNCT_SRL)
    ensures micro ==> w == Srl(micro, reg, src, off)
  {
    if micro then MmSrl(reg, src, off) else IsaSrl(reg, src, off)
  }

  function Synci(micro: bool, off: bv32, base: bv32): (w: bv32)
    ensures IsImm16(off) && IsReg(base) ==>
              if micro then IForm(w, POOL32I, MMIPS32_OP_SYNCI, base, off)
              else IForm(w, MIPS32_OP_REGIMM, base, MIPS32_OP_SYNCI, off)
  {
    if micro then MmSynci(off, base) else IsaSynci(off, base)
  }

  /**
   * SYNC as probe-rs dispatches it: the microMIPS word is the literal of
   * `MmSyncAsWritten`, whose extension code is 0x069.
   */
  function Sync(micro: bool): (w: bv32)
    ensures micro ==> Pool32AxfForm(w, 0, 0, 0x069)
    ensures !micro ==> RForm(w, MIPS32_OP_SPECIAL, 0, 0, 0, 0, 0x0F)
  {
    if micro then MmSyncAsWritten() else IsaSync()
  }

  /** SYNC with the microMIPS word built from the SYNC extension code; the MIPS32 word is unchanged. */
  function SyncCorrected(micro: bool): (w: bv32)
    ensures micro ==> Pool32AxfForm(w, 0, 0, MMIPS32_EXT_SYNC)
    ensures !micro ==> RForm(w, MIPS32_OP_SPECIAL, 0, 0, 0, 0, 0x0F)
    ensures micro <==> w != Sync(micro)
  {
    if micro then MmSync() else IsaSync()
  }

  function Xor(micro: bool, reg: bv32, val1: bv32, val2: bv32): (w: bv32)
    ensures IsReg(reg) && IsReg(val1) && IsReg(val2) ==>
              if micro then Pool32AForm(w, val1, val2, reg, MMIPS32_OP_XOR)
              else RForm(w, MIPS32_OP_SPECIAL, val1, val2, reg, 0, MIPS32_OP_XOR)
  {
    if micro then MmXor(reg, val1, val2) else IsaXor(reg, val1, val2)
  }

  function Xori(micro: bool, tar: bv32, src: bv32, val: bv32): (w: bv32)
    ensures IsReg(tar) && IsReg(src) && IsImm16(val) ==>
              if micro then IForm(w, MMIPS32_OP_XORI, tar, src, val)
              else IForm(w, MIPS32_OP_XORI, src, tar, val)
  {
    if micro then MmXori(tar, src, val) else IsaXori(tar, src, val)
  }

  // ---------------------------------------------------------------------
  // EJTAG-specific fixed words
  // ---------------------------------------------------------------------

  /**
   * Return from debug mode: the MIPS32 word is COP0 with the CO bit set
   * and function 0x1F; the microMIPS word is POOL32AXF extension 0x38D.
   */
  function Dret(micro: bool): (w: bv32)
    ensures micro ==> Pool32AxfForm(w, 0, 0, 0x38D)
    ensures !micro ==> OpcodeField(w) == MIPS32_OP_COP0 && (w >> 25) & 1 == 1
                       && (w >> 6) & 0x7FFFF == 0 && FunctField(w) == 0x1F
  {
    if micro then MMIPS32_DRET else MIPS32_ISA_DRET
  }

  /**
   * Software debug breakpoint: the MIPS32 word has major opcode 0x1C and
   * function SDBBP; the microMIPS word is POOL32AXF extension 0x36D.
   */
  function Sdbbp(micro: bool): (w: bv32)
    ensures micro ==> Pool32AxfForm(w, 0, 0, 0x36D)
    ensures !micro ==> OpcodeField(w) == 0x1C && (w >> 6) & 0xFFFFF == 0 && FunctField(w) == MIPS32_OP_SDBBP
  {
    if micro then MMIPS32_SDBBP else MIPS32_ISA_SDBBP
  }

  /**
   * The 16-bit SDBBP: a MIPS16e RR-format word (major 0x1D, code 0,
   * function 0x01) or a microMIPS POOL16C word (major 0x11, low ten bits
   * 0x2C0); both fit in a halfword.
   */
  function Mips16Sdbbp(micro: bool): (w: bv32)
    ensures w < 0x10000
    ensures micro ==> w >> 10 == 0x11 && w & 0x3FF == 0x2C0
    ensures !micro ==> w >> 11 == 0x1D && (w >> 5) & 0x3F == 0 && w & 0x1F == 0x01
  {
    if micro then MMIPS16_SDBBP else MIPS16_ISA_SDBBP
  }

  // ---------------------------------------------------------------------
  // Worked examples
  // ---------------------------------------------------------------------

  lemma AddiuExample()
    ensures IsaAddiu(T0, 0, 100) == 0x24080064
  {
  }

  lemma JumpExample()
    ensures IsaJ(0x80001000) == 0x08000400
  {
  }
}

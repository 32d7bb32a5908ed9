# MIPS debug backend of probe-rs, modelled in Dafny

This project models the MIPS32 backend of the probe-rs debugger: the
instruction encoders it uses to build code for the core's debug unit, the
EJTAG session it opens over a JTAG probe, the register catalogues it
publishes, the communication interface that owns the session, and the parts
of the generic core state that route an attach request to the MIPS, RISC-V
or ARM code. Each file of the backend has its own module:

| file | module | what it holds |
|---|---|---|
| `errors.dfy` | `Errors` | machine integer types, `Option`/`Result`, the MIPS error type and its conversion into the crate-wide error, and an `Outcome` that also records a panic |
| `assembly.dfy` | `Assembly` | the MIPS32 and microMIPS instruction encoders, the dispatchers that choose between them, and the EJTAG fixed words; every encoder is stated against independent field decoders |
| `ejtag.dfy` | `Ejtag` | the EJTAG version decoding, the hardware breakpoint register layouts, a JTAG probe that records its calls and answers scans from a reply function, and the `EjtagSession` class with its connect sequence and `EnterDebug` |
| `communication_interface.dfy` | `CommunicationInterface` | the `MipsCommunicationInterface` class: creation over a probe, the address check, the 32-bit read and the 64-bit read built from two 32-bit reads, and the constant capability answers |
| `register_types.dfy` | `RegisterTypes` | the register descriptor type and small facts about identifier sequences and decimal names |
| `registers_base.dfy`, `registers_cp0.dfy`, `registers_dsp.dfy`, `registers_mod.dfy` | `RegistersBase`, `RegistersCp0`, `RegistersDsp`, `RegistersMod` | the general-purpose, CP0 and DSP register tables and the two core catalogues built from them |
| `legacy_registers.dfy` | `LegacyRegisters` | the older single-file register tables and catalogues, proved to agree with the newer ones |
| `core_state.dfy` | `CoreState` | the architecture-specific core state, the core-type conversions, the memory access port of an ARM core and the attach functions |

The JTAG transport is not modelled: a probe is a log of the calls made on
it plus a function from call number to scan reply, so every property of the
connect sequence holds for every possible probe behaviour. Rust panics
(slicing a short reply with `val[..4]`, `todo!()`, `panic!`, an overflowing `+` in a
debug build) are modelled as an explicit `Panicked` outcome rather than
left out.

Some behaviours of the code worth knowing when reading the model:

- `mips32_isa_j(0x80001000)` is `0x08000400`, because `MIPS32_OP_J` is 2
  (`Assembly.JumpExample`).
- Register `r3` carries the `v0` return-value role, like `r2`
  (`RegistersBase.ReturnRolesBothV0`).
- The EJTAG version is taken from IMPCODE bits 31:29 only: raw values 6
  and 7 give `Unknown`, and a connected session never reports `NoModule`
  (`Ejtag.VersionFromImpcodeRange`).

## Model

| member | source | states |
|---|---|---|
| Assembly.IInst | probe-rs/src/architecture/mips/assembly.rs:136-138 | for a 6-bit opcode, 5-bit register fields and a 16-bit immediate, the packed word decodes back to exactly those fields |
| Assembly.JInst | probe-rs/src/architecture/mips/assembly.rs:140-142 | for a 6-bit opcode and a 26-bit target, the packed word decodes back to that opcode and target |
| Assembly.RInst | probe-rs/src/architecture/mips/assembly.rs:144-153 | for a 6-bit opcode, 5-bit register and shift fields and a 6-bit function, the packed word decodes back to exactly those fields |
| Assembly.RInstPool32A | probe-rs/src/architecture/mips/assembly.rs:144-153 | a microMIPS POOL32A word packed with a 10-bit minor opcode and zero shift decodes back to its register fields and minor opcode |
| Assembly.RInstPool32Axf | probe-rs/src/architecture/mips/assembly.rs:144-153 | a microMIPS POOL32AXF word packed with a 10-bit extension code in the shift position decodes back to its register fields and that extension |
| Assembly.IInstOverflow | probe-rs/src/architecture/mips/assembly.rs:136-138 | the packer masks nothing: a seventh opcode bit is shifted out, and a 17-bit immediate spills into the rt field |
| Assembly.IsaAddi | probe-rs/src/architecture/mips/assembly.rs:155-157 | for tar, src below 32 and val below 2^16, the word decodes as opcode MIPS32_OP_ADDI, bits 25:21 src, bits 20:16 tar, immediate val |
| Assembly.IsaAddiu | probe-rs/src/architecture/mips/assembly.rs:158-160 | for tar, src below 32 and val below 2^16, the word decodes as opcode MIPS32_OP_ADDIU, bits 25:21 src, bits 20:16 tar, immediate val |
| Assembly.IsaAddu | probe-rs/src/architecture/mips/assembly.rs:161-163 | for dst, src, tar below 32, the word decodes as opcode MIPS32_OP_SPECIAL, bits 25:21 src, bits 20:16 tar, bits 15:11 dst, bits 10:6 0, bits 5:0 MIPS32_OP_ADDU |
| Assembly.IsaAnd | probe-rs/src/architecture/mips/assembly.rs:164-166 | for dst, src, tar below 32, the word decodes as opcode MIPS32_OP_SPECIAL, bits 25:21 src, bits 20:16 tar, bits 15:11 dst, bits 10:6 0, bits 5:0 MIPS32_OP_AND |
| Assembly.IsaAndi | probe-rs/src/architecture/mips/assembly.rs:167-169 | for tar, src below 32 and val below 2^16, the word decodes as opcode MIPS32_OP_ANDI, bits 25:21 src, bits 20:16 tar, immediate val |
| Assembly.IsaB | probe-rs/src/architecture/mips/assembly.rs:171-173 | for off below 2^16, the word decodes as opcode MIPS32_OP_BEQ, bits 25:21 0, bits 20:16 0, immediate off |
| Assembly.IsaBeq | probe-rs/src/architecture/mips/assembly.rs:174-176 | for src, tar below 32 and off below 2^16, the word decodes as opcode MIPS32_OP_BEQ, bits 25:21 src, bits 20:16 tar, immediate off |
| Assembly.IsaBgtz | probe-rs/src/architecture/mips/assembly.rs:177-179 | for reg below 32 and off below 2^16, the word decodes as opcode MIPS32_OP_BGTZ, bits 25:21 reg, bits 20:16 0, immediate off |
| Assembly.IsaBne | probe-rs/src/architecture/mips/assembly.rs:180-182 | for src, tar below 32 and off below 2^16, the word decodes as opcode MIPS32_OP_BNE, bits 25:21 src, bits 20:16 tar, immediate off |
| Assembly.IsaCache | probe-rs/src/architecture/mips/assembly.rs:183-185 | for op, base below 32 and off below 2^16, the word decodes as opcode MIPS32_OP_CACHE, bits 25:21 base, bits 20:16 op, immediate off |
| Assembly.IsaJ | probe-rs/src/architecture/mips/assembly.rs:186-188 | the major opcode is J and the target field, shifted left by 2, equals address bits 27:2 of `tar`: bits 31:28 and 1:0 are dropped |
| Assembly.IsaJr | probe-rs/src/architecture/mips/assembly.rs:189-191 | for reg below 32, the word decodes as opcode MIPS32_OP_SPECIAL, bits 25:21 reg, bits 20:16 0, bits 15:11 0, bits 10:6 0, bits 5:0 MIPS32_OP_JR |
| Assembly.IsaLb | probe-rs/src/architecture/mips/assembly.rs:193-195 | for reg, base below 32 and off below 2^16, the word decodes as opcode MIPS32_OP_LB, bits 25:21 base, bits 20:16 reg, immediate off |
| Assembly.IsaLbu | probe-rs/src/architecture/mips/assembly.rs:196-198 | for reg, base below 32 and off below 2^16, the word decodes as opcode MIPS32_OP_LBU, bits 25:21 base, bits 20:16 reg, immediate off |
| Assembly.IsaLhu | probe-rs/src/architecture/mips/assembly.rs:199-201 | for reg, base below 32 and off below 2^16, the word decodes as opcode MIPS32_OP_LHU, bits 25:21 base, bits 20:16 reg, immediate off |
| Assembly.IsaLui | probe-rs/src/architecture/mips/assembly.rs:202-204 | for reg below 32 and val below 2^16, the word decodes as opcode MIPS32_OP_LUI, bits 25:21 0, bits 20:16 reg, immediate val |
| Assembly.IsaLw | probe-rs/src/architecture/mips/assembly.rs:205-207 | for reg, base below 32 and off below 2^16, the word decodes as opcode MIPS32_OP_LW, bits 25:21 base, bits 20:16 reg, immediate off |
| Assembly.IsaMfc0 | probe-rs/src/architecture/mips/assembly.rs:209-211 | for gpr, cpr below 32 and sel < 64, the word decodes as opcode MIPS32_OP_COP0, bits 25:21 MIPS32_COP0_MF, bits 20:16 gpr, bits 15:11 cpr, bits 10:6 0, bits 5:0 sel |
| Assembly.IsaMtc0 | probe-rs/src/architecture/mips/assembly.rs:212-214 | for gpr, cpr below 32 and sel < 64, the word decodes as opcode MIPS32_OP_COP0, bits 25:21 MIPS32_COP0_MT, bits 20:16 gpr, bits 15:11 cpr, bits 10:6 0, bits 5:0 sel |
| Assembly.IsaMflo | probe-rs/src/architecture/mips/assembly.rs:215-217 | for reg below 32, the word decodes as opcode MIPS32_OP_SPECIAL, bits 25:21 0, bits 20:16 0, bits 15:11 reg, bits 10:6 0, bits 5:0 MIPS32_OP_MFLO |
| Assembly.IsaMfhi | probe-rs/src/architecture/mips/assembly.rs:218-220 | for reg below 32, the word decodes as opcode MIPS32_OP_SPECIAL, bits 25:21 0, bits 20:16 0, bits 15:11 reg, bits 10:6 0, bits 5:0 MIPS32_OP_MFHI |
| Assembly.IsaMtlo | probe-rs/src/architecture/mips/assembly.rs:221-223 | for reg below 32, the word decodes as opcode MIPS32_OP_SPECIAL, bits 25:21 reg, bits 20:16 0, bits 15:11 0, bits 10:6 0, bits 5:0 MIPS32_OP_MTLO |
| Assembly.IsaMthi | probe-rs/src/architecture/mips/assembly.rs:224-226 | for reg below 32, the word decodes as opcode MIPS32_OP_SPECIAL, bits 25:21 reg, bits 20:16 0, bits 15:11 0, bits 10:6 0, bits 5:0 MIPS32_OP_MTHI |
| Assembly.IsaMovn | probe-rs/src/architecture/mips/assembly.rs:228-230 | for dst, src, tar below 32, the word decodes as opcode MIPS32_OP_SPECIAL, bits 25:21 src, bits 20:16 tar, bits 15:11 dst, bits 10:6 0, bits 5:0 MIPS32_OP_MOVN |
| Assembly.IsaOri | probe-rs/src/architecture/mips/assembly.rs:231-233 | for tar, src below 32 and val below 2^16, the word decodes as opcode MIPS32_OP_ORI, bits 25:21 src, bits 20:16 tar, immediate val |
| Assembly.IsaRdhwr | probe-rs/src/architecture/mips/assembly.rs:234-236 | for tar, dst below 32, the word decodes as opcode MIPS32_OP_SPECIAL3, bits 25:21 0, bits 20:16 tar, bits 15:11 dst, bits 10:6 0, bits 5:0 MIPS32_OP_RDHWR |
| Assembly.IsaSb | probe-rs/src/architecture/mips/assembly.rs:237-239 | for reg, base below 32 and off below 2^16, the word decodes as opcode MIPS32_OP_SB, bits 25:21 base, bits 20:16 reg, immediate off |
| Assembly.IsaSh | probe-rs/src/architecture/mips/assembly.rs:240-242 | for reg, base below 32 and off below 2^16, the word decodes as opcode MIPS32_OP_SH, bits 25:21 base, bits 20:16 reg, immediate off |
| Assembly.IsaSw | probe-rs/src/architecture/mips/assembly.rs:243-245 | for reg, base below 32 and off below 2^16, the word decodes as opcode MIPS32_OP_SW, bits 25:21 base, bits 20:16 reg, immediate off |
| Assembly.IsaSll | probe-rs/src/architecture/mips/assembly.rs:247-249 | for dst, src, sa below 32, the word decodes as opcode MIPS32_OP_SPECIAL, bits 25:21 0, bits 20:16 src, bits 15:11 dst, bits 10:6 sa, bits 5:0 MIPS32_OP_SLL |
| Assembly.IsaSlti | probe-rs/src/architecture/mips/assembly.rs:250-252 | for tar, src below 32 and val below 2^16, the word decodes as opcode MIPS32_OP_SLTI, bits 25:21 src, bits 20:16 tar, immediate val |
| Assembly.IsaSltu | probe-rs/src/architecture/mips/assembly.rs:253-255 | for dst, src, tar below 32, the word decodes as opcode MIPS32_OP_SPECIAL, bits 25:21 src, bits 20:16 tar, bits 15:11 dst, bits 10:6 0, bits 5:0 MIPS32_OP_SLTU |
| Assembly.IsaSrlAsWritten | probe-rs/src/architecture/mips/assembly.rs:256-258 | for registers below 32, the word the source writes decodes as SPECIAL with function 3, which is SRA, not SRL |
| Assembly.IsaSrl | probe-rs/src/architecture/mips/assembly.rs:256-258 | for registers below 32, the word decodes as SPECIAL, bits 20:16 src, bits 15:11 reg, shift amount off and function 2 (SRL) |
| Assembly.SrlAsWrittenIsSra | probe-rs/src/architecture/mips/assembly.rs:256-258 | the as-written SRL encoder produces the SRA word and never the SRL word |
| Assembly.IsaSync | probe-rs/src/architecture/mips/assembly.rs:259-261 | the word decodes as SPECIAL with every register field zero and function 0x0F (SYNC) |
| Assembly.IsaSynci | probe-rs/src/architecture/mips/assembly.rs:262-264 | for base below 32 and off below 2^16, the word decodes as opcode MIPS32_OP_REGIMM, bits 25:21 base, bits 20:16 MIPS32_OP_SYNCI, immediate off |
| Assembly.IsaXor | probe-rs/src/architecture/mips/assembly.rs:266-268 | for reg, val1, val2 below 32, the word decodes as opcode MIPS32_OP_SPECIAL, bits 25:21 val1, bits 20:16 val2, bits 15:11 reg, bits 10:6 0, bits 5:0 MIPS32_OP_XOR |
| Assembly.IsaXori | probe-rs/src/architecture/mips/assembly.rs:269-271 | for tar, src below 32 and val below 2^16, the word decodes as opcode MIPS32_OP_XORI, bits 25:21 src, bits 20:16 tar, immediate val |
| Assembly.MmAddi | probe-rs/src/architecture/mips/assembly.rs:277-279 | for tar, src below 32 and val below 2^16, the word decodes as opcode MMIPS32_OP_ADDI, bits 25:21 tar, bits 20:16 src, immediate val |
| Assembly.MmAddiu | probe-rs/src/architecture/mips/assembly.rs:280-282 | for tar, src below 32 and val below 2^16, the word decodes as opcode MMIPS32_OP_ADDIU, bits 25:21 tar, bits 20:16 src, immediate val |
| Assembly.MmAddu | probe-rs/src/architecture/mips/assembly.rs:283-285 | for dst, src, tar below 32, the word decodes as POOL32A with bits 25:21 tar, bits 20:16 src, bits 15:11 dst, minor opcode MMIPS32_OP_ADDU |
| Assembly.MmAnd | probe-rs/src/architecture/mips/assembly.rs:286-288 | for dst, src, tar below 32, the word decodes as POOL32A with bits 25:21 tar, bits 20:16 src, bits 15:11 dst, minor opcode MMIPS32_OP_AND |
| Assembly.MmAndi | probe-rs/src/architecture/mips/assembly.rs:289-291 | for tar, src below 32 and val below 2^16, the word decodes as opcode MMIPS32_OP_ANDI, bits 25:21 tar, bits 20:16 src, immediate val |
| Assembly.MmB | probe-rs/src/architecture/mips/assembly.rs:293-295 | for off below 2^16, the word decodes as opcode MMIPS32_OP_BEQ, bits 25:21 0, bits 20:16 0, immediate off |
| Assembly.MmBeq | probe-rs/src/architecture/mips/assembly.rs:296-298 | for src, tar below 32 and off below 2^16, the word decodes as opcode MMIPS32_OP_BEQ, bits 25:21 tar, bits 20:16 src, immediate off |
| Assembly.MmBgtz | probe-rs/src/architecture/mips/assembly.rs:299-301 | for reg below 32 and off below 2^16, the word decodes as opcode POOL32I, bits 25:21 MMIPS32_OP_BGTZ, bits 20:16 reg, immediate off |
| Assembly.MmBne | probe-rs/src/architecture/mips/assembly.rs:302-304 | for src, tar below 32 and off below 2^16, the word decodes as opcode MMIPS32_OP_BNE, bits 25:21 tar, bits 20:16 src, immediate off |
| Assembly.MmCache | probe-rs/src/architecture/mips/assembly.rs:305-307 | for op, base below 32 and off < 0x1000, the word decodes as POOL32B with bits 25:21 op, bits 20:16 base, function MMIPS32_OP_CACHE in bits 15:12, offset in bits 11:0 |
| Assembly.MmJ | probe-rs/src/architecture/mips/assembly.rs:309-311 | the major opcode is the microMIPS J and the target field, shifted left by 1, equals bits 26:1 of `tar` |
| Assembly.MmJr | probe-rs/src/architecture/mips/assembly.rs:312-314 | for reg below 32, the word decodes as POOL32AXF with bits 25:21 0, bits 20:16 reg, extension MMIPS32_OP_JALR |
| Assembly.MmLb | probe-rs/src/architecture/mips/assembly.rs:315-317 | for reg, base below 32 and off below 2^16, the word decodes as opcode MMIPS32_OP_LB, bits 25:21 reg, bits 20:16 base, immediate off |
| Assembly.MmLbu | probe-rs/src/architecture/mips/assembly.rs:318-320 | for reg, base below 32 and off below 2^16, the word decodes as opcode MMIPS32_OP_LBU, bits 25:21 reg, bits 20:16 base, immediate off |
| Assembly.MmLhu | probe-rs/src/architecture/mips/assembly.rs:321-323 | for reg, base below 32 and off below 2^16, the word decodes as opcode MMIPS32_OP_LHU, bits 25:21 reg, bits 20:16 base, immediate off |
| Assembly.MmLui | probe-rs/src/architecture/mips/assembly.rs:324-326 | for reg below 32 and val below 2^16, the word decodes as opcode POOL32I, bits 25:21 MMIPS32_OP_LUI, bits 20:16 reg, immediate val |
| Assembly.MmLw | probe-rs/src/architecture/mips/assembly.rs:327-329 | for reg, base below 32 and off below 2^16, the word decodes as opcode MMIPS32_OP_LW, bits 25:21 reg, bits 20:16 base, immediate off |
| Assembly.MmMfc0 | probe-rs/src/architecture/mips/assembly.rs:331-333 | for gpr, cpr, sel below 32, the word decodes as opcode POOL32A, bits 25:21 gpr, bits 20:16 cpr, bits 15:11 sel, bits 10:6 MMIPS32_OP_MFC0, bits 5:0 POOL32AXF |
| Assembly.MmMflo | probe-rs/src/architecture/mips/assembly.rs:334-336 | for reg below 32, the word decodes as POOL32AXF with bits 25:21 0, bits 20:16 reg, extension MMIPS32_OP_MFLO |
| Assembly.MmMfhi | probe-rs/src/architecture/mips/assembly.rs:337-339 | for reg below 32, the word decodes as POOL32AXF with bits 25:21 0, bits 20:16 reg, extension MMIPS32_OP_MFHI |
| Assembly.MmMtc0 | probe-rs/src/architecture/mips/assembly.rs:340-342 | for gpr, cpr, sel below 32, the word decodes as opcode POOL32A, bits 25:21 gpr, bits 20:16 cpr, bits 15:11 sel, bits 10:6 MMIPS32_OP_MTC0, bits 5:0 POOL32AXF |
| Assembly.MmMtlo | probe-rs/src/architecture/mips/assembly.rs:343-345 | for reg below 32, the word decodes as POOL32AXF with bits 25:21 0, bits 20:16 reg, extension MMIPS32_OP_MTLO |
| Assembly.MmMthi | probe-rs/src/architecture/mips/assembly.rs:346-348 | for reg below 32, the word decodes as POOL32AXF with bits 25:21 0, bits 20:16 reg, extension MMIPS32_OP_MTHI |
| Assembly.MmMovn | probe-rs/src/architecture/mips/assembly.rs:350-352 | for dst, src, tar below 32, the word decodes as POOL32A with bits 25:21 tar, bits 20:16 src, bits 15:11 dst, minor opcode MMIPS32_OP_MOVN |
| Assembly.MmOri | probe-rs/src/architecture/mips/assembly.rs:353-355 | for tar, src below 32 and val below 2^16, the word decodes as opcode MMIPS32_OP_ORI, bits 25:21 tar, bits 20:16 src, immediate val |
| Assembly.MmRdhwr | probe-rs/src/architecture/mips/assembly.rs:356-358 | for tar, dst below 32, the word decodes as POOL32AXF with bits 25:21 dst, bits 20:16 tar, extension MMIPS32_OP_RDHWR |
| Assembly.MmSb | probe-rs/src/architecture/mips/assembly.rs:359-361 | for reg, base below 32 and off below 2^16, the word decodes as opcode MMIPS32_OP_SB, bits 25:21 reg, bits 20:16 base, immediate off |
| Assembly.MmSh | probe-rs/src/architecture/mips/assembly.rs:362-364 | for reg, base below 32 and off below 2^16, the word decodes as opcode MMIPS32_OP_SH, bits 25:21 reg, bits 20:16 base, immediate off |
| Assembly.MmSw | probe-rs/src/architecture/mips/assembly.rs:365-367 | for reg, base below 32 and off below 2^16, the word decodes as opcode MMIPS32_OP_SW, bits 25:21 reg, bits 20:16 base, immediate off |
| Assembly.MmSrl | probe-rs/src/architecture/mips/assembly.rs:369-371 | for reg, src, off below 32, the word decodes as POOL32A with bits 25:21 reg, bits 20:16 src, bits 15:11 off, minor opcode MMIPS32_OP_SRL |
| Assembly.MmSltu | probe-rs/src/architecture/mips/assembly.rs:372-374 | for dst, src, tar below 32, the word decodes as POOL32A with bits 25:21 tar, bits 20:16 src, bits 15:11 dst, minor opcode MMIPS32_OP_SLTU |
| Assembly.MmSynci | probe-rs/src/architecture/mips/assembly.rs:375-377 | for base below 32 and off below 2^16, the word decodes as opcode POOL32I, bits 25:21 MMIPS32_OP_SYNCI, bits 20:16 base, immediate off |
| Assembly.MmSll | probe-rs/src/architecture/mips/assembly.rs:378-380 | for dst, src, sa below 32, the word decodes as POOL32A with bits 25:21 dst, bits 20:16 src, bits 15:11 sa, minor opcode MMIPS32_OP_SLL |
| Assembly.MmSlti | probe-rs/src/architecture/mips/assembly.rs:381-383 | for tar, src below 32 and val below 2^16, the word decodes as opcode MMIPS32_OP_SLTI, bits 25:21 tar, bits 20:16 src, immediate val |
| Assembly.MmSyncAsWritten | probe-rs/src/architecture/mips/assembly.rs:384-386 | the word the source writes decodes as a POOL32AXF word with extension 0x069, which is not SYNC |
| Assembly.MmSync | probe-rs/src/architecture/mips/assembly.rs:384-386 | the word decodes as a POOL32AXF word with the SYNC extension 0x1AD |
| Assembly.MmSyncAsWrittenIsNotSync | probe-rs/src/architecture/mips/assembly.rs:384-386 | the as-written microMIPS SYNC word differs from SYNC and its extension code is not 0x1AD; the corrected word is 0x6B7C |
| Assembly.MmXor | probe-rs/src/architecture/mips/assembly.rs:388-390 | for reg, val1, val2 below 32, the word decodes as POOL32A with bits 25:21 val1, bits 20:16 val2, bits 15:11 reg, minor opcode MMIPS32_OP_XOR |
| Assembly.MmXori | probe-rs/src/architecture/mips/assembly.rs:391-393 | for tar, src below 32 and val below 2^16, the word decodes as opcode MMIPS32_OP_XORI, bits 25:21 tar, bits 20:16 src, immediate val |
| Assembly.Nop | probe-rs/src/architecture/mips/assembly.rs:400-402 | the all-zero word decodes both as MIPS32 SLL $0,$0,0 and as microMIPS POOL32A SLL with every field zero |
| Assembly.Addi | probe-rs/src/architecture/mips/assembly.rs:403-409 | for tar, src below 32 and val below 2^16, the word decodes as microMIPS opcode MMIPS32_OP_ADDI, bits 25:21 tar, bits 20:16 src, immediate val when `micro`, else as MIPS32 opcode MIPS32_OP_ADDI, bits 25:21 src, bits 20:16 tar, immediate val |
| Assembly.Addiu | probe-rs/src/architecture/mips/assembly.rs:410-416 | for tar, src below 32 and val below 2^16, the word decodes as microMIPS opcode MMIPS32_OP_ADDIU, bits 25:21 tar, bits 20:16 src, immediate val when `micro`, else as MIPS32 opcode MIPS32_OP_ADDIU, bits 25:21 src, bits 20:16 tar, immediate val |
| Assembly.Addu | probe-rs/src/architecture/mips/assembly.rs:417-423 | for dst, src, tar below 32, the word decodes as microMIPS POOL32A with bits 25:21 tar, bits 20:16 src, bits 15:11 dst, minor opcode MMIPS32_OP_ADDU when `micro`, else as MIPS32 opcode MIPS32_OP_SPECIAL, bits 25:21 src, bits 20:16 tar, bits 15:11 dst, bits 10:6 0, bits 5:0 MIPS32_OP_ADDU |
| Assembly.And | probe-rs/src/architecture/mips/assembly.rs:424-430 | for dst, src, tar below 32, the word decodes as microMIPS POOL32A with bits 25:21 tar, bits 20:16 src, bits 15:11 dst, minor opcode MMIPS32_OP_AND when `micro`, else as MIPS32 opcode MIPS32_OP_SPECIAL, bits 25:21 src, bits 20:16 tar, bits 15:11 dst, bits 10:6 0, bits 5:0 MIPS32_OP_AND |
| Assembly.Andi | probe-rs/src/architecture/mips/assembly.rs:431-437 | for tar, src below 32 and val below 2^16, the word decodes as microMIPS opcode MMIPS32_OP_ANDI, bits 25:21 tar, bits 20:16 src, immediate val when `micro`, else as MIPS32 opcode MIPS32_OP_ANDI, bits 25:21 src, bits 20:16 tar, immediate val |
| Assembly.B | probe-rs/src/architecture/mips/assembly.rs:439-445 | for off below 2^16, the word decodes as microMIPS opcode MMIPS32_OP_BEQ, bits 25:21 0, bits 20:16 0, immediate off when `micro`, else as MIPS32 opcode MIPS32_OP_BEQ, bits 25:21 0, bits 20:16 0, immediate off |
| Assembly.Beq | probe-rs/src/architecture/mips/assembly.rs:446-452 | for src, tar below 32 and off below 2^16, the word decodes as microMIPS opcode MMIPS32_OP_BEQ, bits 25:21 tar, bits 20:16 src, immediate off when `micro`, else as MIPS32 opcode MIPS32_OP_BEQ, bits 25:21 src, bits 20:16 tar, immediate off |
| Assembly.Bgtz | probe-rs/src/architecture/mips/assembly.rs:453-459 | for reg below 32 and off below 2^16, the word decodes as microMIPS opcode POOL32I, bits 25:21 MMIPS32_OP_BGTZ, bits 20:16 reg, immediate off when `micro`, else as MIPS32 opcode MIPS32_OP_BGTZ, bits 25:21 reg, bits 20:16 0, immediate off |
| Assembly.Bne | probe-rs/src/architecture/mips/assembly.rs:460-466 | for src, tar below 32 and off below 2^16, the word decodes as microMIPS opcode MMIPS32_OP_BNE, bits 25:21 tar, bits 20:16 src, immediate off when `micro`, else as MIPS32 opcode MIPS32_OP_BNE, bits 25:21 src, bits 20:16 tar, immediate off |
| Assembly.Cache | probe-rs/src/architecture/mips/assembly.rs:467-473 | when `micro`, for op, base below 32 and off < 0x1000, the word decodes as POOL32B with bits 25:21 op, bits 20:16 base, function MMIPS32_OP_CACHE in bits 15:12 and offset in bits 11:0; otherwise, for op, base below 32 and any 16-bit off, as MIPS32 opcode MIPS32_OP_CACHE, bits 25:21 base, bits 20:16 op, immediate off |
| Assembly.J | probe-rs/src/architecture/mips/assembly.rs:475-481 | microMIPS: opcode J and target bits 26:1 of `tar`; MIPS32: opcode J and target bits 27:2 of `tar` |
| Assembly.Jr | probe-rs/src/architecture/mips/assembly.rs:482-488 | for reg below 32, the word decodes as microMIPS POOL32AXF with bits 25:21 0, bits 20:16 reg, extension MMIPS32_OP_JALR when `micro`, else as MIPS32 opcode MIPS32_OP_SPECIAL, bits 25:21 reg, bits 20:16 0, bits 15:11 0, bits 10:6 0, bits 5:0 MIPS32_OP_JR |
| Assembly.Lb | probe-rs/src/architecture/mips/assembly.rs:489-495 | for reg, base below 32 and off below 2^16, the word decodes as microMIPS opcode MMIPS32_OP_LB, bits 25:21 reg, bits 20:16 base, immediate off when `micro`, else as MIPS32 opcode MIPS32_OP_LB, bits 25:21 base, bits 20:16 reg, immediate off |
| Assembly.Lbu | probe-rs/src/architecture/mips/assembly.rs:496-502 | for reg, base below 32 and off below 2^16, the word decodes as microMIPS opcode MMIPS32_OP_LBU, bits 25:21 reg, bits 20:16 base, immediate off when `micro`, else as MIPS32 opcode MIPS32_OP_LBU, bits 25:21 base, bits 20:16 reg, immediate off |
| Assembly.Lhu | probe-rs/src/architecture/mips/assembly.rs:503-509 | for reg, base below 32 and off below 2^16, the word decodes as microMIPS opcode MMIPS32_OP_LHU, bits 25:21 reg, bits 20:16 base, immediate off when `micro`, else as MIPS32 opcode MIPS32_OP_LHU, bits 25:21 base, bits 20:16 reg, immediate off |
| Assembly.Lw | probe-rs/src/architecture/mips/assembly.rs:510-516 | for reg, base below 32 and off below 2^16, the word decodes as microMIPS opcode MMIPS32_OP_LW, bits 25:21 reg, bits 20:16 base, immediate off when `micro`, else as MIPS32 opcode MIPS32_OP_LW, bits 25:21 base, bits 20:16 reg, immediate off |
| Assembly.Lui | probe-rs/src/architecture/mips/assembly.rs:517-523 | for reg below 32 and val below 2^16, the word decodes as microMIPS opcode POOL32I, bits 25:21 MMIPS32_OP_LUI, bits 20:16 reg, immediate val when `micro`, else as MIPS32 opcode MIPS32_OP_LUI, bits 25:21 0, bits 20:16 reg, immediate val |
| Assembly.Mfc0 | probe-rs/src/architecture/mips/assembly.rs:525-531 | for gpr, cpr, sel below 32, the word decodes as microMIPS opcode POOL32A, bits 25:21 gpr, bits 20:16 cpr, bits 15:11 sel, bits 10:6 MMIPS32_OP_MFC0, bits 5:0 POOL32AXF when `micro`, else as MIPS32 opcode MIPS32_OP_COP0, bits 25:21 MIPS32_COP0_MF, bits 20:16 gpr, bits 15:11 cpr, bits 10:6 0, bits 5:0 sel |
| Assembly.Mtc0 | probe-rs/src/architecture/mips/assembly.rs:532-538 | for gpr, cpr, sel below 32, the word decodes as microMIPS opcode POOL32A, bits 25:21 gpr, bits 20:16 cpr, bits 15:11 sel, bits 10:6 MMIPS32_OP_MTC0, bits 5:0 POOL32AXF when `micro`, else as MIPS32 opcode MIPS32_OP_COP0, bits 25:21 MIPS32_COP0_MT, bits 20:16 gpr, bits 15:11 cpr, bits 10:6 0, bits 5:0 sel |
| Assembly.Mflo | probe-rs/src/architecture/mips/assembly.rs:539-545 | for reg below 32, the word decodes as microMIPS POOL32AXF with bits 25:21 0, bits 20:16 reg, extension MMIPS32_OP_MFLO when `micro`, else as MIPS32 opcode MIPS32_OP_SPECIAL, bits 25:21 0, bits 20:16 0, bits 15:11 reg, bits 10:6 0, bits 5:0 MIPS32_OP_MFLO |
| Assembly.Mfhi | probe-rs/src/architecture/mips/assembly.rs:546-552 | for reg below 32, the word decodes as microMIPS POOL32AXF with bits 25:21 0, bits 20:16 reg, extension MMIPS32_OP_MFHI when `micro`, else as MIPS32 opcode MIPS32_OP_SPECIAL, bits 25:21 0, bits 20:16 0, bits 15:11 reg, bits 10:6 0, bits 5:0 MIPS32_OP_MFHI |
| Assembly.Mtlo | probe-rs/src/architecture/mips/assembly.rs:553-559 | for reg below 32, the word decodes as microMIPS POOL32AXF with bits 25:21 0, bits 20:16 reg, extension MMIPS32_OP_MTLO when `micro`, else as MIPS32 opcode MIPS32_OP_SPECIAL, bits 25:21 reg, bits 20:16 0, bits 15:11 0, bits 10:6 0, bits 5:0 MIPS32_OP_MTLO |
| Assembly.Mthi | probe-rs/src/architecture/mips/assembly.rs:560-566 | for reg below 32, the word decodes as microMIPS POOL32AXF with bits 25:21 0, bits 20:16 reg, extension MMIPS32_OP_MTHI when `micro`, else as MIPS32 opcode MIPS32_OP_SPECIAL, bits 25:21 reg, bits 20:16 0, bits 15:11 0, bits 10:6 0, bits 5:0 MIPS32_OP_MTHI |
| Assembly.Movn | probe-rs/src/architecture/mips/assembly.rs:568-574 | for dst, src, tar below 32, the word decodes as microMIPS POOL32A with bits 25:21 tar, bits 20:16 src, bits 15:11 dst, minor opcode MMIPS32_OP_MOVN when `micro`, else as MIPS32 opcode MIPS32_OP_SPECIAL, bits 25:21 src, bits 20:16 tar, bits 15:11 dst, bits 10:6 0, bits 5:0 MIPS32_OP_MOVN |
| Assembly.Ori | probe-rs/src/architecture/mips/assembly.rs:575-581 | for tar, src below 32 and val below 2^16, the word decodes as microMIPS opcode MMIPS32_OP_ORI, bits 25:21 tar, bits 20:16 src, immediate val when `micro`, else as MIPS32 opcode MIPS32_OP_ORI, bits 25:21 src, bits 20:16 tar, immediate val |
| Assembly.Rdhwr | probe-rs/src/architecture/mips/assembly.rs:582-588 | for tar, dst below 32, the word decodes as microMIPS POOL32AXF with bits 25:21 dst, bits 20:16 tar, extension MMIPS32_OP_RDHWR when `micro`, else as MIPS32 opcode MIPS32_OP_SPECIAL3, bits 25:21 0, bits 20:16 tar, bits 15:11 dst, bits 10:6 0, bits 5:0 MIPS32_OP_RDHWR |
| Assembly.Sb | probe-rs/src/architecture/mips/assembly.rs:589-595 | for reg, base below 32 and off below 2^16, the word decodes as microMIPS opcode MMIPS32_OP_SB, bits 25:21 reg, bits 20:16 base, immediate off when `micro`, else as MIPS32 opcode MIPS32_OP_SB, bits 25:21 base, bits 20:16 reg, immediate off |
| Assembly.Sh | probe-rs/src/architecture/mips/assembly.rs:596-602 | for reg, base below 32 and off below 2^16, the word decodes as microMIPS opcode MMIPS32_OP_SH, bits 25:21 reg, bits 20:16 base, immediate off when `micro`, else as MIPS32 opcode MIPS32_OP_SH, bits 25:21 base, bits 20:16 reg, immediate off |
| Assembly.Sw | probe-rs/src/architecture/mips/assembly.rs:603-609 | for reg, base below 32 and off below 2^16, the word decodes as microMIPS opcode MMIPS32_OP_SW, bits 25:21 reg, bits 20:16 base, immediate off when `micro`, else as MIPS32 opcode MIPS32_OP_SW, bits 25:21 base, bits 20:16 reg, immediate off |
| Assembly.Sll | probe-rs/src/architecture/mips/assembly.rs:611-617 | for dst, src, sa below 32, the word decodes as microMIPS POOL32A with bits 25:21 dst, bits 20:16 src, bits 15:11 sa, minor opcode MMIPS32_OP_SLL when `micro`, else as MIPS32 opcode MIPS32_OP_SPECIAL, bits 25:21 0, bits 20:16 src, bits 15:11 dst, bits 10:6 sa, bits 5:0 MIPS32_OP_SLL |
| Assembly.Slti | probe-rs/src/architecture/mips/assembly.rs:618-624 | for tar, src below 32 and val below 2^16, the word decodes as microMIPS opcode MMIPS32_OP_SLTI, bits 25:21 tar, bits 20:16 src, immediate val when `micro`, else as MIPS32 opcode MIPS32_OP_SLTI, bits 25:21 src, bits 20:16 tar, immediate val |
| Assembly.Sltu | probe-rs/src/architecture/mips/assembly.rs:625-631 | for dst, src, tar below 32, the word decodes as microMIPS POOL32A with bits 25:21 tar, bits 20:16 src, bits 15:11 dst, minor opcode MMIPS32_OP_SLTU when `micro`, else as MIPS32 opcode MIPS32_OP_SPECIAL, bits 25:21 src, bits 20:16 tar, bits 15:11 dst, bits 10:6 0, bits 5:0 MIPS32_OP_SLTU |
| Assembly.Srl | probe-rs/src/architecture/mips/assembly.rs:632-638 | for reg, src, off below 32, the word decodes as microMIPS POOL32A with bits 25:21 reg, bits 20:16 src, bits 15:11 off, minor opcode MMIPS32_OP_SRL when `micro`, else as MIPS32 opcode MIPS32_OP_SPECIAL, bits 25:21 0, bits 20:16 src, bits 15:11 reg, bits 10:6 off, bits 5:0 the SRA function code 3 that probe-rs writes |
| Assembly.SrlCorrected | probe-rs/src/architecture/mips/assembly.rs:632-638 | the same dispatch with the standard SRL function code 2 in the MIPS32 word; the microMIPS word equals that of `Srl` |
| Assembly.Synci | probe-rs/src/architecture/mips/assembly.rs:640-646 | for base below 32 and off below 2^16, the word decodes as microMIPS opcode POOL32I, bits 25:21 MMIPS32_OP_SYNCI, bits 20:16 base, immediate off when `micro`, else as MIPS32 opcode MIPS32_OP_REGIMM, bits 25:21 base, bits 20:16 MIPS32_OP_SYNCI, immediate off |
| Assembly.Sync | probe-rs/src/architecture/mips/assembly.rs:647-653 | microMIPS: the literal probe-rs writes, a POOL32AXF word with extension 0x069; MIPS32: SPECIAL with function 0x0F (SYNC) and every register field zero |
| Assembly.SyncCorrected | probe-rs/src/architecture/mips/assembly.rs:647-653 | the same dispatch with the microMIPS POOL32AXF word carrying the SYNC extension 0x1AD; it differs from `Sync` exactly in the microMIPS case |
| Assembly.Xor | probe-rs/src/architecture/mips/assembly.rs:654-660 | for reg, val1, val2 below 32, the word decodes as microMIPS POOL32A with bits 25:21 val1, bits 20:16 val2, bits 15:11 reg, minor opcode MMIPS32_OP_XOR when `micro`, else as MIPS32 opcode MIPS32_OP_SPECIAL, bits 25:21 val1, bits 20:16 val2, bits 15:11 reg, bits 10:6 0, bits 5:0 MIPS32_OP_XOR |
| Assembly.Xori | probe-rs/src/architecture/mips/assembly.rs:661-667 | for tar, src below 32 and val below 2^16, the word decodes as microMIPS opcode MMIPS32_OP_XORI, bits 25:21 tar, bits 20:16 src, immediate val when `micro`, else as MIPS32 opcode MIPS32_OP_XORI, bits 25:21 src, bits 20:16 tar, immediate val |
| Assembly.SynciStep | probe-rs/src/architecture/mips/assembly.rs:669-671 | the SYNCI address step is 1 in both encodings; it stands for `mips32_synci_step` and for the two identical encoder-level functions at assembly.rs:273-275 and assembly.rs:395-397 |
| Assembly.Dret | probe-rs/src/architecture/mips/assembly.rs:674-680 | microMIPS: POOL32AXF extension 0x38D with zero register fields; MIPS32: COP0 major opcode, the CO bit set, bits 24:6 zero and function 0x1F |
| Assembly.Sdbbp | probe-rs/src/architecture/mips/assembly.rs:681-687 | microMIPS: POOL32AXF extension 0x36D with zero register fields; MIPS32: major opcode 0x1C, bits 25:6 zero (code 0) and function SDBBP |
| Assembly.Mips16Sdbbp | probe-rs/src/architecture/mips/assembly.rs:689-695 | the word fits in 16 bits; microMIPS: bits 15:10 are POOL16C (0x11) and bits 9:0 are 0x2C0; MIPS16e: major opcode 0x1D, bits 10:5 zero (code 0) and function 0x01 |
| Assembly.AddiuExample | probe-rs/src/architecture/mips/assembly.rs:158-160 | `addiu $t0, $zero, 100` encodes as 0x24080064 |
| Assembly.JumpExample | probe-rs/src/architecture/mips/assembly.rs:186-188 | the jump to 0x80001000 encodes as 0x08000400 |
| Errors.FromMipsError | probe-rs/src/architecture/mips/communication_interface.rs:63-71 | a probe failure becomes the crate's probe error carrying the same probe error, `TargetError` becomes a timeout, and exactly the other MIPS failures are wrapped unchanged; the result is never an address or probe-opening error |
| Errors.FromMipsErrorRoundTrip | probe-rs/src/architecture/mips/communication_interface.rs:63-71 | the conversion loses nothing: the MIPS failure is recovered from every converted error |
| Errors.ToMipsErrorRoundTrip | probe-rs/src/architecture/mips/communication_interface.rs:63-71 | every crate-wide error that names a MIPS failure is the conversion of that failure |
| Errors.FromMipsErrorInjective | probe-rs/src/architecture/mips/communication_interface.rs:63-71 | two different MIPS failures never convert to the same crate-wide error |
| Ejtag.VersionFromRaw | probe-rs/src/architecture/mips/ejtag.rs:20-33 | raw 255 and only 255 gives `NoModule`; raw values 6 to 254 and only those give `Unknown` carrying the raw value |
| Ejtag.VersionFromRawRoundTrip | probe-rs/src/architecture/mips/ejtag.rs:20-33 | every raw byte decodes to a canonical version that encodes back to the same byte |
| Ejtag.RawOfVersionRoundTrip | probe-rs/src/architecture/mips/ejtag.rs:20-33 | every canonical version is the decoding of its raw byte, so the decoding is a bijection between bytes and canonical versions |
| Ejtag.VersionField | probe-rs/src/architecture/mips/ejtag.rs:186 | the version field taken from IMPCODE is below 8 and equals bits 31:29 of the word |
| Ejtag.VersionFromImpcodeRange | probe-rs/src/architecture/mips/ejtag.rs:186 | the version read from IMPCODE is never `NoModule`, is `Unknown` only for raw 6 or 7, is EJTAG 2.0 exactly when bits 31:29 are zero, and encodes back to those bits |
| Ejtag.LayoutSelection | probe-rs/src/architecture/mips/ejtag.rs:229-259 | EJTAG 2.0 and only 2.0 gets the 2.0 breakpoint layout, every other version the 2.5 one; only the 2.0 layout has zero ASID offsets |
| Ejtag.LayoutValues | probe-rs/src/architecture/mips/ejtag.rs:80-168 | the addresses, offsets and step sizes of both breakpoint layouts are the EJTAG 2.0 and 2.5 constants |
| Ejtag.LeWordOfLeBytes | probe-rs/src/architecture/mips/ejtag.rs:174-185 | a word written as four little-endian bytes reads back as the same word |
| Ejtag.LeBytesOfLeWord | probe-rs/src/architecture/mips/ejtag.rs:174-185 | the word read from a reply of at least four bytes writes back as exactly its first four bytes |
| Ejtag.ConnectCalls | probe-rs/src/architecture/mips/ejtag.rs:171-200 | the calls a connect attempt makes: first the 5-bit instruction width, then the IDCODE, IMPCODE and CONTROL reads in that order, as many as the attempt reaches |
| Ejtag.PlanConnectSpec | probe-rs/src/architecture/mips/ejtag.rs:171-200 | all three registers are read exactly when every reply holds a word, and the words are the replies' first four bytes; the attempt stops at read k with reply k's failure, or panics on a short reply k, only when every earlier reply held a word |
| Ejtag.PlanConnectReadsFourBytes | probe-rs/src/architecture/mips/ejtag.rs:174-193 | bytes of a reply beyond the fourth never affect the connect result |
| Ejtag.Zeros | probe-rs/src/architecture/mips/ejtag.rs:265-266 | the payload scanned in to enter debug mode has the requested length and every byte zero |
| Ejtag.JtagProbe.ReadRegister | probe-rs/src/architecture/mips/ejtag.rs:174 | a read scan appends exactly one read call to the probe's log and returns the reply the probe gives to that call |
| Ejtag.EjtagSession.Init | probe-rs/src/architecture/mips/ejtag.rs:195-261 | the session built after three successful reads holds the probe and those words, the version of IMPCODE, the MIPS16 bit of IMPCODE as its ISA, zero in every other cache, and exactly the breakpoint layout of its version (the 2.0 layout keeps zero ASID offsets) |
| Ejtag.EjtagSession.Connect | probe-rs/src/architecture/mips/ejtag.rs:171-262 | the probe's log grows by exactly the connect calls; the session is created exactly when all three replies hold a word and then holds what `PlanConnectSpec` describes; a failed read hands back the same probe with that read's error; a short reply is a panic |
| Ejtag.EjtagSession.EnterDebug | probe-rs/src/architecture/mips/ejtag.rs:263-268 | sets the 5-bit instruction width, then scans 32 zero bytes into EJTAGBOOT, and fails exactly when that scan fails, with its error |
| CommunicationInterface.Valid32BitAddress | probe-rs/src/architecture/mips/communication_interface.rs:109-110 | an address is accepted exactly when it is below 2^32, as the same value; any other is refused as out of range with that address |
| CommunicationInterface.ReadWord32Outcome | probe-rs/src/architecture/mips/communication_interface.rs:109-112 | a 32-bit read never completes: it fails exactly for addresses of 2^32 and above, with the out-of-range error, and otherwise reaches the unimplemented body |
| CommunicationInterface.Compose64Halves | probe-rs/src/architecture/mips/communication_interface.rs:101-107 | `hi << 32 \| lo` has `lo` as its low half and `hi` as its high half |
| CommunicationInterface.Compose64Split | probe-rs/src/architecture/mips/communication_interface.rs:101-107 | every 64-bit word is the composition of its two halves |
| CommunicationInterface.ReadWord64Via | probe-rs/src/architecture/mips/communication_interface.rs:101-107 | for any 32-bit reader: a failure or panic of the low read is passed on unchanged; after a completed low read, an `address + 4` that overflows panics with the overflow message and a failure or panic of the high read is passed on unchanged; the read completes exactly when both reads complete and `address + 4` does not overflow; then the low half is the word at `address` and the high half the word at `address + 4` |
| CommunicationInterface.ReadWord64AsWritten | probe-rs/src/architecture/mips/communication_interface.rs:101-112 | with the interface's own 32-bit read, a 64-bit read fails with the out-of-range error at addresses of 2^32 and above and otherwise panics in the unimplemented body |
| CommunicationInterface.MipsCommunicationInterface.New | probe-rs/src/architecture/mips/communication_interface.rs:84-93 | the interface is created exactly when the EJTAG connect sequence completes, and then owns that session and records its version; a refused connect hands back the same probe with the failure; the probe sees exactly the connect calls |
| CommunicationInterface.MipsCommunicationInterface.SupportsNative64BitAccess | probe-rs/src/architecture/mips/communication_interface.rs:96-99 | native 64-bit access is never supported |
| CommunicationInterface.MipsCommunicationInterface.ReadWord32 | probe-rs/src/architecture/mips/communication_interface.rs:109-112 | follows `ReadWord32Outcome`: fails exactly for addresses of 2^32 and above |
| CommunicationInterface.MipsCommunicationInterface.ReadWord64 | probe-rs/src/architecture/mips/communication_interface.rs:101-107 | is `ReadWord64Via` over the interface's own 32-bit read, so it fails exactly for addresses of 2^32 and above and never completes |
| CommunicationInterface.MipsCommunicationInterface.Supports8BitTransfers | probe-rs/src/architecture/mips/communication_interface.rs:154-156 | byte transfers are always reported as supported |
| CommunicationInterface.MipsCommunicationInterface.Flush | probe-rs/src/architecture/mips/communication_interface.rs:158-160 | flushing always succeeds |
| RegistersBase.RegisterSetLayout | probe-rs/src/architecture/mips/registers/base.rs:6-232 | the register set has 35 entries with identifiers 0 to 31, 33, 34 and 37 in order; entries 0 to 28 carry their `rN` name as first role; entries 29, 30, 31 and 34 are SP, FP, RA and PC; 32 and 33 are `lo` and `hi` |
| RegistersBase.RegisterSetIdsUnique | probe-rs/src/architecture/mips/registers/base.rs:41-232 | identifiers strictly increase along the register set, so no two entries share one |
| RegistersBase.SpecialRolesInRegisterSet | probe-rs/src/architecture/mips/registers/base.rs:6-232 | every entry's stack-pointer, frame-pointer, return-address and program-counter roles sit on identifiers 29, 30, 31 and 37; the status register is not such an entry |
| RegistersBase.RegisterSetAllClearedWords | probe-rs/src/architecture/mips/registers/base.rs:41-232 | every entry is an unsigned 32-bit register |
| RegistersBase.ReturnRolesBothV0 | probe-rs/src/architecture/mips/registers/base.rs:41-232 | the `v0` return-value role sits on exactly entries 2 and 3, and every return role is named `v0` |
| RegistersCp0.Cp0IdRoundTrip | probe-rs/src/architecture/mips/registers/cp0.rs:7-1160 | a CP0 identifier built from a register number below 32 and a select below 8 gives back both, and carries the 0x80 marker in its high byte |
| RegistersCp0.Cp0IdFromFields | probe-rs/src/architecture/mips/registers/cp0.rs:7-1160 | every identifier with the 0x80 high byte is the identifier of its register number and select |
| RegistersCp0.Cp0NameInjective | probe-rs/src/architecture/mips/registers/cp0.rs:7-1160 | no two (register, select) pairs share a `cp0.R.S` name |
| RegistersCp0.Cp0CatalogNamed | probe-rs/src/architecture/mips/registers/cp0.rs:7-1160 | the CP0 table has 131 entries, each named `cp0.R.S` after its own identifier |
| RegistersCp0.Cp0CatalogIdsMatchNames | probe-rs/src/architecture/mips/registers/cp0.rs:7-1160 | every CP0 identifier carries the 0x8000 marker, and an entry named `cp0.R.S` has identifier 0x8000 + 8R + S |
| RegistersCp0.Cp0CatalogSorted | probe-rs/src/architecture/mips/registers/cp0.rs:7-1160 | the table is sorted by select, then by register number, so no (register, select) pair and no identifier appears twice |
| RegistersCp0.Cp0CatalogOmits21And22 | probe-rs/src/architecture/mips/registers/cp0.rs:7-1160 | CP0 registers 21 and 22 appear at no select |
| RegistersCp0.Cp0CatalogAllClearedWords | probe-rs/src/architecture/mips/registers/cp0.rs:7-1160 | every CP0 entry is an unsigned 32-bit register |
| RegistersCp0.Cp0SpotChecks | probe-rs/src/architecture/mips/registers/cp0.rs:7-1160 | entry 21 is the Debug register `cp0.23.0` with identifier 0x80B8, and entry 40 is Config1 `cp0.16.1` with identifier 0x8081 |
| RegistersDsp.DspTableLayout | probe-rs/src/architecture/mips/registers/dsp.rs:6-49 | the DSP table has 7 entries with identifiers 72 to 78 in order, each with its own name as only role |
| RegistersDsp.DspTableAllClearedWords | probe-rs/src/architecture/mips/registers/dsp.rs:6-49 | every DSP entry is an unsigned 32-bit register |
| RegistersDsp.DspIdsOutsideCp0Space | probe-rs/src/architecture/mips/registers/dsp.rs:6-49 | no DSP identifier carries the CP0 marker |
| RegistersMod.CoreCatalogOrder | probe-rs/src/architecture/mips/registers/mod.rs:15-22 | the core catalogue is the 35 base registers followed by the 131 CP0 registers, in order |
| RegistersMod.WithFpuCatalogOrder | probe-rs/src/architecture/mips/registers/mod.rs:24-32 | the FPU catalogue is the base registers, then the FPU registers, then the CP0 registers, in order |
| RegistersMod.WithFpuExtendsCore | probe-rs/src/architecture/mips/registers/mod.rs:15-32 | the FPU catalogue holds every register of the core catalogue, and exactly those plus the FPU registers |
| RegistersMod.CatalogIdRanges | probe-rs/src/architecture/mips/registers/mod.rs:15-32 | base identifiers are at most 37 and every CP0 identifier carries the 0x8000 marker |
| RegistersMod.CoreCatalogHasNoDsp | probe-rs/src/architecture/mips/registers/mod.rs:15-22 | no DSP register is in the core catalogue |
| RegistersMod.WithFpuCatalogDsp | probe-rs/src/architecture/mips/registers/mod.rs:24-32 | a DSP register is in the FPU catalogue exactly when the FPU table holds it |
| RegistersMod.CoreCatalogIdsUnique | probe-rs/src/architecture/mips/registers/mod.rs:15-22 | no two registers of the core catalogue share an identifier |
| RegistersMod.WithFpuCatalogIdsUnique | probe-rs/src/architecture/mips/registers/mod.rs:24-32 | for an FPU table with distinct identifiers between 38 and 0x7FFF, no two registers of the FPU catalogue share an identifier |
| LegacyRegisters.LegacyBaseMatchesBase | probe-rs/src/architecture/mips/registers.rs:63-254 | the legacy register set has the same 35 identifiers and data types as the newer one, entry by entry |
| LegacyRegisters.LegacyBaseLayout | probe-rs/src/architecture/mips/registers.rs:9-35 | the legacy register set has the same identifier layout, all unsigned 32-bit, with SP, FP, RA and PC at entries 29, 30, 31 and 34 |
| LegacyRegisters.LegacyBaseOmitsStatus | probe-rs/src/architecture/mips/registers.rs:36-41 | the status register is defined but not in the legacy register set |
| LegacyRegisters.LegacyBaseRoles | probe-rs/src/architecture/mips/registers.rs:63-254 | for entries 0 to 28, the legacy first role is the name as a generic role where the newer set has it as a core role, and the second role is the same |
| LegacyRegisters.LegacyFpuLayout | probe-rs/src/architecture/mips/registers.rs:256-467 | the legacy FPU table has 34 entries with identifiers 38 to 71; `f0` to `f31` are 32-bit floating-point registers, `fcsr` and `fir` unsigned 32-bit status registers |
| LegacyRegisters.LegacyDspMatchesDsp | probe-rs/src/architecture/mips/registers.rs:469-512 | the legacy DSP table has the same identifiers 72 to 78 and names as the newer one, with each role listed twice |
| LegacyRegisters.LegacyCp0MatchesCp0 | probe-rs/src/architecture/mips/registers.rs:515-1668 | the legacy CP0 table equals the newer one entry by entry, and each entry's first role is its name |
| LegacyRegisters.LegacyCp0IdsMatchNames | probe-rs/src/architecture/mips/registers.rs:515-1668 | a legacy CP0 entry named `cp0.R.S` has identifier 0x8000 + 8R + S |
| LegacyRegisters.LegacyNamesMatchFirstRole | probe-rs/src/architecture/mips/registers.rs:63-1668 | in every legacy table each entry's name is its first role |
| LegacyRegisters.LegacyCoreCatalogMatchesModern | probe-rs/src/architecture/mips/registers.rs:44-51 | the legacy core catalogue has the identifiers of the newer one, in order, and leaves out the status register |
| LegacyRegisters.LegacyFpuCatalogMatchesModern | probe-rs/src/architecture/mips/registers.rs:53-61 | the legacy FPU catalogue has the identifiers of the newer catalogue built over the legacy FPU table, in order, and leaves out the status register |
| LegacyRegisters.LegacyCoreCatalogIdsUnique | probe-rs/src/architecture/mips/registers.rs:44-51 | no two registers of the legacy core catalogue share an identifier |
| LegacyRegisters.LegacyFpuCatalogIdsUnique | probe-rs/src/architecture/mips/registers.rs:53-61 | no two registers of the legacy FPU catalogue share an identifier |
| CoreState.CoreTypeRoundTrip | probe-rs/src/core/core_state.rs:240-264 | the core type of the state made for a core type is that type, except ARMv7-EM, whose state reports ARMv7-M; no state made from a core type is an ARMv7-EM state |
| CoreState.FromCoreTypeMerges | probe-rs/src/core/core_state.rs:240-251 | two core types give the same state only when they are equal or both are ARMv7-M / ARMv7-EM |
| CoreState.StateRoundTrip | probe-rs/src/core/core_state.rs:240-264 | every state other than an ARMv7-EM state is the state made from its own core type |
| CoreState.DpAddressRoundTrip | probe-rs/src/core/core_state.rs:204-207 | the debug port chosen for a port selector gives that selector back; selector 0 means the default port, and `Multidrop(0)` is never chosen |
| CoreState.MemoryApOf | probe-rs/src/core/core_state.rs:176-215 | panics exactly when the core's options are not ARM options; otherwise the access port has the options' AP number and the default debug port when the selector is 0, the multidrop port of the selector otherwise |
| CoreState.AttachArm | probe-rs/src/core/core_state.rs:35-85 | panics without ARM options; passes on the memory-interface error; refuses a non-ARM state as a mismatch; panics with the debug-base message when an ARMv7-A or ARMv8-A state has no debug base, and with the CTI-base message when an ARMv8-A state has a debug base but no CTI base; passes on the constructor's error once the bases are given; succeeds exactly with ARM options, a memory interface, the bases the state needs and a constructed core, keeping the core id, an ARM core kind that fits the state and the debug and CTI base addresses of the options |
| CoreState.AttachArmMismatchNeedsArmOptions | probe-rs/src/core/core_state.rs:35-85 | when neither collaborator reports a mismatch itself, the mismatch error is returned exactly for ARM options, a memory interface and a non-ARM state |
| CoreState.AttachRiscv | probe-rs/src/core/core_state.rs:139-153 | succeeds exactly for a RISC-V state, with a RISC-V core of the same id; otherwise the mismatch error |
| CoreState.AttachMips | probe-rs/src/core/core_state.rs:155-169 | succeeds exactly for a MIPS state, with a MIPS32 core of the same id; otherwise the mismatch error |
| CoreState.AttachExclusive | probe-rs/src/core/core_state.rs:35-169 | at most one attach function succeeds on a state, and the state made for the MIPS (or RISC-V) core type attaches as MIPS (or RISC-V) |
| CoreState.EnableArmDebug | probe-rs/src/core/core_state.rs:87-111 | panics exactly without ARM options; otherwise succeeds exactly when starting the debug core succeeds, and fails with its error |
| CoreState.ArmResetCatchSet | probe-rs/src/core/core_state.rs:113-137 | panics exactly without ARM options; otherwise succeeds exactly when the memory interface and setting the reset catch both succeed, failing with the first error |

## Left out

- The JTAG transport itself (`set_ir_len`, `read_register`, `write_register` of the probe) is not part of this model: a probe is a call log plus a reply function, which covers every behaviour a real probe can show.
- `fpu.rs` is not part of this model: the newer FPU catalogue is stated for any FPU table (`RegistersMod.WithFpuCoreRegisters`), and the legacy FPU table from `registers.rs` is the concrete instance.
- The crate function `valid_32bit_address` lies outside the modelled files. `CommunicationInterface.Valid32BitAddress` assumes its contract: it accepts the addresses below 2^32 and refuses the others. The variant `AddressOutOfRange` of `Errors.ProbeRsError` stands for the crate's out-of-range error.
- The memory operations whose bodies are unimplemented (`read_word_8`, `read_64`, `read_32`, `read_8` and every write) reach `todo!()` without checking anything first, so each is simply a panic; they are not modelled one by one.
- `CommunicationInterface.ReadWord64Via`: the overflow of `address + 4` is modelled as a debug-build panic; a release build would wrap around to a low address instead.
- `supports_hardware_breakpoint` reads one bit of the cached debug control register, which a new session always holds as zero; the bit-field accessor types (`IDCode`, `ImpCode`, `DebugCtrl`, `EjtagCtrl`) are modelled as plain 32-bit words.
- `CombinedCoreState::id` is a field accessor and is not modelled separately; `CombinedCoreState::core_type` delegates to `SpecificCoreState::core_type`, which `CoreState.CoreTypeOf` models, so the core type of a combined state `c` is `CoreTypeOf(c.specificState)`; the construction of the ARM, RISC-V and MIPS core objects (their memory interfaces, sequences and architecture state contents) is a parameter of the attach functions, not part of this model.
- Tracing and logging calls, the debug sequences (`sequences/`), and the architecture module's `mod.rs` are not part of this model.
- Operands wider than their field are not masked by probe-rs: each encoder's contract is stated for in-range operands, and `Assembly.IInstOverflow` shows what happens otherwise.

## Findings

| source | as written | input that shows it | evidently intended | confidence | as-written member | corrected member |
|---|---|---|---|---|---|---|
| probe-rs/src/architecture/mips/assembly.rs:39 | `MIPS32_OP_SRL` is 0x03, so `mips32_isa_srl` produces an SRA (arithmetic shift) word | `mips32_isa_srl(8, 9, 4)` gives function code 3 (SRA) | SRL has function code 0x02 | not executed | Assembly.IsaSrlAsWritten | Assembly.IsaSrl |
| probe-rs/src/architecture/mips/assembly.rs:384-386 | `mmips32_sync` returns 0x1A7C, a POOL32AXF word with extension 0x069 | `mmips32_sync()` decodes with extension 0x069, not the SYNC extension 0x1AD | the microMIPS SYNC word 0x6B7C | not executed | Assembly.MmSyncAsWritten | Assembly.MmSync |

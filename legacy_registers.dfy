/**
 * The older single-file MIPS register description. Its records carry a
 * display name besides roles, id and type, and have no unwind rule. It
 * holds the general-purpose set, an FPU table, a DSP table and the CP0
 * table, and chains them into two catalogs like the newer layout does.
 */
module LegacyRegisters {
  import opened RegisterTypes
  import RegistersBase
  import RegistersCp0
  import RegistersDsp
  import RegistersMod

  /** A register record of the older layout. */
  datatype LegacyRegister = LegacyRegister(
    name: string,
    roles: seq<RegisterRole>,
    id: bv16,
    dataType: RegisterDataType)

  const PC: LegacyRegister := LegacyRegister("pc", [ProgramCounter], 37, UnsignedInteger(32))
  const SP: LegacyRegister := LegacyRegister("sp", [StackPointer], 29, UnsignedInteger(32))
  const FP: LegacyRegister := LegacyRegister("fp", [FramePointer], 30, UnsignedInteger(32))
  const RA: LegacyRegister := LegacyRegister("ra", [ReturnAddress], 31, UnsignedInteger(32))
  /** Described, but not listed in any table. */
  const STATUS: LegacyRegister := LegacyRegister("status", [ProcessorStatus], 32, UnsignedInteger(32))

  /** Entries 0..17 of the general-purpose set. */
  function LegacyBaseLow(i: nat): LegacyRegister
    requires i < 18
  {
    match i
      case 0 => LegacyRegister("r0", [Other("r0"), Other("zero")], 0, UnsignedInteger(32))
      case 1 => LegacyRegister("r1", [Other("r1"), Other("at")], 1, UnsignedInteger(32))
      case 2 => LegacyRegister("r2", [Other("r2"), Return("v0")], 2, UnsignedInteger(32))
      case 3 => LegacyRegister("r3", [Other("r3"), Return("v0")], 3, UnsignedInteger(32))
      case 4 => LegacyRegister("r4", [Other("r4"), Argument("a0")], 4, UnsignedInteger(32))
      case 5 => LegacyRegister("r5", [Other("r5"), Argument("a1")], 5, UnsignedInteger(32))
      case 6 => LegacyRegister("r6", [Other("r6"), Argument("a2")], 6, UnsignedInteger(32))
      case 7 => LegacyRegister("r7", [Other("r7"), Argument("a3")], 7, UnsignedInteger(32))
      case 8 => LegacyRegister("r8", [Other("r8"), Other("t0")], 8, UnsignedInteger(32))
      case 9 => LegacyRegister("r9", [Other("r9"), Other("t1")], 9, UnsignedInteger(32))
      case 10 => LegacyRegister("r10", [Other("r10"), Other("t2")], 10, UnsignedInteger(32))
      case 11 => LegacyRegister("r11", [Other("r11"), Other("t3")], 11, UnsignedInteger(32))
      case 12 => LegacyRegister("r12", [Other("r12"), Other("t4")], 12, UnsignedInteger(32))
      case 13 => LegacyRegister("r13", [Other("r13"), Other("t5")], 13, UnsignedInteger(32))
      case 14 => LegacyRegister("r14", [Other("r14"), Other("t6")], 14, UnsignedInteger(32))
      case 15 => LegacyRegister("r15", [Other("r15"), Other("t7")], 15, UnsignedInteger(32))
      case 16 => LegacyRegister("r16", [Other("r16"), Other("s0")], 16, UnsignedInteger(32))
      case _ => LegacyRegister("r17", [Other("r17"), Other("s1")], 17, UnsignedInteger(32))
  }

  /** Entries 18..34 of the general-purpose set. */
  function LegacyBaseHigh(i: nat): LegacyRegister
    requires i < 17
  {
    match i
      case 0 => LegacyRegister("r18", [Other("r18"), Other("s2")], 18, UnsignedInteger(32))
      case 1 => LegacyRegister("r19", [Other("r19"), Other("s3")], 19, UnsignedInteger(32))
      case 2 => LegacyRegister("r20", [Other("r20"), Other("s4")], 20, UnsignedInteger(32))
      case 3 => LegacyRegister("r21", [Other("r21"), Other("s5")], 21, UnsignedInteger(32))
      case 4 => LegacyRegister("r22", [Other("r22"), Other("s6")], 22, UnsignedInteger(32))
      case 5 => LegacyRegister("r23", [Other("r23"), Other("s7")], 23, UnsignedInteger(32))
      case 6 => LegacyRegister("r24", [Other("r24"), Other("t8")], 24, UnsignedInteger(32))
      case 7 => LegacyRegister("r25", [Other("r25"), Other("t9")], 25, UnsignedInteger(32))
      case 8 => LegacyRegister("r26", [Other("r26"), Other("k0")], 26, UnsignedInteger(32))
      case 9 => LegacyRegister("r27", [Other("r27"), Other("k1")], 27, UnsignedInteger(32))
      case 10 => LegacyRegister("r28", [Other("r28"), Other("gp")], 28, UnsignedInteger(32))
      case 11 => SP
      case 12 => FP
      case 13 => RA
      case 14 => LegacyRegister("lo", [Other("lo")], 33, UnsignedInteger(32))
      case 15 => LegacyRegister("hi", [Other("hi")], 34, UnsignedInteger(32))
      case _ => PC
  }

  /** f0..f16. */
  function LegacyFpuLow(i: nat): LegacyRegister
    requires i < 17
  {
    match i
      case 0 => LegacyRegister("f0", [Other("f0"), FloatingPoint], 38, FloatingPointData(32))
      case 1 => LegacyRegister("f1", [Other("f1"), FloatingPoint], 39, FloatingPointData(32))
      case 2 => LegacyRegister("f2", [Other("f2"), FloatingPoint], 40, FloatingPointData(32))
      case 3 => LegacyRegister("f3", [Other("f3"), FloatingPoint], 41, FloatingPointData(32))
      case 4 => LegacyRegister("f4", [Other("f4"), FloatingPoint], 42, FloatingPointData(32))
      case 5 => LegacyRegister("f5", [Other("f5"), FloatingPoint], 43, FloatingPointData(32))
      case 6 => LegacyRegister("f6", [Other("f6"), FloatingPoint], 44, FloatingPointData(32))
      case 7 => LegacyRegister("f7", [Other("f7"), FloatingPoint], 45, FloatingPointData(32))
      case 8 => LegacyRegister("f8", [Other("f8"), FloatingPoint], 46, FloatingPointData(32))
      case 9 => LegacyRegister("f9", [Other("f9"), FloatingPoint], 47, FloatingPointData(32))
      case 10 => LegacyRegister("f10", [Other("f10"), FloatingPoint], 48, FloatingPointData(32))
      case 11 => LegacyRegister("f11", [Other("f11"), FloatingPoint], 49, FloatingPointData(32))
      case 12 => LegacyRegister("f12", [Other("f12"), FloatingPoint], 50, FloatingPointData(32))
      case 13 => LegacyRegister("f13", [Other("f13"), FloatingPoint], 51, FloatingPointData(32))
      case 14 => LegacyRegister("f14", [Other("f14"), FloatingPoint], 52, FloatingPointData(32))
      case 15 => LegacyRegister("f15", [Other("f15"), FloatingPoint], 53, FloatingPointData(32))
      case _ => LegacyRegister("f16", [Other("f16"), FloatingPoint], 54, FloatingPointData(32))
  }

  /** f17..f31, then fcsr and fir. */
  function LegacyFpuHigh(i: nat): LegacyRegister
    requires i < 17
  {
    match i
      case 0 => LegacyRegister("f17", [Other("f17"), FloatingPoint], 55, FloatingPointData(32))
      case 1 => LegacyRegister("f18", [Other("f18"), FloatingPoint], 56, FloatingPointData(32))
      case 2 => LegacyRegister("f19", [Other("f19"), FloatingPoint], 57, FloatingPointData(32))
      case 3 => LegacyRegister("f20", [Other("f20"), FloatingPoint], 58, FloatingPointData(32))
      case 4 => LegacyRegister("f21", [Other("f21"), FloatingPoint], 59, FloatingPointData(32))
      case 5 => LegacyRegister("f22", [Other("f22"), FloatingPoint], 60, FloatingPointData(32))
      case 6 => LegacyRegister("f23", [Other("f23"), FloatingPoint], 61, FloatingPointData(32))
      case 7 => LegacyRegister("f24", [Other("f24"), FloatingPoint], 62, FloatingPointData(32))
      case 8 => LegacyRegister("f25", [Other("f25"), FloatingPoint], 63, FloatingPointData(32))
      case 9 => LegacyRegister("f26", [Other("f26"), FloatingPoint], 64, FloatingPointData(32))
      case 10 => LegacyRegister("f27", [Other("f27"), FloatingPoint], 65, FloatingPointData(32))
      case 11 => LegacyRegister("f28", [Other("f28"), FloatingPoint], 66, FloatingPointData(32))
      case 12 => LegacyRegister("f29", [Other("f29"), FloatingPoint], 67, FloatingPointData(32))
      case 13 => LegacyRegister("f30", [Other("f30"), FloatingPoint], 68, FloatingPointData(32))
      case 14 => LegacyRegister("f31", [Other("f31"), FloatingPoint], 69, FloatingPointData(32))
      case 15 => LegacyRegister("fcsr", [Other("fcsr"), FloatingPointStatus], 70, UnsignedInteger(32))
      case _ => LegacyRegister("fir", [Other("fir"), FloatingPointStatus], 71, UnsignedInteger(32))
  }

  /** Entry `i` of the DSP table. */
  function LegacyDspEntry(i: nat): LegacyRegister
    requires i < 7
  {
    match i
      case 0 => LegacyRegister("hi1", [Other("hi1"), Other("hi1")], 72, UnsignedInteger(32))
      case 1 => LegacyRegister("lo1", [Other("lo1"), Other("lo1")], 73, UnsignedInteger(32))
      case 2 => LegacyRegister("hi2", [Other("hi2"), Other("hi2")], 74, UnsignedInteger(32))
      case 3 => LegacyRegister("lo2", [Other("lo2"), Other("lo2")], 75, UnsignedInteger(32))
      case 4 => LegacyRegister("hi3", [Other("hi3"), Other("hi3")], 76, UnsignedInteger(32))
      case 5 => LegacyRegister("lo3", [Other("lo3"), Other("lo3")], 77, UnsignedInteger(32))
      case _ => LegacyRegister("dspctl", [Other("dspctl"), Other("dspctl")], 78, UnsignedInteger(32))
  }

  /** The select-0 block of the CP0 table. */
  function LegacySel0Entry(i: nat): LegacyRegister
    requires i < 30
  {
    match i
      case 0 => LegacyRegister("cp0.0.0", [Other("cp0.0.0"), Other("index")], 0x8000, UnsignedInteger(32))
      case 1 => LegacyRegister("cp0.1.0", [Other("cp0.1.0"), Other("random")], 0x8000 | (1 << 3) | 0, UnsignedInteger(32))
      case 2 => LegacyRegister("cp0.2.0", [Other("cp0.2.0"), Other("entrylo0")], 0x8000 | (2 << 3) | 0, UnsignedInteger(32))
      case 3 => LegacyRegister("cp0.3.0", [Other("cp0.3.0"), Other("entrylo1")], 0x8000 | (3 << 3) | 0, UnsignedInteger(32))
      case 4 => LegacyRegister("cp0.4.0", [Other("cp0.4.0"), Other("context")], 0x8000 | (4 << 3) | 0, UnsignedInteger(32))
      case 5 => LegacyRegister("cp0.5.0", [Other("cp0.5.0"), Other("pagemask")], 0x8000 | (5 << 3) | 0, UnsignedInteger(32))
      case 6 => LegacyRegister("cp0.6.0", [Other("cp0.6.0"), Other("wired")], 0x8000 | (6 << 3) | 0, UnsignedInteger(32))
      case 7 => LegacyRegister("cp0.7.0", [Other("cp0.7.0"), Other("hwrena")], 0x8000 | (7 << 3) | 0, UnsignedInteger(32))
      case 8 => LegacyRegister("cp0.8.0", [Other("cp0.8.0"), Other("badvaddr")], 0x8000 | (8 << 3) | 0, UnsignedInteger(32))
      case 9 => LegacyRegister("cp0.9.0", [Other("cp0.9.0"), Other("count")], 0x8000 | (9 << 3) | 0, UnsignedInteger(32))
      case 10 => LegacyRegister("cp0.10.0", [Other("cp0.10.0"), Other("entryhi")], 0x8000 | (10 << 3) | 0, UnsignedInteger(32))
      case 11 => LegacyRegister("cp0.11.0", [Other("cp0.11.0"), Other("compare")], 0x8000 | (11 << 3) | 0, UnsignedInteger(32))
      case 12 => LegacyRegister("cp0.12.0", [Other("cp0.12.0"), Other("status")], 0x8000 | (12 << 3) | 0, UnsignedInteger(32))
      case 13 => LegacyRegister("cp0.13.0", [Other("cp0.13.0"), Other("cause")], 0x8000 | (13 << 3) | 0, UnsignedInteger(32))
      case 14 => LegacyRegister("cp0.14.0", [Other("cp0.14.0"), Other("epc")], 0x8000 | (14 << 3) | 0, UnsignedInteger(32))
      case 15 => LegacyRegister("cp0.15.0", [Other("cp0.15.0"), Other("prid")], 0x8000 | (15 << 3) | 0, UnsignedInteger(32))
      case 16 => LegacyRegister("cp0.16.0", [Other("cp0.16.0"), Other("config")], 0x8000 | (16 << 3) | 0, UnsignedInteger(32))
      case 17 => LegacyRegister("cp0.17.0", [Other("cp0.17.0"), Other("lladdr")], 0x8000 | (17 << 3) | 0, UnsignedInteger(32))
      case 18 => LegacyRegister("cp0.18.0", [Other("cp0.18.0"), Other("watchlo0")], 0x8000 | (18 << 3) | 0, UnsignedInteger(32))
      case 19 => LegacyRegister("cp0.19.0", [Other("cp0.19.0"), Other("watchhi0")], 0x8000 | (19 << 3) | 0, UnsignedInteger(32))
      case 20 => LegacyRegister("cp0.20.0", [Other("cp0.20.0"), Other("xcontext")], 0x8000 | (20 << 3) | 0, UnsignedInteger(32))
      case 21 => LegacyRegister("cp0.23.0", [Other("cp0.23.0"), Other("debug")], 0x8000 | (23 << 3) | 0, UnsignedInteger(32))
      case 22 => LegacyRegister("cp0.24.0", [Other("cp0.24.0"), Other("depc")], 0x8000 | (24 << 3) | 0, UnsignedInteger(32))
      case 23 => LegacyRegister("cp0.25.0", [Other("cp0.25.0"), Other("perfctl0")], 0x8000 | (25 << 3) | 0, UnsignedInteger(32))
      case 24 => LegacyRegister("cp0.26.0", [Other("cp0.26.0"), Other("errctl")], 0x8000 | (26 << 3) | 0, UnsignedInteger(32))
      case 25 => LegacyRegister("cp0.27.0", [Other("cp0.27.0"), Other("cacheerr")], 0x8000 | (27 << 3) | 0, UnsignedInteger(32))
      case 26 => LegacyRegister("cp0.28.0", [Other("cp0.28.0"), Other("itaglo")], 0x8000 | (28 << 3) | 0, UnsignedInteger(32))
      case 27 => LegacyRegister("cp0.29.0", [Other("cp0.29.0"), Other("itaghi")], 0x8000 | (29 << 3) | 0, UnsignedInteger(32))
      case 28 => LegacyRegister("cp0.30.0", [Other("cp0.30.0"), Other("errorepc")], 0x8000 | (30 << 3) | 0, UnsignedInteger(32))
      case _ => LegacyRegister("cp0.31.0", [Other("cp0.31.0"), Other("desave")], 0x8000 | (31 << 3) | 0, UnsignedInteger(32))
  }

  /** The select-1 block of the CP0 table. */
  function LegacySel1Entry(i: nat): LegacyRegister
    requires i < 19
  {
    match i
      case 0 => LegacyRegister("cp0.0.1", [Other("cp0.0.1"), Other("mvpcontrol")], 0x8000 | (0 << 3) | 1, UnsignedInteger(32))
      case 1 => LegacyRegister("cp0.1.1", [Other("cp0.1.1"), Other("vpecontrol")], 0x8000 | (1 << 3) | 1, UnsignedInteger(32))
      case 2 => LegacyRegister("cp0.2.1", [Other("cp0.2.1"), Other("tcstatus")], 0x8000 | (2 << 3) | 1, UnsignedInteger(32))
      case 3 => LegacyRegister("cp0.3.1", [Other("cp0.3.1"), Other("globalnumber")], 0x8000 | (3 << 3) | 1, UnsignedInteger(32))
      case 4 => LegacyRegister("cp0.4.1", [Other("cp0.4.1"), Other("contextconfig")], 0x8000 | (4 << 3) | 1, UnsignedInteger(32))
      case 5 => LegacyRegister("cp0.5.1", [Other("cp0.5.1"), Other("pagegrain")], 0x8000 | (5 << 3) | 1, UnsignedInteger(32))
      case 6 => LegacyRegister("cp0.6.1", [Other("cp0.6.1"), Other("srsconf0")], 0x8000 | (6 << 3) | 1, UnsignedInteger(32))
      case 7 => LegacyRegister("cp0.8.1", [Other("cp0.8.1"), Other("badinstr")], 0x8000 | (8 << 3) | 1, UnsignedInteger(32))
      case 8 => LegacyRegister("cp0.12.1", [Other("cp0.12.1"), Other("intctl")], 0x8000 | (12 << 3) | 1, UnsignedInteger(32))
      case 9 => LegacyRegister("cp0.15.1", [Other("cp0.15.1"), Other("ebase")], 0x8000 | (15 << 3) | 1, UnsignedInteger(32))
      case 10 => LegacyRegister("cp0.16.1", [Other("cp0.16.1"), Other("config1")], 0x8000 | (16 << 3) | 1, UnsignedInteger(32))
      case 11 => LegacyRegister("cp0.17.1", [Other("cp0.17.1"), Other("maar")], 0x8000 | (17 << 3) | 1, UnsignedInteger(32))
      case 12 => LegacyRegister("cp0.18.1", [Other("cp0.18.1"), Other("watchlo1")], 0x8000 | (18 << 3) | 1, UnsignedInteger(32))
      case 13 => LegacyRegister("cp0.19.1", [Other("cp0.19.1"), Other("watchhi1")], 0x8000 | (19 << 3) | 1, UnsignedInteger(32))
      case 14 => LegacyRegister("cp0.23.1", [Other("cp0.23.1"), Other("tracecontrol")], 0x8000 | (23 << 3) | 1, UnsignedInteger(32))
      case 15 => LegacyRegister("cp0.25.1", [Other("cp0.25.1"), Other("perfcnt0")], 0x8000 | (25 << 3) | 1, UnsignedInteger(32))
      case 16 => LegacyRegister("cp0.26.1", [Other("cp0.26.1"), Other("ierrctl")], 0x8000 | (26 << 3) | 1, UnsignedInteger(32))
      case 17 => LegacyRegister("cp0.28.1", [Other("cp0.28.1"), Other("idatalo")], 0x8000 | (28 << 3) | 1, UnsignedInteger(32))
      case _ => LegacyRegister("cp0.29.1", [Other("cp0.29.1"), Other("idatahi")], 0x8000 | (29 << 3) | 1, UnsignedInteger(32))
  }

  /** The select-2 block of the CP0 table. */
  function LegacySel2Entry(i: nat): LegacyRegister
    requires i < 19
  {
    match i
      case 0 => LegacyRegister("cp0.0.2", [Other("cp0.0.2"), Other("mvpconf0")], 0x8000 | (0 << 3) | 2, UnsignedInteger(32))
      case 1 => LegacyRegister("cp0.1.2", [Other("cp0.1.2"), Other("vpeconf0")], 0x8000 | (1 << 3) | 2, UnsignedInteger(32))
      case 2 => LegacyRegister("cp0.2.2", [Other("cp0.2.2"), Other("tcbind")], 0x8000 | (2 << 3) | 2, UnsignedInteger(32))
      case 3 => LegacyRegister("cp0.4.2", [Other("cp0.4.2"), Other("userlocal")], 0x8000 | (4 << 3) | 2, UnsignedInteger(32))
      case 4 => LegacyRegister("cp0.5.2", [Other("cp0.5.2"), Other("segctl0")], 0x8000 | (5 << 3) | 2, UnsignedInteger(32))
      case 5 => LegacyRegister("cp0.6.2", [Other("cp0.6.2"), Other("srsconf1")], 0x8000 | (6 << 3) | 2, UnsignedInteger(32))
      case 6 => LegacyRegister("cp0.8.2", [Other("cp0.8.2"), Other("badinstrp")], 0x8000 | (8 << 3) | 2, UnsignedInteger(32))
      case 7 => LegacyRegister("cp0.12.2", [Other("cp0.12.2"), Other("srsctl")], 0x8000 | (12 << 3) | 2, UnsignedInteger(32))
      case 8 => LegacyRegister("cp0.15.2", [Other("cp0.15.2"), Other("cdmmbase")], 0x8000 | (15 << 3) | 2, UnsignedInteger(32))
      case 9 => LegacyRegister("cp0.16.2", [Other("cp0.16.2"), Other("config2")], 0x8000 | (16 << 3) | 2, UnsignedInteger(32))
      case 10 => LegacyRegister("cp0.17.2", [Other("cp0.17.2"), Other("maari")], 0x8000 | (17 << 3) | 2, UnsignedInteger(32))
      case 11 => LegacyRegister("cp0.18.2", [Other("cp0.18.2"), Other("watchlo2")], 0x8000 | (18 << 3) | 2, UnsignedInteger(32))
      case 12 => LegacyRegister("cp0.19.2", [Other("cp0.19.2"), Other("watchhi2")], 0x8000 | (19 << 3) | 2, UnsignedInteger(32))
      case 13 => LegacyRegister("cp0.23.2", [Other("cp0.23.2"), Other("tracecontrol2")], 0x8000 | (23 << 3) | 2, UnsignedInteger(32))
      case 14 => LegacyRegister("cp0.24.2", [Other("cp0.24.2"), Other("tracecontrol3")], 0x8000 | (24 << 3) | 2, UnsignedInteger(32))
      case 15 => LegacyRegister("cp0.25.2", [Other("cp0.25.2"), Other("perfctl1")], 0x8000 | (25 << 3) | 2, UnsignedInteger(32))
      case 16 => LegacyRegister("cp0.28.2", [Other("cp0.28.2"), Other("dtaglo")], 0x8000 | (28 << 3) | 2, UnsignedInteger(32))
      case 17 => LegacyRegister("cp0.29.2", [Other("cp0.29.2"), Other("dtaghi")], 0x8000 | (29 << 3) | 2, UnsignedInteger(32))
      case _ => LegacyRegister("cp0.31.2", [Other("cp0.31.2"), Other("kscratch1")], 0x8000 | (31 << 3) | 2, UnsignedInteger(32))
  }

  /** The select-3 block of the CP0 table. */
  function LegacySel3Entry(i: nat): LegacyRegister
    requires i < 17
  {
    match i
      case 0 => LegacyRegister("cp0.0.3", [Other("cp0.0.3"), Other("mvpconf1")], 0x8000 | (0 << 3) | 3, UnsignedInteger(32))
      case 1 => LegacyRegister("cp0.1.3", [Other("cp0.1.3"), Other("vpeconf1")], 0x8000 | (1 << 3) | 3, UnsignedInteger(32))
      case 2 => LegacyRegister("cp0.2.3", [Other("cp0.2.3"), Other("tcrestart")], 0x8000 | (2 << 3) | 3, UnsignedInteger(32))
      case 3 => LegacyRegister("cp0.4.3", [Other("cp0.4.3"), Other("xcontextconfig")], 0x8000 | (4 << 3) | 3, UnsignedInteger(32))
      case 4 => LegacyRegister("cp0.5.3", [Other("cp0.5.3"), Other("segctl1")], 0x8000 | (5 << 3) | 3, UnsignedInteger(32))
      case 5 => LegacyRegister("cp0.6.3", [Other("cp0.6.3"), Other("srsconf2")], 0x8000 | (6 << 3) | 3, UnsignedInteger(32))
      case 6 => LegacyRegister("cp0.12.3", [Other("cp0.12.3"), Other("srsmap")], 0x8000 | (12 << 3) | 3, UnsignedInteger(32))
      case 7 => LegacyRegister("cp0.15.3", [Other("cp0.15.3"), Other("cmgcrbase")], 0x8000 | (15 << 3) | 3, UnsignedInteger(32))
      case 8 => LegacyRegister("cp0.16.3", [Other("cp0.16.3"), Other("config3")], 0x8000 | (16 << 3) | 3, UnsignedInteger(32))
      case 9 => LegacyRegister("cp0.18.3", [Other("cp0.18.3"), Other("watchlo3")], 0x8000 | (18 << 3) | 3, UnsignedInteger(32))
      case 10 => LegacyRegister("cp0.19.3", [Other("cp0.19.3"), Other("watchhi3")], 0x8000 | (19 << 3) | 3, UnsignedInteger(32))
      case 11 => LegacyRegister("cp0.23.3", [Other("cp0.23.3"), Other("usertracedata1")], 0x8000 | (23 << 3) | 3, UnsignedInteger(32))
      case 12 => LegacyRegister("cp0.24.3", [Other("cp0.24.3"), Other("usertracedata2")], 0x8000 | (24 << 3) | 3, UnsignedInteger(32))
      case 13 => LegacyRegister("cp0.25.3", [Other("cp0.25.3"), Other("perfcnt1")], 0x8000 | (25 << 3) | 3, UnsignedInteger(32))
      case 14 => LegacyRegister("cp0.28.3", [Other("cp0.28.3"), Other("ddatalo")], 0x8000 | (28 << 3) | 3, UnsignedInteger(32))
      case 15 => LegacyRegister("cp0.29.3", [Other("cp0.29.3"), Other("ddatahi")], 0x8000 | (29 << 3) | 3, UnsignedInteger(32))
      case _ => LegacyRegister("cp0.31.3", [Other("cp0.31.3"), Other("kscratch2")], 0x8000 | (31 << 3) | 3, UnsignedInteger(32))
  }

  /** The select-4 block of the CP0 table. */
  function LegacySel4Entry(i: nat): LegacyRegister
    requires i < 16
  {
    match i
      case 0 => LegacyRegister("cp0.1.4", [Other("cp0.1.4"), Other("yqmask")], 0x8000 | (1 << 3) | 4, UnsignedInteger(32))
      case 1 => LegacyRegister("cp0.2.4", [Other("cp0.2.4"), Other("tchalt")], 0x8000 | (2 << 3) | 4, UnsignedInteger(32))
      case 2 => LegacyRegister("cp0.4.4", [Other("cp0.4.4"), Other("debugcontextid")], 0x8000 | (4 << 3) | 4, UnsignedInteger(32))
      case 3 => LegacyRegister("cp0.5.4", [Other("cp0.5.4"), Other("segctl2")], 0x8000 | (5 << 3) | 4, UnsignedInteger(32))
      case 4 => LegacyRegister("cp0.6.4", [Other("cp0.6.4"), Other("srsconf3")], 0x8000 | (6 << 3) | 4, UnsignedInteger(32))
      case 5 => LegacyRegister("cp0.10.4", [Other("cp0.10.4"), Other("guestctl1")], 0x8000 | (10 << 3) | 4, UnsignedInteger(32))
      case 6 => LegacyRegister("cp0.12.4", [Other("cp0.12.4"), Other("view_ipl")], 0x8000 | (12 << 3) | 4, UnsignedInteger(32))
      case 7 => LegacyRegister("cp0.13.4", [Other("cp0.13.4"), Other("view_ripl")], 0x8000 | (13 << 3) | 4, UnsignedInteger(32))
      case 8 => LegacyRegister("cp0.15.4", [Other("cp0.15.4"), Other("bevva")], 0x8000 | (15 << 3) | 4, UnsignedInteger(32))
      case 9 => LegacyRegister("cp0.16.4", [Other("cp0.16.4"), Other("config4")], 0x8000 | (16 << 3) | 4, UnsignedInteger(32))
      case 10 => LegacyRegister("cp0.18.4", [Other("cp0.18.4"), Other("watchlo4")], 0x8000 | (18 << 3) | 4, UnsignedInteger(32))
      case 11 => LegacyRegister("cp0.19.4", [Other("cp0.19.4"), Other("watchhi4")], 0x8000 | (19 << 3) | 4, UnsignedInteger(32))
      case 12 => LegacyRegister("cp0.23.4", [Other("cp0.23.4"), Other("traceibpc")], 0x8000 | (23 << 3) | 4, UnsignedInteger(32))
      case 13 => LegacyRegister("cp0.25.4", [Other("cp0.25.4"), Other("perfctl2")], 0x8000 | (25 << 3) | 4, UnsignedInteger(32))
      case 14 => LegacyRegister("cp0.28.4", [Other("cp0.28.4"), Other("l23taglo")], 0x8000 | (28 << 3) | 4, UnsignedInteger(32))
      case _ => LegacyRegister("cp0.31.4", [Other("cp0.31.4"), Other("kscratch3")], 0x8000 | (31 << 3) | 4, UnsignedInteger(32))
  }

  /** The select-5 block of the CP0 table. */
  function LegacySel5Entry(i: nat): LegacyRegister
    requires i < 13
  {
    match i
      case 0 => LegacyRegister("cp0.1.5", [Other("cp0.1.5"), Other("vpeschedule")], 0x8000 | (1 << 3) | 5, UnsignedInteger(32))
      case 1 => LegacyRegister("cp0.2.5", [Other("cp0.2.5"), Other("tccontext")], 0x8000 | (2 << 3) | 5, UnsignedInteger(32))
      case 2 => LegacyRegister("cp0.4.5", [Other("cp0.4.5"), Other("mmid")], 0x8000 | (4 << 3) | 5, UnsignedInteger(32))
      case 3 => LegacyRegister("cp0.6.5", [Other("cp0.6.5"), Other("srsconf4")], 0x8000 | (6 << 3) | 5, UnsignedInteger(32))
      case 4 => LegacyRegister("cp0.12.5", [Other("cp0.12.5"), Other("srsmap2")], 0x8000 | (12 << 3) | 5, UnsignedInteger(32))
      case 5 => LegacyRegister("cp0.16.5", [Other("cp0.16.5"), Other("config5")], 0x8000 | (16 << 3) | 5, UnsignedInteger(32))
      case 6 => LegacyRegister("cp0.18.5", [Other("cp0.18.5"), Other("watchlo5")], 0x8000 | (18 << 3) | 5, UnsignedInteger(32))
      case 7 => LegacyRegister("cp0.19.5", [Other("cp0.19.5"), Other("watchhi5")], 0x8000 | (19 << 3) | 5, UnsignedInteger(32))
      case 8 => LegacyRegister("cp0.23.5", [Other("cp0.23.5"), Other("tracedbpc")], 0x8000 | (23 << 3) | 5, UnsignedInteger(32))
      case 9 => LegacyRegister("cp0.25.5", [Other("cp0.25.5"), Other("perfcnt2")], 0x8000 | (25 << 3) | 5, UnsignedInteger(32))
      case 10 => LegacyRegister("cp0.28.5", [Other("cp0.28.5"), Other("l23datalo")], 0x8000 | (28 << 3) | 5, UnsignedInteger(32))
      case 11 => LegacyRegister("cp0.29.5", [Other("cp0.29.5"), Other("l23datahi")], 0x8000 | (29 << 3) | 5, UnsignedInteger(32))
      case _ => LegacyRegister("cp0.31.5", [Other("cp0.31.5"), Other("kscratch4")], 0x8000 | (31 << 3) | 5, UnsignedInteger(32))
  }

  /** The select-6 block of the CP0 table. */
  function LegacySel6Entry(i: nat): LegacyRegister
    requires i < 9
  {
    match i
      case 0 => LegacyRegister("cp0.1.6", [Other("cp0.1.6"), Other("vpeschefback")], 0x8000 | (1 << 3) | 6, UnsignedInteger(32))
      case 1 => LegacyRegister("cp0.2.6", [Other("cp0.2.6"), Other("tcschedule")], 0x8000 | (2 << 3) | 6, UnsignedInteger(32))
      case 2 => LegacyRegister("cp0.12.6", [Other("cp0.12.6"), Other("guestctl0")], 0x8000 | (12 << 3) | 6, UnsignedInteger(32))
      case 3 => LegacyRegister("cp0.16.6", [Other("cp0.16.6"), Other("config6")], 0x8000 | (16 << 3) | 6, UnsignedInteger(32))
      case 4 => LegacyRegister("cp0.18.6", [Other("cp0.18.6"), Other("watchlo6")], 0x8000 | (18 << 3) | 6, UnsignedInteger(32))
      case 5 => LegacyRegister("cp0.19.6", [Other("cp0.19.6"), Other("watchhi6")], 0x8000 | (19 << 3) | 6, UnsignedInteger(32))
      case 6 => LegacyRegister("cp0.23.6", [Other("cp0.23.6"), Other("debug2")], 0x8000 | (23 << 3) | 6, UnsignedInteger(32))
      case 7 => LegacyRegister("cp0.25.6", [Other("cp0.25.6"), Other("perfctl3")], 0x8000 | (25 << 3) | 6, UnsignedInteger(32))
      case _ => LegacyRegister("cp0.31.6", [Other("cp0.31.6"), Other("kscratch5")], 0x8000 | (31 << 3) | 6, UnsignedInteger(32))
  }

  /** The select-7 block of the CP0 table. */
  function LegacySel7Entry(i: nat): LegacyRegister
    requires i < 8
  {
    match i
      case 0 => LegacyRegister("cp0.1.7", [Other("cp0.1.7"), Other("vpeopt")], 0x8000 | (1 << 3) | 7, UnsignedInteger(32))
      case 1 => LegacyRegister("cp0.2.7", [Other("cp0.2.7"), Other("tcschefback")], 0x8000 | (2 << 3) | 7, UnsignedInteger(32))
      case 2 => LegacyRegister("cp0.3.7", [Other("cp0.3.7"), Other("tcopt")], 0x8000 | (3 << 3) | 7, UnsignedInteger(32))
      case 3 => LegacyRegister("cp0.16.7", [Other("cp0.16.7"), Other("config7")], 0x8000 | (16 << 3) | 7, UnsignedInteger(32))
      case 4 => LegacyRegister("cp0.18.7", [Other("cp0.18.7"), Other("watchlo7")], 0x8000 | (18 << 3) | 7, UnsignedInteger(32))
      case 5 => LegacyRegister("cp0.19.7", [Other("cp0.19.7"), Other("watchhi7")], 0x8000 | (19 << 3) | 7, UnsignedInteger(32))
      case 6 => LegacyRegister("cp0.25.7", [Other("cp0.25.7"), Other("perfcnt3")], 0x8000 | (25 << 3) | 7, UnsignedInteger(32))
      case _ => LegacyRegister("cp0.31.7", [Other("cp0.31.7"), Other("kscratch6")], 0x8000 | (31 << 3) | 7, UnsignedInteger(32))
  }

  /** Entry `i` of the CP0 table. */
  function LegacyCp0Entry(i: nat): LegacyRegister
    requires i < 131
  {
    if i < 30 then LegacySel0Entry(i - 0) else
    if i < 49 then LegacySel1Entry(i - 30) else
    if i < 68 then LegacySel2Entry(i - 49) else
    if i < 85 then LegacySel3Entry(i - 68) else
    if i < 101 then LegacySel4Entry(i - 85) else
    if i < 114 then LegacySel5Entry(i - 101) else
    if i < 123 then LegacySel6Entry(i - 114) else
    LegacySel7Entry(i - 123)
  }

  /** Entry `i` of the general-purpose set. */
  function LegacyBaseEntry(i: nat): LegacyRegister
    requires i < 35
  {
    if i < 18 then LegacyBaseLow(i) else LegacyBaseHigh(i - 18)
  }

  /** Entry `i` of the FPU table. */
  function LegacyFpuEntry(i: nat): LegacyRegister
    requires i < 34
  {
    if i < 17 then LegacyFpuLow(i) else LegacyFpuHigh(i - 17)
  }

  /** The first `n` entries of a table given by its entry function, in order. */
  function BuildTable(n: nat, entry: nat --> LegacyRegister): (t: seq<LegacyRegister>)
    requires forall i :: 0 <= i < n ==> entry.requires(i)
    ensures |t| == n
    ensures forall i :: 0 <= i < n ==> t[i] == entry(i)
  {
    if n == 0 then [] else BuildTable(n - 1, entry) + [entry(n - 1)]
  }

  const BASE_COUNT: nat := 35
  const FPU_COUNT: nat := 34
  const DSP_COUNT: nat := 7
  const CP0_COUNT: nat := 131

  /** r0..r28, then SP, FP, RA, lo, hi and PC. */
  const MIPS32_REGISTERS_SET: seq<LegacyRegister> := BuildTable(BASE_COUNT, LegacyBaseEntry)
  /** f0..f31, fcsr and fir. */
  const MIPS32_FPU_REGISTERS: seq<LegacyRegister> := BuildTable(FPU_COUNT, LegacyFpuEntry)
  const MIPS32_DSP_REGISTERS: seq<LegacyRegister> := BuildTable(DSP_COUNT, LegacyDspEntry)
  /** CP0 registers, marked by the top id bit. */
  const MIPS32_CP0_REGISTERS: seq<LegacyRegister> := BuildTable(CP0_COUNT, LegacyCp0Entry)

  /** The general-purpose set chained with CP0. */
  const MIPS32_CORE_REGSISTERS: seq<LegacyRegister> := MIPS32_REGISTERS_SET + MIPS32_CP0_REGISTERS
  /** The general-purpose set, then the FPU table, then CP0. */
  const MIPS32_WITH_FPU_CORE_REGSISTERS: seq<LegacyRegister> :=
    MIPS32_REGISTERS_SET + MIPS32_FPU_REGISTERS + MIPS32_CP0_REGISTERS

  /** A register whose first role is a named one carries that role's name. */
  predicate NameMatchesFirstRole(r: LegacyRegister)
  {
    |r.roles| > 0 && r.roles[0].Other? ==> r.name == r.roles[0].name
  }

  /** The record in the newer layout with the same roles, id and type. */
  function ToCoreRegister(r: LegacyRegister): CoreRegister
  {
    CoreRegister(r.roles, r.id, r.dataType, Clear)
  }

  /**
   * Entry `i` of the older general-purpose set against the newer one: same id
   * and type; the older numbered registers spell their name as an `Other`
   * role where the newer use `Core`, and the older SP, FP and RA omit the
   * `Core` role.
   */
  predicate BaseAgrees(i: nat)
    requires i < 35
  {
    var l, m := LegacyBaseEntry(i), RegistersBase.RegisterSetEntry(i);
    l.id == m.id && l.dataType == m.dataType && NameMatchesFirstRole(l)
    && (i < 29 ==> |m.roles| == 2 && m.roles[0] == Core(l.name) && l.roles == [Other(l.name), m.roles[1]])
    && (29 <= i < 32 ==> l.roles == m.roles[1..])
    && (32 <= i ==> l.roles == m.roles)
  }

  lemma BaseAgreesChunk0()
    ensures forall i :: 0 <= i < 5 ==> BaseAgrees(i)
  {
    forall i | 0 <= i < 5 ensures BaseAgrees(i) {}
  }

  lemma BaseAgreesChunk1()
    ensures forall i :: 5 <= i < 10 ==> BaseAgrees(i)
  {
    forall i | 5 <= i < 10 ensures BaseAgrees(i) {}
  }

  lemma BaseAgreesChunk2()
    ensures forall i :: 10 <= i < 15 ==> BaseAgrees(i)
  {
    forall i | 10 <= i < 15 ensures BaseAgrees(i) {}
  }

  lemma BaseAgreesChunk3()
    ensures forall i :: 15 <= i < 20 ==> BaseAgrees(i)
  {
    forall i | 15 <= i < 20 ensures BaseAgrees(i) {}
  }

  lemma BaseAgreesChunk4()
    ensures forall i :: 20 <= i < 25 ==> BaseAgrees(i)
  {
    forall i | 20 <= i < 25 ensures BaseAgrees(i) {}
  }

  lemma BaseAgreesChunk5()
    ensures forall i :: 25 <= i < 30 ==> BaseAgrees(i)
  {
    forall i | 25 <= i < 30 ensures BaseAgrees(i) {}
  }

  lemma BaseAgreesChunk6()
    ensures forall i :: 30 <= i < 35 ==> BaseAgrees(i)
  {
    forall i | 30 <= i < 35 ensures BaseAgrees(i) {}
  }

  /** Entry `i` of the FPU table: f0..f31 are 32-bit floats with ids 38..69, then fcsr 70 and fir 71. */
  predicate FpuFacts(i: nat)
    requires i < 34
  {
    var r := LegacyFpuEntry(i);
    r.id as nat == 38 + i && NameMatchesFirstRole(r)
    && (i < 32 ==>
          r.name == ['f'] + Decimal(i) && r.roles == [Other(r.name), FloatingPoint] && r.dataType == FloatingPointData(32))
    && (i == 32 ==> r.name == "fcsr")
    && (i == 33 ==> r.name == "fir")
    && (i >= 32 ==> r.roles == [Other(r.name), FloatingPointStatus] && r.dataType == UnsignedInteger(32))
  }

  lemma FpuChunk0()
    ensures forall i :: 0 <= i < 6 ==> FpuFacts(i)
  {
    forall i | 0 <= i < 6 ensures FpuFacts(i) {}
  }

  lemma FpuChunk1()
    ensures forall i :: 6 <= i < 12 ==> FpuFacts(i)
  {
    forall i | 6 <= i < 12 ensures FpuFacts(i) {}
  }

  lemma FpuChunk2()
    ensures forall i :: 12 <= i < 18 ==> FpuFacts(i)
  {
    forall i | 12 <= i < 18 ensures FpuFacts(i) {}
  }

  lemma FpuChunk3()
    ensures forall i :: 18 <= i < 24 ==> FpuFacts(i)
  {
    forall i | 18 <= i < 24 ensures FpuFacts(i) {}
  }

  lemma FpuChunk4()
    ensures forall i :: 24 <= i < 30 ==> FpuFacts(i)
  {
    forall i | 24 <= i < 30 ensures FpuFacts(i) {}
  }

  lemma FpuChunk5()
    ensures forall i :: 30 <= i < 34 ==> FpuFacts(i)
  {
    forall i | 30 <= i < 34 ensures FpuFacts(i) {}
  }

  /** Entry `i` of the older CP0 table has the newer entry's roles, id and type, and is named by its first role. */
  predicate Cp0Agrees(i: nat)
    requires i < 131
  {
    var l, m := LegacyCp0Entry(i), RegistersCp0.Cp0Entry(i);
    l.roles == m.roles && l.id == m.id && l.dataType == m.dataType
    && |l.roles| > 0 && l.roles[0] == Other(l.name)
  }

  lemma Cp0AgreesChunk0()
    ensures forall i :: 0 <= i < 6 ==> Cp0Agrees(i)
  {
    forall i | 0 <= i < 6 ensures Cp0Agrees(i) {}
  }

  lemma Cp0AgreesChunk1()
    ensures forall i :: 6 <= i < 12 ==> Cp0Agrees(i)
  {
    forall i | 6 <= i < 12 ensures Cp0Agrees(i) {}
  }

  lemma Cp0AgreesChunk2()
    ensures forall i :: 12 <= i < 18 ==> Cp0Agrees(i)
  {
    forall i | 12 <= i < 18 ensures Cp0Agrees(i) {}
  }

  lemma Cp0AgreesChunk3()
    ensures forall i :: 18 <= i < 24 ==> Cp0Agrees(i)
  {
    forall i | 18 <= i < 24 ensures Cp0Agrees(i) {}
  }

  lemma Cp0AgreesChunk4()
    ensures forall i :: 24 <= i < 30 ==> Cp0Agrees(i)
  {
    forall i | 24 <= i < 30 ensures Cp0Agrees(i) {}
  }

  lemma Cp0AgreesChunk5()
    ensures forall i :: 30 <= i < 36 ==> Cp0Agrees(i)
  {
    forall i | 30 <= i < 36 ensures Cp0Agrees(i) {}
  }

  lemma Cp0AgreesChunk6()
    ensures forall i :: 36 <= i < 42 ==> Cp0Agrees(i)
  {
    forall i | 36 <= i < 42 ensures Cp0Agrees(i) {}
  }

  lemma Cp0AgreesChunk7()
    ensures forall i :: 42 <= i < 48 ==> Cp0Agrees(i)
  {
    forall i | 42 <= i < 48 ensures Cp0Agrees(i) {}
  }

  lemma Cp0AgreesChunk8()
    ensures forall i :: 48 <= i < 49 ==> Cp0Agrees(i)
  {
    forall i | 48 <= i < 49 ensures Cp0Agrees(i) {}
  }

  lemma Cp0AgreesChunk9()
    ensures forall i :: 49 <= i < 55 ==> Cp0Agrees(i)
  {
    forall i | 49 <= i < 55 ensures Cp0Agrees(i) {}
  }

  lemma Cp0AgreesChunk10()
    ensures forall i :: 55 <= i < 61 ==> Cp0Agrees(i)
  {
    forall i | 55 <= i < 61 ensures Cp0Agrees(i) {}
  }

  lemma Cp0AgreesChunk11()
    ensures forall i :: 61 <= i < 67 ==> Cp0Agrees(i)
  {
    forall i | 61 <= i < 67 ensures Cp0Agrees(i) {}
  }

  lemma Cp0AgreesChunk12()
    ensures forall i :: 67 <= i < 68 ==> Cp0Agrees(i)
  {
    forall i | 67 <= i < 68 ensures Cp0Agrees(i) {}
  }

  lemma Cp0AgreesChunk13()
    ensures forall i :: 68 <= i < 74 ==> Cp0Agrees(i)
  {
    forall i | 68 <= i < 74 ensures Cp0Agrees(i) {}
  }

  lemma Cp0AgreesChunk14()
    ensures forall i :: 74 <= i < 80 ==> Cp0Agrees(i)
  {
    forall i | 74 <= i < 80 ensures Cp0Agrees(i) {}
  }

  lemma Cp0AgreesChunk15()
    ensures forall i :: 80 <= i < 85 ==> Cp0Agrees(i)
  {
    forall i | 80 <= i < 85 ensures Cp0Agrees(i) {}
  }

  lemma Cp0AgreesChunk16()
    ensures forall i :: 85 <= i < 91 ==> Cp0Agrees(i)
  {
    forall i | 85 <= i < 91 ensures Cp0Agrees(i) {}
  }

  lemma Cp0AgreesChunk17()
    ensures forall i :: 91 <= i < 97 ==> Cp0Agrees(i)
  {
    forall i | 91 <= i < 97 ensures Cp0Agrees(i) {}
  }

  lemma Cp0AgreesChunk18()
    ensures forall i :: 97 <= i < 101 ==> Cp0Agrees(i)
  {
    forall i | 97 <= i < 101 ensures Cp0Agrees(i) {}
  }

  lemma Cp0AgreesChunk19()
    ensures forall i :: 101 <= i < 107 ==> Cp0Agrees(i)
  {
    forall i | 101 <= i < 107 ensures Cp0Agrees(i) {}
  }

  lemma Cp0AgreesChunk20()
    ensures forall i :: 107 <= i < 113 ==> Cp0Agrees(i)
  {
    forall i | 107 <= i < 113 ensures Cp0Agrees(i) {}
  }

  lemma Cp0AgreesChunk21()
    ensures forall i :: 113 <= i < 114 ==> Cp0Agrees(i)
  {
    forall i | 113 <= i < 114 ensures Cp0Agrees(i) {}
  }

  lemma Cp0AgreesChunk22()
    ensures forall i :: 114 <= i < 120 ==> Cp0Agrees(i)
  {
    forall i | 114 <= i < 120 ensures Cp0Agrees(i) {}
  }

  lemma Cp0AgreesChunk23()
    ensures forall i :: 120 <= i < 123 ==> Cp0Agrees(i)
  {
    forall i | 120 <= i < 123 ensures Cp0Agrees(i) {}
  }

  lemma Cp0AgreesChunk24()
    ensures forall i :: 123 <= i < 129 ==> Cp0Agrees(i)
  {
    forall i | 123 <= i < 129 ensures Cp0Agrees(i) {}
  }

  lemma Cp0AgreesChunk25()
    ensures forall i :: 129 <= i < 131 ==> Cp0Agrees(i)
  {
    forall i | 129 <= i < 131 ensures Cp0Agrees(i) {}
  }

  /** Position `i` of the general-purpose set holds its entry `i`. */
  lemma BaseIndexing()
    ensures |MIPS32_REGISTERS_SET| == 35
    ensures forall i :: 0 <= i < 35 ==> MIPS32_REGISTERS_SET[i] == LegacyBaseEntry(i)
  {
  }

  /** Position `i` of the FPU table holds its entry `i`. */
  lemma FpuIndexing()
    ensures |MIPS32_FPU_REGISTERS| == 34
    ensures forall i :: 0 <= i < 34 ==> MIPS32_FPU_REGISTERS[i] == LegacyFpuEntry(i)
  {
  }

  /** Position `i` of the DSP table holds its entry `i`. */
  lemma DspIndexing()
    ensures |MIPS32_DSP_REGISTERS| == 7
    ensures forall i :: 0 <= i < 7 ==> MIPS32_DSP_REGISTERS[i] == LegacyDspEntry(i)
  {
  }

  /** Position `i` of the CP0 table holds its entry `i`. */
  lemma Cp0Indexing()
    ensures |MIPS32_CP0_REGISTERS| == 131
    ensures forall i :: 0 <= i < 131 ==> MIPS32_CP0_REGISTERS[i] == LegacyCp0Entry(i)
  {
  }

  lemma BaseAgreesAll()
    ensures forall i :: 0 <= i < 35 ==> BaseAgrees(i)
  {
    BaseAgreesChunk0();
    BaseAgreesChunk1();
    BaseAgreesChunk2();
    BaseAgreesChunk3();
    BaseAgreesChunk4();
    BaseAgreesChunk5();
    BaseAgreesChunk6();
  }

  lemma FpuFactsAll()
    ensures forall i :: 0 <= i < 34 ==> FpuFacts(i)
  {
    FpuChunk0();
    FpuChunk1();
    FpuChunk2();
    FpuChunk3();
    FpuChunk4();
    FpuChunk5();
  }

  lemma Cp0AgreesAll()
    ensures forall i :: 0 <= i < 131 ==> Cp0Agrees(i)
  {
    Cp0AgreesChunk0();
    Cp0AgreesChunk1();
    Cp0AgreesChunk2();
    Cp0AgreesChunk3();
    Cp0AgreesChunk4();
    Cp0AgreesChunk5();
    Cp0AgreesChunk6();
    Cp0AgreesChunk7();
    Cp0AgreesChunk8();
    Cp0AgreesChunk9();
    Cp0AgreesChunk10();
    Cp0AgreesChunk11();
    Cp0AgreesChunk12();
    Cp0AgreesChunk13();
    Cp0AgreesChunk14();
    Cp0AgreesChunk15();
    Cp0AgreesChunk16();
    Cp0AgreesChunk17();
    Cp0AgreesChunk18();
    Cp0AgreesChunk19();
    Cp0AgreesChunk20();
    Cp0AgreesChunk21();
    Cp0AgreesChunk22();
    Cp0AgreesChunk23();
    Cp0AgreesChunk24();
    Cp0AgreesChunk25();
  }

  /** The older general-purpose set has the newer one's ids and types, position by position. */
  lemma LegacyBaseMatchesBase()
    ensures |MIPS32_REGISTERS_SET| == |RegistersBase.MIPS32_REGISTERS_SET| == 35
    ensures forall i :: 0 <= i < 35 ==>
      MIPS32_REGISTERS_SET[i].id == RegistersBase.MIPS32_REGISTERS_SET[i].id
      && MIPS32_REGISTERS_SET[i].dataType == RegistersBase.MIPS32_REGISTERS_SET[i].dataType
  {
    BaseIndexing();
    RegistersBase.RegisterSetIndexing();
    BaseAgreesAll();
    forall i | 0 <= i < 35
      ensures MIPS32_REGISTERS_SET[i].id == RegistersBase.MIPS32_REGISTERS_SET[i].id
        && MIPS32_REGISTERS_SET[i].dataType == RegistersBase.MIPS32_REGISTERS_SET[i].dataType
    {
      assert BaseAgrees(i);
    }
  }

  /**
   * r0..r28 have ids 0..28, SP 29, FP 30, RA 31, lo 33, hi 34 and PC 37, all
   * 32-bit integers.
   */
  lemma LegacyBaseLayout()
    ensures |MIPS32_REGISTERS_SET| == 35
    ensures forall i :: 0 <= i < 35 ==>
      MIPS32_REGISTERS_SET[i].id as nat == RegistersBase.LayoutId(i)
      && MIPS32_REGISTERS_SET[i].dataType == UnsignedInteger(32)
    ensures MIPS32_REGISTERS_SET[29] == SP && MIPS32_REGISTERS_SET[30] == FP
    ensures MIPS32_REGISTERS_SET[31] == RA && MIPS32_REGISTERS_SET[34] == PC
  {
    LegacyBaseMatchesBase();
    RegistersBase.RegisterSetLayout();
    RegistersBase.RegisterSetAllClearedWords();
    BaseIndexing();
  }

  /** The status register (id 32) is not in the older general-purpose set. */
  lemma LegacyBaseOmitsStatus()
    ensures STATUS !in MIPS32_REGISTERS_SET
  {
    LegacyBaseLayout();
    OmitsId(MIPS32_REGISTERS_SET, STATUS);
  }

  /** The status register (id 32) is not in the older FPU table. */
  lemma LegacyFpuOmitsStatus()
    ensures STATUS !in MIPS32_FPU_REGISTERS
  {
    LegacyFpuLayout();
    OmitsId(MIPS32_FPU_REGISTERS, STATUS);
  }

  /** The status register (id 32) is not in the older CP0 table, whose ids all have the top bit set. */
  lemma LegacyCp0OmitsStatus()
    ensures STATUS !in MIPS32_CP0_REGISTERS
  {
    LegacyCp0SameIds();
    RegistersMod.CatalogIdRanges();
    assert forall i :: 0 <= i < |MIPS32_CP0_REGISTERS| ==> MIPS32_CP0_REGISTERS[i].id & 0x8000 == 0x8000;
    OmitsId(MIPS32_CP0_REGISTERS, STATUS);
  }

  /**
   * r0..r28 carry their name as an `Other` role where the newer set has a
   * `Core` role of the same name, and keep the newer set's second role.
   */
  lemma LegacyBaseRoles()
    ensures |MIPS32_REGISTERS_SET| == |RegistersBase.MIPS32_REGISTERS_SET| == 35
    ensures forall i :: 0 <= i < 29 ==>
      |RegistersBase.MIPS32_REGISTERS_SET[i].roles| == 2
      && RegistersBase.MIPS32_REGISTERS_SET[i].roles[0] == Core(MIPS32_REGISTERS_SET[i].name)
      && MIPS32_REGISTERS_SET[i].roles == [Other(MIPS32_REGISTERS_SET[i].name), RegistersBase.MIPS32_REGISTERS_SET[i].roles[1]]
  {
    BaseIndexing();
    RegistersBase.RegisterSetIndexing();
    BaseAgreesAll();
    forall i | 0 <= i < 29
      ensures |RegistersBase.MIPS32_REGISTERS_SET[i].roles| == 2
        && RegistersBase.MIPS32_REGISTERS_SET[i].roles[0] == Core(MIPS32_REGISTERS_SET[i].name)
        && MIPS32_REGISTERS_SET[i].roles == [Other(MIPS32_REGISTERS_SET[i].name), RegistersBase.MIPS32_REGISTERS_SET[i].roles[1]]
    {
      assert BaseAgrees(i);
    }
  }

  /**
   * f0..f31 have ids 38..69, an `Other("fN")` role and the floating-point
   * role, and are 32-bit floats; fcsr (70) and fir (71) are 32-bit integers
   * with the floating-point status role.
   */
  lemma LegacyFpuLayout()
    ensures |MIPS32_FPU_REGISTERS| == 34
    ensures forall i :: 0 <= i < 34 ==> MIPS32_FPU_REGISTERS[i].id as nat == 38 + i
    ensures forall i :: 0 <= i < 32 ==>
      MIPS32_FPU_REGISTERS[i].roles == [Other(['f'] + Decimal(i)), FloatingPoint]
      && MIPS32_FPU_REGISTERS[i].dataType == FloatingPointData(32)
    ensures MIPS32_FPU_REGISTERS[32].roles == [Other("fcsr"), FloatingPointStatus]
    ensures MIPS32_FPU_REGISTERS[33].roles == [Other("fir"), FloatingPointStatus]
    ensures MIPS32_FPU_REGISTERS[32].dataType == MIPS32_FPU_REGISTERS[33].dataType == UnsignedInteger(32)
  {
    FpuIndexing();
    FpuFactsAll();
    assert FpuFacts(32) && FpuFacts(33);
    forall i | 0 <= i < 34 ensures MIPS32_FPU_REGISTERS[i].id as nat == 38 + i {
      assert FpuFacts(i);
    }
    forall i | 0 <= i < 32
      ensures MIPS32_FPU_REGISTERS[i].roles == [Other(['f'] + Decimal(i)), FloatingPoint]
        && MIPS32_FPU_REGISTERS[i].dataType == FloatingPointData(32)
    {
      assert FpuFacts(i);
    }
  }

  /** The older DSP table has the newer one's ids 72..78 in order, with each role name listed twice. */
  lemma LegacyDspMatchesDsp()
    ensures |MIPS32_DSP_REGISTERS| == 7
    ensures forall i :: 0 <= i < 7 ==>
      MIPS32_DSP_REGISTERS[i].id == RegistersDsp.MIPS32_DSP_REGISTERS[i].id
      && MIPS32_DSP_REGISTERS[i].id as nat == 72 + i
      && MIPS32_DSP_REGISTERS[i].name == RegistersDsp.DSP_NAMES[i]
      && MIPS32_DSP_REGISTERS[i].roles == RegistersDsp.MIPS32_DSP_REGISTERS[i].roles + RegistersDsp.MIPS32_DSP_REGISTERS[i].roles
      && NameMatchesFirstRole(MIPS32_DSP_REGISTERS[i])
  {
    DspIndexing();
    RegistersDsp.DspIndexing();
    RegistersDsp.DspTableLayout();
  }

  /** The older CP0 table is the newer one entry by entry, each named by its first role. */
  lemma LegacyCp0MatchesCp0()
    ensures |MIPS32_CP0_REGISTERS| == |RegistersCp0.MIPS32_CP0_REGISTERS| == 131
    ensures forall i :: 0 <= i < 131 ==>
      ToCoreRegister(MIPS32_CP0_REGISTERS[i]) == RegistersCp0.MIPS32_CP0_REGISTERS[i]
      && |MIPS32_CP0_REGISTERS[i].roles| > 0 && MIPS32_CP0_REGISTERS[i].roles[0] == Other(MIPS32_CP0_REGISTERS[i].name)
  {
    Cp0Indexing();
    RegistersCp0.Cp0Indexing();
    Cp0AgreesAll();
    RegistersCp0.Cp0CatalogAllClearedWords();
    forall i | 0 <= i < 131
      ensures ToCoreRegister(MIPS32_CP0_REGISTERS[i]) == RegistersCp0.MIPS32_CP0_REGISTERS[i]
        && |MIPS32_CP0_REGISTERS[i].roles| > 0 && MIPS32_CP0_REGISTERS[i].roles[0] == Other(MIPS32_CP0_REGISTERS[i].name)
    {
      assert Cp0Agrees(i);
      assert IsClearedWord(RegistersCp0.MIPS32_CP0_REGISTERS[i]);
    }
  }

  /** One CP0 entry: its name "cp0.R.S" fixes its id. */
  lemma LegacyCp0IdMatchesNameAt(i: nat, reg: bv16, sel: bv16)
    requires i < |MIPS32_CP0_REGISTERS| && reg < 32 && sel < 8
    requires MIPS32_CP0_REGISTERS[i].name == RegistersCp0.Cp0Name(reg, sel)
    ensures MIPS32_CP0_REGISTERS[i].id == RegistersCp0.Cp0Id(reg, sel)
  {
    LegacyCp0MatchesCp0();
    RegistersCp0.Cp0CatalogIdsMatchNames();
    assert RegistersCp0.MIPS32_CP0_REGISTERS[i].roles[0] == Other(RegistersCp0.Cp0Name(reg, sel));
  }

  /** A CP0 record named "cp0.R.S" has id 0x8000 | R << 3 | S. */
  lemma LegacyCp0IdsMatchNames()
    ensures forall i, reg: bv16, sel: bv16 ::
      (0 <= i < |MIPS32_CP0_REGISTERS| && reg < 32 && sel < 8
        && MIPS32_CP0_REGISTERS[i].name == RegistersCp0.Cp0Name(reg, sel))
      ==> MIPS32_CP0_REGISTERS[i].id == RegistersCp0.Cp0Id(reg, sel)
  {
    forall i, reg: bv16, sel: bv16 | 0 <= i < |MIPS32_CP0_REGISTERS| && reg < 32 && sel < 8
      && MIPS32_CP0_REGISTERS[i].name == RegistersCp0.Cp0Name(reg, sel)
      ensures MIPS32_CP0_REGISTERS[i].id == RegistersCp0.Cp0Id(reg, sel)
    {
      LegacyCp0IdMatchesNameAt(i, reg, sel);
    }
  }

  /** In the older general-purpose set and FPU table, a record whose first role is `Other(s)` is named s. */
  lemma LegacyBaseFpuNamesMatchFirstRole()
    ensures forall i :: 0 <= i < |MIPS32_REGISTERS_SET| ==> NameMatchesFirstRole(MIPS32_REGISTERS_SET[i])
    ensures forall i :: 0 <= i < |MIPS32_FPU_REGISTERS| ==> NameMatchesFirstRole(MIPS32_FPU_REGISTERS[i])
  {
    BaseIndexing();
    FpuIndexing();
    BaseAgreesAll();
    FpuFactsAll();
    forall i | 0 <= i < 35 ensures NameMatchesFirstRole(MIPS32_REGISTERS_SET[i]) {
      assert BaseAgrees(i);
    }
    forall i | 0 <= i < 34 ensures NameMatchesFirstRole(MIPS32_FPU_REGISTERS[i]) {
      assert FpuFacts(i);
    }
  }

  /** In every table of the older layout, a record whose first role is `Other(s)` is named s. */
  lemma LegacyNamesMatchFirstRole()
    ensures forall i :: 0 <= i < |MIPS32_REGISTERS_SET| ==> NameMatchesFirstRole(MIPS32_REGISTERS_SET[i])
    ensures forall i :: 0 <= i < |MIPS32_FPU_REGISTERS| ==> NameMatchesFirstRole(MIPS32_FPU_REGISTERS[i])
    ensures forall i :: 0 <= i < |MIPS32_DSP_REGISTERS| ==> NameMatchesFirstRole(MIPS32_DSP_REGISTERS[i])
    ensures forall i :: 0 <= i < |MIPS32_CP0_REGISTERS| ==> NameMatchesFirstRole(MIPS32_CP0_REGISTERS[i])
  {
    LegacyBaseFpuNamesMatchFirstRole();
    LegacyDspMatchesDsp();
    LegacyCp0MatchesCp0();
  }

  /** The older FPU table in the newer record shape. */
  function FpuAsCoreRegisters(): (fpu: seq<CoreRegister>)
    ensures |fpu| == |MIPS32_FPU_REGISTERS|
    ensures forall i :: 0 <= i < |fpu| ==> fpu[i] == ToCoreRegister(MIPS32_FPU_REGISTERS[i])
  {
    seq(|MIPS32_FPU_REGISTERS|, i requires 0 <= i < |MIPS32_FPU_REGISTERS| => ToCoreRegister(MIPS32_FPU_REGISTERS[i]))
  }

  /** Two tables list the same ids in the same order. */
  predicate SameIds(a: seq<LegacyRegister>, c: seq<CoreRegister>)
  {
    |a| == |c| && forall i :: 0 <= i < |a| ==> a[i].id == c[i].id
  }

  /** Chaining tables that list the same ids gives tables that list the same ids. */
  lemma SameIdsConcat(a: seq<LegacyRegister>, b: seq<LegacyRegister>, c: seq<CoreRegister>, d: seq<CoreRegister>)
    requires SameIds(a, c) && SameIds(b, d)
    ensures SameIds(a + b, c + d)
  {
    forall i | 0 <= i < |a + b| ensures (a + b)[i].id == (c + d)[i].id {
      if i < |a| {
        assert (a + b)[i] == a[i] && (c + d)[i] == c[i];
      } else {
        assert (a + b)[i] == b[i - |a|] && (c + d)[i] == d[i - |a|];
      }
    }
  }

  /** No two entries of a table share an id. */
  predicate DistinctIds(a: seq<LegacyRegister>)
  {
    forall i, j :: 0 <= i < j < |a| ==> a[i].id != a[j].id
  }

  /** A table listing the ids of a table without repeated ids repeats no id either. */
  lemma SameIdsUnique(a: seq<LegacyRegister>, c: seq<CoreRegister>)
    requires SameIds(a, c)
    requires forall i, j :: 0 <= i < j < |c| ==> c[i].id != c[j].id
    ensures DistinctIds(a)
  {
  }

  /** A record whose id no entry of a table has is not in the table. */
  lemma OmitsId(a: seq<LegacyRegister>, r: LegacyRegister)
    requires forall i :: 0 <= i < |a| ==> a[i].id != r.id
    ensures r !in a
  {
  }

  /** The older and newer CP0 tables list the same ids. */
  lemma LegacyCp0SameIds()
    ensures SameIds(MIPS32_CP0_REGISTERS, RegistersCp0.MIPS32_CP0_REGISTERS)
  {
    LegacyCp0MatchesCp0();
  }

  /** The older FPU table and its conversion list the same ids, 38..71, all distinct and outside CP0. */
  lemma LegacyFpuSameIds()
    ensures SameIds(MIPS32_FPU_REGISTERS, FpuAsCoreRegisters())
    ensures forall i :: 0 <= i < |FpuAsCoreRegisters()| ==> 37 < FpuAsCoreRegisters()[i].id as nat < 0x8000
    ensures forall i, j :: 0 <= i < j < |FpuAsCoreRegisters()| ==>
      FpuAsCoreRegisters()[i].id != FpuAsCoreRegisters()[j].id
  {
    LegacyFpuLayout();
  }

  /**
   * The older core catalog (general-purpose set, then CP0) lists the newer
   * core catalog's ids in the same order, and holds no status register.
   */
  lemma LegacyCoreCatalogMatchesModern()
    ensures SameIds(MIPS32_CORE_REGSISTERS, RegistersMod.MIPS32_CORE_REGISTERS)
    ensures STATUS !in MIPS32_CORE_REGSISTERS
  {
    LegacyBaseMatchesBase();
    LegacyCp0SameIds();
    LegacyBaseOmitsStatus();
    LegacyCp0OmitsStatus();
    SameIdsConcat(MIPS32_REGISTERS_SET, MIPS32_CP0_REGISTERS,
      RegistersBase.MIPS32_REGISTERS_SET, RegistersCp0.MIPS32_CP0_REGISTERS);
  }

  /**
   * The older FPU catalog (general-purpose set, FPU table, CP0) lists the
   * ids of the newer FPU catalog built over the older FPU table, in the same
   * order, and holds no status register.
   */
  lemma LegacyFpuCatalogMatchesModern()
    ensures SameIds(MIPS32_WITH_FPU_CORE_REGSISTERS, RegistersMod.WithFpuCoreRegisters(FpuAsCoreRegisters()))
    ensures STATUS !in MIPS32_WITH_FPU_CORE_REGSISTERS
  {
    LegacyBaseMatchesBase();
    LegacyCp0SameIds();
    LegacyFpuSameIds();
    LegacyBaseOmitsStatus();
    LegacyFpuOmitsStatus();
    LegacyCp0OmitsStatus();
    var fpu := FpuAsCoreRegisters();
    SameIdsConcat(MIPS32_REGISTERS_SET, MIPS32_FPU_REGISTERS, RegistersBase.MIPS32_REGISTERS_SET, fpu);
    SameIdsConcat(MIPS32_REGISTERS_SET + MIPS32_FPU_REGISTERS, MIPS32_CP0_REGISTERS,
      RegistersBase.MIPS32_REGISTERS_SET + fpu, RegistersCp0.MIPS32_CP0_REGISTERS);
  }

  /** No id appears twice in the older core catalog. */
  lemma LegacyCoreCatalogIdsUnique()
    ensures DistinctIds(MIPS32_CORE_REGSISTERS)
  {
    LegacyCoreCatalogMatchesModern();
    RegistersMod.CoreCatalogIdsUnique();
    SameIdsUnique(MIPS32_CORE_REGSISTERS, RegistersMod.MIPS32_CORE_REGISTERS);
  }

  /** No id appears twice in the older FPU catalog. */
  lemma LegacyFpuCatalogIdsUnique()
    ensures DistinctIds(MIPS32_WITH_FPU_CORE_REGSISTERS)
  {
    LegacyFpuCatalogMatchesModern();
    LegacyFpuSameIds();
    DistinctLikeFpuCatalog(MIPS32_WITH_FPU_CORE_REGSISTERS, FpuAsCoreRegisters());
  }

  /** A table listing the ids of a newer FPU catalog whose FPU ids are distinct and in range repeats no id. */
  lemma DistinctLikeFpuCatalog(a: seq<LegacyRegister>, fpu: seq<CoreRegister>)
    requires forall i :: 0 <= i < |fpu| ==> 37 < fpu[i].id as nat < 0x8000
    requires forall i, j :: 0 <= i < j < |fpu| ==> fpu[i].id != fpu[j].id
    requires SameIds(a, RegistersMod.WithFpuCoreRegisters(fpu))
    ensures DistinctIds(a)
  {
    RegistersMod.WithFpuCatalogIdsUnique(fpu);
    SameIdsUnique(a, RegistersMod.WithFpuCoreRegisters(fpu));
  }
}

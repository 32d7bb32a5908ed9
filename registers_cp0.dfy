/**
 * The coprocessor-0 register catalog. A CP0 register is addressed by a
 * register number R < 32 and a select S < 8; its debugger id is
 * 0x8000 | R << 3 | S, the top bit marking the coprocessor space, and its
 * first role spells "cp0.R.S".
 */
module RegistersCp0 {
  import opened RegisterTypes

  /** The register number encoded in a CP0 id. */
  function RegOf(id: bv16): (reg: bv16)
    ensures reg < 32
  {
    (id >> 3) & 0x1F
  }

  /** The select encoded in a CP0 id. */
  function SelOf(id: bv16): (sel: bv16)
    ensures sel < 8
  {
    id & 7
  }

  /** The id of CP0 register `reg`, select `sel`. */
  function Cp0Id(reg: bv16, sel: bv16): bv16
  {
    0x8000 | (reg << 3) | sel
  }

  /** The CP0 id encoding round-trips: register and select come back out, and the marker bit is set. */
  lemma Cp0IdRoundTrip(reg: bv16, sel: bv16)
    requires reg < 32 && sel < 8
    ensures RegOf(Cp0Id(reg, sel)) == reg && SelOf(Cp0Id(reg, sel)) == sel
    ensures Cp0Id(reg, sel) & 0xFF00 == 0x8000
  {
  }

  /** An id in the CP0 space is determined by its register and select, so the encoding is one-to-one. */
  lemma Cp0IdFromFields(id: bv16)
    requires id & 0xFF00 == 0x8000
    ensures id == Cp0Id(RegOf(id), SelOf(id))
  {
  }

  /** The name "cp0.R.S" of register R, select S. */
  function Cp0Name(reg: bv16, sel: bv16): string
    requires reg < 32 && sel < 8
  {
    "cp0." + Decimal(reg as nat) + "." + Decimal(sel as nat)
  }

  /** A well-formed CP0 description: id in the CP0 space, first role its "cp0.R.S" name, second role an alias. */
  predicate Cp0Named(r: CoreRegister)
  {
    r.id & 0xFF00 == 0x8000
    && |r.roles| == 2 && r.roles[1].Other?
    && r.roles[0] == Other(Cp0Name(RegOf(r.id), SelOf(r.id)))
  }

  /** The position of a register in select-major order. */
  function SortKey(r: CoreRegister): nat
  {
    (SelOf(r.id) as nat) * 32 + RegOf(r.id) as nat
  }

  /** The select-0 block, register numbers ascending. */
  function Sel0Entry(k: nat): CoreRegister
    requires k < 30
  {
    match k
      case 0 => CoreRegister([Other("cp0.0.0"), Other("index")], 0x8000, UnsignedInteger(32), Clear)
      case 1 => CoreRegister([Other("cp0.1.0"), Other("random")], 0x8000 | (1 << 3) | 0, UnsignedInteger(32), Clear)
      case 2 => CoreRegister([Other("cp0.2.0"), Other("entrylo0")], 0x8000 | (2 << 3) | 0, UnsignedInteger(32), Clear)
      case 3 => CoreRegister([Other("cp0.3.0"), Other("entrylo1")], 0x8000 | (3 << 3) | 0, UnsignedInteger(32), Clear)
      case 4 => CoreRegister([Other("cp0.4.0"), Other("context")], 0x8000 | (4 << 3) | 0, UnsignedInteger(32), Clear)
      case 5 => CoreRegister([Other("cp0.5.0"), Other("pagemask")], 0x8000 | (5 << 3) | 0, UnsignedInteger(32), Clear)
      case 6 => CoreRegister([Other("cp0.6.0"), Other("wired")], 0x8000 | (6 << 3) | 0, UnsignedInteger(32), Clear)
      case 7 => CoreRegister([Other("cp0.7.0"), Other("hwrena")], 0x8000 | (7 << 3) | 0, UnsignedInteger(32), Clear)
      case 8 => CoreRegister([Other("cp0.8.0"), Other("badvaddr")], 0x8000 | (8 << 3) | 0, UnsignedInteger(32), Clear)
      case 9 => CoreRegister([Other("cp0.9.0"), Other("count")], 0x8000 | (9 << 3) | 0, UnsignedInteger(32), Clear)
      case 10 => CoreRegister([Other("cp0.10.0"), Other("entryhi")], 0x8000 | (10 << 3) | 0, UnsignedInteger(32), Clear)
      case 11 => CoreRegister([Other("cp0.11.0"), Other("compare")], 0x8000 | (11 << 3) | 0, UnsignedInteger(32), Clear)
      case 12 => CoreRegister([Other("cp0.12.0"), Other("status")], 0x8000 | (12 << 3) | 0, UnsignedInteger(32), Clear)
      case 13 => CoreRegister([Other("cp0.13.0"), Other("cause")], 0x8000 | (13 << 3) | 0, UnsignedInteger(32), Clear)
      case 14 => CoreRegister([Other("cp0.14.0"), Other("epc")], 0x8000 | (14 << 3) | 0, UnsignedInteger(32), Clear)
      case 15 => CoreRegister([Other("cp0.15.0"), Other("prid")], 0x8000 | (15 << 3) | 0, UnsignedInteger(32), Clear)
      case 16 => CoreRegister([Other("cp0.16.0"), Other("config")], 0x8000 | (16 << 3) | 0, UnsignedInteger(32), Clear)
      case 17 => CoreRegister([Other("cp0.17.0"), Other("lladdr")], 0x8000 | (17 << 3) | 0, UnsignedInteger(32), Clear)
      case 18 => CoreRegister([Other("cp0.18.0"), Other("watchlo0")], 0x8000 | (18 << 3) | 0, UnsignedInteger(32), Clear)
      case 19 => CoreRegister([Other("cp0.19.0"), Other("watchhi0")], 0x8000 | (19 << 3) | 0, UnsignedInteger(32), Clear)
      case 20 => CoreRegister([Other("cp0.20.0"), Other("xcontext")], 0x8000 | (20 << 3) | 0, UnsignedInteger(32), Clear)
      case 21 => CoreRegister([Other("cp0.23.0"), Other("debug")], 0x8000 | (23 << 3) | 0, UnsignedInteger(32), Clear)
      case 22 => CoreRegister([Other("cp0.24.0"), Other("depc")], 0x8000 | (24 << 3) | 0, UnsignedInteger(32), Clear)
      case 23 => CoreRegister([Other("cp0.25.0"), Other("perfctl0")], 0x8000 | (25 << 3) | 0, UnsignedInteger(32), Clear)
      case 24 => CoreRegister([Other("cp0.26.0"), Other("errctl")], 0x8000 | (26 << 3) | 0, UnsignedInteger(32), Clear)
      case 25 => CoreRegister([Other("cp0.27.0"), Other("cacheerr")], 0x8000 | (27 << 3) | 0, UnsignedInteger(32), Clear)
      case 26 => CoreRegister([Other("cp0.28.0"), Other("itaglo")], 0x8000 | (28 << 3) | 0, UnsignedInteger(32), Clear)
      case 27 => CoreRegister([Other("cp0.29.0"), Other("itaghi")], 0x8000 | (29 << 3) | 0, UnsignedInteger(32), Clear)
      case 28 => CoreRegister([Other("cp0.30.0"), Other("errorepc")], 0x8000 | (30 << 3) | 0, UnsignedInteger(32), Clear)
      case _ => CoreRegister([Other("cp0.31.0"), Other("desave")], 0x8000 | (31 << 3) | 0, UnsignedInteger(32), Clear)
  }

  /** The select-1 block, register numbers ascending. */
  function Sel1Entry(k: nat): CoreRegister
    requires k < 19
  {
    match k
      case 0 => CoreRegister([Other("cp0.0.1"), Other("mvpcontrol")], 0x8000 | (0 << 3) | 1, UnsignedInteger(32), Clear)
      case 1 => CoreRegister([Other("cp0.1.1"), Other("vpecontrol")], 0x8000 | (1 << 3) | 1, UnsignedInteger(32), Clear)
      case 2 => CoreRegister([Other("cp0.2.1"), Other("tcstatus")], 0x8000 | (2 << 3) | 1, UnsignedInteger(32), Clear)
      case 3 => CoreRegister([Other("cp0.3.1"), Other("globalnumber")], 0x8000 | (3 << 3) | 1, UnsignedInteger(32), Clear)
      case 4 => CoreRegister([Other("cp0.4.1"), Other("contextconfig")], 0x8000 | (4 << 3) | 1, UnsignedInteger(32), Clear)
      case 5 => CoreRegister([Other("cp0.5.1"), Other("pagegrain")], 0x8000 | (5 << 3) | 1, UnsignedInteger(32), Clear)
      case 6 => CoreRegister([Other("cp0.6.1"), Other("srsconf0")], 0x8000 | (6 << 3) | 1, UnsignedInteger(32), Clear)
      case 7 => CoreRegister([Other("cp0.8.1"), Other("badinstr")], 0x8000 | (8 << 3) | 1, UnsignedInteger(32), Clear)
      case 8 => CoreRegister([Other("cp0.12.1"), Other("intctl")], 0x8000 | (12 << 3) | 1, UnsignedInteger(32), Clear)
      case 9 => CoreRegister([Other("cp0.15.1"), Other("ebase")], 0x8000 | (15 << 3) | 1, UnsignedInteger(32), Clear)
      case 10 => CoreRegister([Other("cp0.16.1"), Other("config1")], 0x8000 | (16 << 3) | 1, UnsignedInteger(32), Clear)
      case 11 => CoreRegister([Other("cp0.17.1"), Other("maar")], 0x8000 | (17 << 3) | 1, UnsignedInteger(32), Clear)
      case 12 => CoreRegister([Other("cp0.18.1"), Other("watchlo1")], 0x8000 | (18 << 3) | 1, UnsignedInteger(32), Clear)
      case 13 => CoreRegister([Other("cp0.19.1"), Other("watchhi1")], 0x8000 | (19 << 3) | 1, UnsignedInteger(32), Clear)
      case 14 => CoreRegister([Other("cp0.23.1"), Other("tracecontrol")], 0x8000 | (23 << 3) | 1, UnsignedInteger(32), Clear)
      case 15 => CoreRegister([Other("cp0.25.1"), Other("perfcnt0")], 0x8000 | (25 << 3) | 1, UnsignedInteger(32), Clear)
      case 16 => CoreRegister([Other("cp0.26.1"), Other("ierrctl")], 0x8000 | (26 << 3) | 1, UnsignedInteger(32), Clear)
      case 17 => CoreRegister([Other("cp0.28.1"), Other("idatalo")], 0x8000 | (28 << 3) | 1, UnsignedInteger(32), Clear)
      case _ => CoreRegister([Other("cp0.29.1"), Other("idatahi")], 0x8000 | (29 << 3) | 1, UnsignedInteger(32), Clear)
  }

  /** The select-2 block, register numbers ascending. */
  function Sel2Entry(k: nat): CoreRegister
    requires k < 19
  {
    match k
      case 0 => CoreRegister([Other("cp0.0.2"), Other("mvpconf0")], 0x8000 | (0 << 3) | 2, UnsignedInteger(32), Clear)
      case 1 => CoreRegister([Other("cp0.1.2"), Other("vpeconf0")], 0x8000 | (1 << 3) | 2, UnsignedInteger(32), Clear)
      case 2 => CoreRegister([Other("cp0.2.2"), Other("tcbind")], 0x8000 | (2 << 3) | 2, UnsignedInteger(32), Clear)
      case 3 => CoreRegister([Other("cp0.4.2"), Other("userlocal")], 0x8000 | (4 << 3) | 2, UnsignedInteger(32), Clear)
      case 4 => CoreRegister([Other("cp0.5.2"), Other("segctl0")], 0x8000 | (5 << 3) | 2, UnsignedInteger(32), Clear)
      case 5 => CoreRegister([Other("cp0.6.2"), Other("srsconf1")], 0x8000 | (6 << 3) | 2, UnsignedInteger(32), Clear)
      case 6 => CoreRegister([Other("cp0.8.2"), Other("badinstrp")], 0x8000 | (8 << 3) | 2, UnsignedInteger(32), Clear)
      case 7 => CoreRegister([Other("cp0.12.2"), Other("srsctl")], 0x8000 | (12 << 3) | 2, UnsignedInteger(32), Clear)
      case 8 => CoreRegister([Other("cp0.15.2"), Other("cdmmbase")], 0x8000 | (15 << 3) | 2, UnsignedInteger(32), Clear)
      case 9 => CoreRegister([Other("cp0.16.2"), Other("config2")], 0x8000 | (16 << 3) | 2, UnsignedInteger(32), Clear)
      case 10 => CoreRegister([Other("cp0.17.2"), Other("maari")], 0x8000 | (17 << 3) | 2, UnsignedInteger(32), Clear)
      case 11 => CoreRegister([Other("cp0.18.2"), Other("watchlo2")], 0x8000 | (18 << 3) | 2, UnsignedInteger(32), Clear)
      case 12 => CoreRegister([Other("cp0.19.2"), Other("watchhi2")], 0x8000 | (19 << 3) | 2, UnsignedInteger(32), Clear)
      case 13 => CoreRegister([Other("cp0.23.2"), Other("tracecontrol2")], 0x8000 | (23 << 3) | 2, UnsignedInteger(32), Clear)
      case 14 => CoreRegister([Other("cp0.24.2"), Other("tracecontrol3")], 0x8000 | (24 << 3) | 2, UnsignedInteger(32), Clear)
      case 15 => CoreRegister([Other("cp0.25.2"), Other("perfctl1")], 0x8000 | (25 << 3) | 2, UnsignedInteger(32), Clear)
      case 16 => CoreRegister([Other("cp0.28.2"), Other("dtaglo")], 0x8000 | (28 << 3) | 2, UnsignedInteger(32), Clear)
      case 17 => CoreRegister([Other("cp0.29.2"), Other("dtaghi")], 0x8000 | (29 << 3) | 2, UnsignedInteger(32), Clear)
      case _ => CoreRegister([Other("cp0.31.2"), Other("kscratch1")], 0x8000 | (31 << 3) | 2, UnsignedInteger(32), Clear)
  }

  /** The select-3 block, register numbers ascending. */
  function Sel3Entry(k: nat): CoreRegister
    requires k < 17
  {
    match k
      case 0 => CoreRegister([Other("cp0.0.3"), Other("mvpconf1")], 0x8000 | (0 << 3) | 3, UnsignedInteger(32), Clear)
      case 1 => CoreRegister([Other("cp0.1.3"), Other("vpeconf1")], 0x8000 | (1 << 3) | 3, UnsignedInteger(32), Clear)
      case 2 => CoreRegister([Other("cp0.2.3"), Other("tcrestart")], 0x8000 | (2 << 3) | 3, UnsignedInteger(32), Clear)
      case 3 => CoreRegister([Other("cp0.4.3"), Other("xcontextconfig")], 0x8000 | (4 << 3) | 3, UnsignedInteger(32), Clear)
      case 4 => CoreRegister([Other("cp0.5.3"), Other("segctl1")], 0x8000 | (5 << 3) | 3, UnsignedInteger(32), Clear)
      case 5 => CoreRegister([Other("cp0.6.3"), Other("srsconf2")], 0x8000 | (6 << 3) | 3, UnsignedInteger(32), Clear)
      case 6 => CoreRegister([Other("cp0.12.3"), Other("srsmap")], 0x8000 | (12 << 3) | 3, UnsignedInteger(32), Clear)
      case 7 => CoreRegister([Other("cp0.15.3"), Other("cmgcrbase")], 0x8000 | (15 << 3) | 3, UnsignedInteger(32), Clear)
      case 8 => CoreRegister([Other("cp0.16.3"), Other("config3")], 0x8000 | (16 << 3) | 3, UnsignedInteger(32), Clear)
      case 9 => CoreRegister([Other("cp0.18.3"), Other("watchlo3")], 0x8000 | (18 << 3) | 3, UnsignedInteger(32), Clear)
      case 10 => CoreRegister([Other("cp0.19.3"), Other("watchhi3")], 0x8000 | (19 << 3) | 3, UnsignedInteger(32), Clear)
      case 11 => CoreRegister([Other("cp0.23.3"), Other("usertracedata1")], 0x8000 | (23 << 3) | 3, UnsignedInteger(32), Clear)
      case 12 => CoreRegister([Other("cp0.24.3"), Other("usertracedata2")], 0x8000 | (24 << 3) | 3, UnsignedInteger(32), Clear)
      case 13 => CoreRegister([Other("cp0.25.3"), Other("perfcnt1")], 0x8000 | (25 << 3) | 3, UnsignedInteger(32), Clear)
      case 14 => CoreRegister([Other("cp0.28.3"), Other("ddatalo")], 0x8000 | (28 << 3) | 3, UnsignedInteger(32), Clear)
      case 15 => CoreRegister([Other("cp0.29.3"), Other("ddatahi")], 0x8000 | (29 << 3) | 3, UnsignedInteger(32), Clear)
      case _ => CoreRegister([Other("cp0.31.3"), Other("kscratch2")], 0x8000 | (31 << 3) | 3, UnsignedInteger(32), Clear)
  }

  /** The select-4 block, register numbers ascending. */
  function Sel4Entry(k: nat): CoreRegister
    requires k < 16
  {
    match k
      case 0 => CoreRegister([Other("cp0.1.4"), Other("yqmask")], 0x8000 | (1 << 3) | 4, UnsignedInteger(32), Clear)
      case 1 => CoreRegister([Other("cp0.2.4"), Other("tchalt")], 0x8000 | (2 << 3) | 4, UnsignedInteger(32), Clear)
      case 2 => CoreRegister([Other("cp0.4.4"), Other("debugcontextid")], 0x8000 | (4 << 3) | 4, UnsignedInteger(32), Clear)
      case 3 => CoreRegister([Other("cp0.5.4"), Other("segctl2")], 0x8000 | (5 << 3) | 4, UnsignedInteger(32), Clear)
      case 4 => CoreRegister([Other("cp0.6.4"), Other("srsconf3")], 0x8000 | (6 << 3) | 4, UnsignedInteger(32), Clear)
      case 5 => CoreRegister([Other("cp0.10.4"), Other("guestctl1")], 0x8000 | (10 << 3) | 4, UnsignedInteger(32), Clear)
      case 6 => CoreRegister([Other("cp0.12.4"), Other("view_ipl")], 0x8000 | (12 << 3) | 4, UnsignedInteger(32), Clear)
      case 7 => CoreRegister([Other("cp0.13.4"), Other("view_ripl")], 0x8000 | (13 << 3) | 4, UnsignedInteger(32), Clear)
      case 8 => CoreRegister([Other("cp0.15.4"), Other("bevva")], 0x8000 | (15 << 3) | 4, UnsignedInteger(32), Clear)
      case 9 => CoreRegister([Other("cp0.16.4"), Other("config4")], 0x8000 | (16 << 3) | 4, UnsignedInteger(32), Clear)
      case 10 => CoreRegister([Other("cp0.18.4"), Other("watchlo4")], 0x8000 | (18 << 3) | 4, UnsignedInteger(32), Clear)
      case 11 => CoreRegister([Other("cp0.19.4"), Other("watchhi4")], 0x8000 | (19 << 3) | 4, UnsignedInteger(32), Clear)
      case 12 => CoreRegister([Other("cp0.23.4"), Other("traceibpc")], 0x8000 | (23 << 3) | 4, UnsignedInteger(32), Clear)
      case 13 => CoreRegister([Other("cp0.25.4"), Other("perfctl2")], 0x8000 | (25 << 3) | 4, UnsignedInteger(32), Clear)
      case 14 => CoreRegister([Other("cp0.28.4"), Other("l23taglo")], 0x8000 | (28 << 3) | 4, UnsignedInteger(32), Clear)
      case _ => CoreRegister([Other("cp0.31.4"), Other("kscratch3")], 0x8000 | (31 << 3) | 4, UnsignedInteger(32), Clear)
  }

  /** The select-5 block, register numbers ascending. */
  function Sel5Entry(k: nat): CoreRegister
    requires k < 13
  {
    match k
      case 0 => CoreRegister([Other("cp0.1.5"), Other("vpeschedule")], 0x8000 | (1 << 3) | 5, UnsignedInteger(32), Clear)
      case 1 => CoreRegister([Other("cp0.2.5"), Other("tccontext")], 0x8000 | (2 << 3) | 5, UnsignedInteger(32), Clear)
      case 2 => CoreRegister([Other("cp0.4.5"), Other("mmid")], 0x8000 | (4 << 3) | 5, UnsignedInteger(32), Clear)
      case 3 => CoreRegister([Other("cp0.6.5"), Other("srsconf4")], 0x8000 | (6 << 3) | 5, UnsignedInteger(32), Clear)
      case 4 => CoreRegister([Other("cp0.12.5"), Other("srsmap2")], 0x8000 | (12 << 3) | 5, UnsignedInteger(32), Clear)
      case 5 => CoreRegister([Other("cp0.16.5"), Other("config5")], 0x8000 | (16 << 3) | 5, UnsignedInteger(32), Clear)
      case 6 => CoreRegister([Other("cp0.18.5"), Other("watchlo5")], 0x8000 | (18 << 3) | 5, UnsignedInteger(32), Clear)
      case 7 => CoreRegister([Other("cp0.19.5"), Other("watchhi5")], 0x8000 | (19 << 3) | 5, UnsignedInteger(32), Clear)
      case 8 => CoreRegister([Other("cp0.23.5"), Other("tracedbpc")], 0x8000 | (23 << 3) | 5, UnsignedInteger(32), Clear)
      case 9 => CoreRegister([Other("cp0.25.5"), Other("perfcnt2")], 0x8000 | (25 << 3) | 5, UnsignedInteger(32), Clear)
      case 10 => CoreRegister([Other("cp0.28.5"), Other("l23datalo")], 0x8000 | (28 << 3) | 5, UnsignedInteger(32), Clear)
      case 11 => CoreRegister([Other("cp0.29.5"), Other("l23datahi")], 0x8000 | (29 << 3) | 5, UnsignedInteger(32), Clear)
      case _ => CoreRegister([Other("cp0.31.5"), Other("kscratch4")], 0x8000 | (31 << 3) | 5, UnsignedInteger(32), Clear)
  }

  /** The select-6 block, register numbers ascending. */
  function Sel6Entry(k: nat): CoreRegister
    requires k < 9
  {
    match k
      case 0 => CoreRegister([Other("cp0.1.6"), Other("vpeschefback")], 0x8000 | (1 << 3) | 6, UnsignedInteger(32), Clear)
      case 1 => CoreRegister([Other("cp0.2.6"), Other("tcschedule")], 0x8000 | (2 << 3) | 6, UnsignedInteger(32), Clear)
      case 2 => CoreRegister([Other("cp0.12.6"), Other("guestctl0")], 0x8000 | (12 << 3) | 6, UnsignedInteger(32), Clear)
      case 3 => CoreRegister([Other("cp0.16.6"), Other("config6")], 0x8000 | (16 << 3) | 6, UnsignedInteger(32), Clear)
      case 4 => CoreRegister([Other("cp0.18.6"), Other("watchlo6")], 0x8000 | (18 << 3) | 6, UnsignedInteger(32), Clear)
      case 5 => CoreRegister([Other("cp0.19.6"), Other("watchhi6")], 0x8000 | (19 << 3) | 6, UnsignedInteger(32), Clear)
      case 6 => CoreRegister([Other("cp0.23.6"), Other("debug2")], 0x8000 | (23 << 3) | 6, UnsignedInteger(32), Clear)
      case 7 => CoreRegister([Other("cp0.25.6"), Other("perfctl3")], 0x8000 | (25 << 3) | 6, UnsignedInteger(32), Clear)
      case _ => CoreRegister([Other("cp0.31.6"), Other("kscratch5")], 0x8000 | (31 << 3) | 6, UnsignedInteger(32), Clear)
  }

  /** The select-7 block, register numbers ascending. */
  function Sel7Entry(k: nat): CoreRegister
    requires k < 8
  {
    match k
      case 0 => CoreRegister([Other("cp0.1.7"), Other("vpeopt")], 0x8000 | (1 << 3) | 7, UnsignedInteger(32), Clear)
      case 1 => CoreRegister([Other("cp0.2.7"), Other("tcschefback")], 0x8000 | (2 << 3) | 7, UnsignedInteger(32), Clear)
      case 2 => CoreRegister([Other("cp0.3.7"), Other("tcopt")], 0x8000 | (3 << 3) | 7, UnsignedInteger(32), Clear)
      case 3 => CoreRegister([Other("cp0.16.7"), Other("config7")], 0x8000 | (16 << 3) | 7, UnsignedInteger(32), Clear)
      case 4 => CoreRegister([Other("cp0.18.7"), Other("watchlo7")], 0x8000 | (18 << 3) | 7, UnsignedInteger(32), Clear)
      case 5 => CoreRegister([Other("cp0.19.7"), Other("watchhi7")], 0x8000 | (19 << 3) | 7, UnsignedInteger(32), Clear)
      case 6 => CoreRegister([Other("cp0.25.7"), Other("perfcnt3")], 0x8000 | (25 << 3) | 7, UnsignedInteger(32), Clear)
      case _ => CoreRegister([Other("cp0.31.7"), Other("kscratch6")], 0x8000 | (31 << 3) | 7, UnsignedInteger(32), Clear)
  }

  /** Entry `i` of the catalog: the select blocks one after another. */
  function Cp0Entry(i: nat): CoreRegister
    requires i < 131
  {
    if i < 30 then Sel0Entry(i - 0) else
    if i < 49 then Sel1Entry(i - 30) else
    if i < 68 then Sel2Entry(i - 49) else
    if i < 85 then Sel3Entry(i - 68) else
    if i < 101 then Sel4Entry(i - 85) else
    if i < 114 then Sel5Entry(i - 101) else
    if i < 123 then Sel6Entry(i - 114) else
    Sel7Entry(i - 123)
  }

  /** The first `n` entries of the table, in order. */
  function BuildCp0(n: nat): (t: seq<CoreRegister>)
    requires n <= 131
    ensures |t| == n
    ensures forall i :: 0 <= i < n ==> t[i] == Cp0Entry(i)
  {
    if n == 0 then [] else BuildCp0(n - 1) + [Cp0Entry(n - 1)]
  }

  /** The number of entries in the table. */
  const CP0_COUNT: nat := 131

  const MIPS32_CP0_REGISTERS: seq<CoreRegister> := BuildCp0(CP0_COUNT)

  /** Position `i` of the table holds entry `i`. */
  lemma Cp0Indexing()
    ensures |MIPS32_CP0_REGISTERS| == 131
    ensures forall i :: 0 <= i < 131 ==> MIPS32_CP0_REGISTERS[i] == Cp0Entry(i)
  {
  }

  lemma NamedChunk0()
    ensures forall i :: 0 <= i < 4 ==> Cp0Named(Cp0Entry(i))
  {
    forall i | 0 <= i < 4 ensures Cp0Named(Cp0Entry(i)) {}
  }

  lemma NamedChunk1()
    ensures forall i :: 4 <= i < 8 ==> Cp0Named(Cp0Entry(i))
  {
    forall i | 4 <= i < 8 ensures Cp0Named(Cp0Entry(i)) {}
  }

  lemma NamedChunk2()
    ensures forall i :: 8 <= i < 12 ==> Cp0Named(Cp0Entry(i))
  {
    forall i | 8 <= i < 12 ensures Cp0Named(Cp0Entry(i)) {}
  }

  lemma NamedChunk3()
    ensures forall i :: 12 <= i < 16 ==> Cp0Named(Cp0Entry(i))
  {
    forall i | 12 <= i < 16 ensures Cp0Named(Cp0Entry(i)) {}
  }

  lemma NamedChunk4()
    ensures forall i :: 16 <= i < 20 ==> Cp0Named(Cp0Entry(i))
  {
    forall i | 16 <= i < 20 ensures Cp0Named(Cp0Entry(i)) {}
  }

  lemma NamedChunk5()
    ensures forall i :: 20 <= i < 24 ==> Cp0Named(Cp0Entry(i))
  {
    forall i | 20 <= i < 24 ensures Cp0Named(Cp0Entry(i)) {}
  }

  lemma NamedChunk6()
    ensures forall i :: 24 <= i < 28 ==> Cp0Named(Cp0Entry(i))
  {
    forall i | 24 <= i < 28 ensures Cp0Named(Cp0Entry(i)) {}
  }

  lemma NamedChunk7()
    ensures forall i :: 28 <= i < 30 ==> Cp0Named(Cp0Entry(i))
  {
    forall i | 28 <= i < 30 ensures Cp0Named(Cp0Entry(i)) {}
  }

  lemma NamedChunk8()
    ensures forall i :: 30 <= i < 34 ==> Cp0Named(Cp0Entry(i))
  {
    forall i | 30 <= i < 34 ensures Cp0Named(Cp0Entry(i)) {}
  }

  lemma NamedChunk9()
    ensures forall i :: 34 <= i < 38 ==> Cp0Named(Cp0Entry(i))
  {
    forall i | 34 <= i < 38 ensures Cp0Named(Cp0Entry(i)) {}
  }

  lemma NamedChunk10()
    ensures forall i :: 38 <= i < 42 ==> Cp0Named(Cp0Entry(i))
  {
    forall i | 38 <= i < 42 ensures Cp0Named(Cp0Entry(i)) {}
  }

  lemma NamedChunk11()
    ensures forall i :: 42 <= i < 46 ==> Cp0Named(Cp0Entry(i))
  {
    forall i | 42 <= i < 46 ensures Cp0Named(Cp0Entry(i)) {}
  }

  lemma NamedChunk12()
    ensures forall i :: 46 <= i < 49 ==> Cp0Named(Cp0Entry(i))
  {
    forall i | 46 <= i < 49 ensures Cp0Named(Cp0Entry(i)) {}
  }

  lemma NamedChunk13()
    ensures forall i :: 49 <= i < 53 ==> Cp0Named(Cp0Entry(i))
  {
    forall i | 49 <= i < 53 ensures Cp0Named(Cp0Entry(i)) {}
  }

  lemma NamedChunk14()
    ensures forall i :: 53 <= i < 57 ==> Cp0Named(Cp0Entry(i))
  {
    forall i | 53 <= i < 57 ensures Cp0Named(Cp0Entry(i)) {}
  }

  lemma NamedChunk15()
    ensures forall i :: 57 <= i < 61 ==> Cp0Named(Cp0Entry(i))
  {
    forall i | 57 <= i < 61 ensures Cp0Named(Cp0Entry(i)) {}
  }

  lemma NamedChunk16()
    ensures forall i :: 61 <= i < 65 ==> Cp0Named(Cp0Entry(i))
  {
    forall i | 61 <= i < 65 ensures Cp0Named(Cp0Entry(i)) {}
  }

  lemma NamedChunk17()
    ensures forall i :: 65 <= i < 68 ==> Cp0Named(Cp0Entry(i))
  {
    forall i | 65 <= i < 68 ensures Cp0Named(Cp0Entry(i)) {}
  }

  lemma NamedChunk18()
    ensures forall i :: 68 <= i < 72 ==> Cp0Named(Cp0Entry(i))
  {
    forall i | 68 <= i < 72 ensures Cp0Named(Cp0Entry(i)) {}
  }

  lemma NamedChunk19()
    ensures forall i :: 72 <= i < 76 ==> Cp0Named(Cp0Entry(i))
  {
    forall i | 72 <= i < 76 ensures Cp0Named(Cp0Entry(i)) {}
  }

  lemma NamedChunk20()
    ensures forall i :: 76 <= i < 80 ==> Cp0Named(Cp0Entry(i))
  {
    forall i | 76 <= i < 80 ensures Cp0Named(Cp0Entry(i)) {}
  }

  lemma NamedChunk21()
    ensures forall i :: 80 <= i < 84 ==> Cp0Named(Cp0Entry(i))
  {
    forall i | 80 <= i < 84 ensures Cp0Named(Cp0Entry(i)) {}
  }

  lemma NamedChunk22()
    ensures forall i :: 84 <= i < 85 ==> Cp0Named(Cp0Entry(i))
  {
    forall i | 84 <= i < 85 ensures Cp0Named(Cp0Entry(i)) {}
  }

  lemma NamedChunk23()
    ensures forall i :: 85 <= i < 89 ==> Cp0Named(Cp0Entry(i))
  {
    forall i | 85 <= i < 89 ensures Cp0Named(Cp0Entry(i)) {}
  }

  lemma NamedChunk24()
    ensures forall i :: 89 <= i < 93 ==> Cp0Named(Cp0Entry(i))
  {
    forall i | 89 <= i < 93 ensures Cp0Named(Cp0Entry(i)) {}
  }

  lemma NamedChunk25()
    ensures forall i :: 93 <= i < 97 ==> Cp0Named(Cp0Entry(i))
  {
    forall i | 93 <= i < 97 ensures Cp0Named(Cp0Entry(i)) {}
  }

  lemma NamedChunk26()
    ensures forall i :: 97 <= i < 101 ==> Cp0Named(Cp0Entry(i))
  {
    forall i | 97 <= i < 101 ensures Cp0Named(Cp0Entry(i)) {}
  }

  lemma NamedChunk27()
    ensures forall i :: 101 <= i < 105 ==> Cp0Named(Cp0Entry(i))
  {
    forall i | 101 <= i < 105 ensures Cp0Named(Cp0Entry(i)) {}
  }

  lemma NamedChunk28()
    ensures forall i :: 105 <= i < 109 ==> Cp0Named(Cp0Entry(i))
  {
    forall i | 105 <= i < 109 ensures Cp0Named(Cp0Entry(i)) {}
  }

  lemma NamedChunk29()
    ensures forall i :: 109 <= i < 113 ==> Cp0Named(Cp0Entry(i))
  {
    forall i | 109 <= i < 113 ensures Cp0Named(Cp0Entry(i)) {}
  }

  lemma NamedChunk30()
    ensures forall i :: 113 <= i < 114 ==> Cp0Named(Cp0Entry(i))
  {
    forall i | 113 <= i < 114 ensures Cp0Named(Cp0Entry(i)) {}
  }

  lemma NamedChunk31()
    ensures forall i :: 114 <= i < 118 ==> Cp0Named(Cp0Entry(i))
  {
    forall i | 114 <= i < 118 ensures Cp0Named(Cp0Entry(i)) {}
  }

  lemma NamedChunk32()
    ensures forall i :: 118 <= i < 122 ==> Cp0Named(Cp0Entry(i))
  {
    forall i | 118 <= i < 122 ensures Cp0Named(Cp0Entry(i)) {}
  }

  lemma NamedChunk33()
    ensures forall i :: 122 <= i < 123 ==> Cp0Named(Cp0Entry(i))
  {
    forall i | 122 <= i < 123 ensures Cp0Named(Cp0Entry(i)) {}
  }

  lemma NamedChunk34()
    ensures forall i :: 123 <= i < 127 ==> Cp0Named(Cp0Entry(i))
  {
    forall i | 123 <= i < 127 ensures Cp0Named(Cp0Entry(i)) {}
  }

  lemma NamedChunk35()
    ensures forall i :: 127 <= i < 131 ==> Cp0Named(Cp0Entry(i))
  {
    forall i | 127 <= i < 131 ensures Cp0Named(Cp0Entry(i)) {}
  }

  lemma OmitsChunk0()
    ensures forall i :: 0 <= i < 30 ==> RegOf(Cp0Entry(i).id) != 21 && RegOf(Cp0Entry(i).id) != 22
  {
    forall i | 0 <= i < 30 ensures RegOf(Cp0Entry(i).id) != 21 && RegOf(Cp0Entry(i).id) != 22 {}
  }

  lemma OmitsChunk1()
    ensures forall i :: 30 <= i < 49 ==> RegOf(Cp0Entry(i).id) != 21 && RegOf(Cp0Entry(i).id) != 22
  {
    forall i | 30 <= i < 49 ensures RegOf(Cp0Entry(i).id) != 21 && RegOf(Cp0Entry(i).id) != 22 {}
  }

  lemma OmitsChunk2()
    ensures forall i :: 49 <= i < 68 ==> RegOf(Cp0Entry(i).id) != 21 && RegOf(Cp0Entry(i).id) != 22
  {
    forall i | 49 <= i < 68 ensures RegOf(Cp0Entry(i).id) != 21 && RegOf(Cp0Entry(i).id) != 22 {}
  }

  lemma OmitsChunk3()
    ensures forall i :: 68 <= i < 85 ==> RegOf(Cp0Entry(i).id) != 21 && RegOf(Cp0Entry(i).id) != 22
  {
    forall i | 68 <= i < 85 ensures RegOf(Cp0Entry(i).id) != 21 && RegOf(Cp0Entry(i).id) != 22 {}
  }

  lemma OmitsChunk4()
    ensures forall i :: 85 <= i < 101 ==> RegOf(Cp0Entry(i).id) != 21 && RegOf(Cp0Entry(i).id) != 22
  {
    forall i | 85 <= i < 101 ensures RegOf(Cp0Entry(i).id) != 21 && RegOf(Cp0Entry(i).id) != 22 {}
  }

  lemma OmitsChunk5()
    ensures forall i :: 101 <= i < 114 ==> RegOf(Cp0Entry(i).id) != 21 && RegOf(Cp0Entry(i).id) != 22
  {
    forall i | 101 <= i < 114 ensures RegOf(Cp0Entry(i).id) != 21 && RegOf(Cp0Entry(i).id) != 22 {}
  }

  lemma OmitsChunk6()
    ensures forall i :: 114 <= i < 123 ==> RegOf(Cp0Entry(i).id) != 21 && RegOf(Cp0Entry(i).id) != 22
  {
    forall i | 114 <= i < 123 ensures RegOf(Cp0Entry(i).id) != 21 && RegOf(Cp0Entry(i).id) != 22 {}
  }

  lemma OmitsChunk7()
    ensures forall i :: 123 <= i < 131 ==> RegOf(Cp0Entry(i).id) != 21 && RegOf(Cp0Entry(i).id) != 22
  {
    forall i | 123 <= i < 131 ensures RegOf(Cp0Entry(i).id) != 21 && RegOf(Cp0Entry(i).id) != 22 {}
  }

  lemma ClearedLow()
    ensures forall i :: 0 <= i < 66 ==> IsClearedWord(Cp0Entry(i))
  {
    forall i | 0 <= i < 66 ensures IsClearedWord(Cp0Entry(i)) {}
  }

  lemma ClearedHigh()
    ensures forall i :: 66 <= i < 131 ==> IsClearedWord(Cp0Entry(i))
  {
    forall i | 66 <= i < 131 ensures IsClearedWord(Cp0Entry(i)) {}
  }

  lemma SortedChunk0()
    ensures forall i :: 0 <= i < 8 ==> (i + 1 < 131 ==> SortKey(Cp0Entry(i)) < SortKey(Cp0Entry(i + 1)))
  {
    forall i | 0 <= i < 8 ensures (i + 1 < 131 ==> SortKey(Cp0Entry(i)) < SortKey(Cp0Entry(i + 1))) {}
  }

  lemma SortedChunk1()
    ensures forall i :: 8 <= i < 16 ==> (i + 1 < 131 ==> SortKey(Cp0Entry(i)) < SortKey(Cp0Entry(i + 1)))
  {
    forall i | 8 <= i < 16 ensures (i + 1 < 131 ==> SortKey(Cp0Entry(i)) < SortKey(Cp0Entry(i + 1))) {}
  }

  lemma SortedChunk2()
    ensures forall i :: 16 <= i < 24 ==> (i + 1 < 131 ==> SortKey(Cp0Entry(i)) < SortKey(Cp0Entry(i + 1)))
  {
    forall i | 16 <= i < 24 ensures (i + 1 < 131 ==> SortKey(Cp0Entry(i)) < SortKey(Cp0Entry(i + 1))) {}
  }

  lemma SortedChunk3()
    ensures forall i :: 24 <= i < 30 ==> (i + 1 < 131 ==> SortKey(Cp0Entry(i)) < SortKey(Cp0Entry(i + 1)))
  {
    forall i | 24 <= i < 30 ensures (i + 1 < 131 ==> SortKey(Cp0Entry(i)) < SortKey(Cp0Entry(i + 1))) {}
  }

  lemma SortedChunk4()
    ensures forall i :: 30 <= i < 38 ==> (i + 1 < 131 ==> SortKey(Cp0Entry(i)) < SortKey(Cp0Entry(i + 1)))
  {
    forall i | 30 <= i < 38 ensures (i + 1 < 131 ==> SortKey(Cp0Entry(i)) < SortKey(Cp0Entry(i + 1))) {}
  }

  lemma SortedChunk5()
    ensures forall i :: 38 <= i < 46 ==> (i + 1 < 131 ==> SortKey(Cp0Entry(i)) < SortKey(Cp0Entry(i + 1)))
  {
    forall i | 38 <= i < 46 ensures (i + 1 < 131 ==> SortKey(Cp0Entry(i)) < SortKey(Cp0Entry(i + 1))) {}
  }

  lemma SortedChunk6()
    ensures forall i :: 46 <= i < 49 ==> (i + 1 < 131 ==> SortKey(Cp0Entry(i)) < SortKey(Cp0Entry(i + 1)))
  {
    forall i | 46 <= i < 49 ensures (i + 1 < 131 ==> SortKey(Cp0Entry(i)) < SortKey(Cp0Entry(i + 1))) {}
  }

  lemma SortedChunk7()
    ensures forall i :: 49 <= i < 57 ==> (i + 1 < 131 ==> SortKey(Cp0Entry(i)) < SortKey(Cp0Entry(i + 1)))
  {
    forall i | 49 <= i < 57 ensures (i + 1 < 131 ==> SortKey(Cp0Entry(i)) < SortKey(Cp0Entry(i + 1))) {}
  }

  lemma SortedChunk8()
    ensures forall i :: 57 <= i < 65 ==> (i + 1 < 131 ==> SortKey(Cp0Entry(i)) < SortKey(Cp0Entry(i + 1)))
  {
    forall i | 57 <= i < 65 ensures (i + 1 < 131 ==> SortKey(Cp0Entry(i)) < SortKey(Cp0Entry(i + 1))) {}
  }

  lemma SortedChunk9()
    ensures forall i :: 65 <= i < 68 ==> (i + 1 < 131 ==> SortKey(Cp0Entry(i)) < SortKey(Cp0Entry(i + 1)))
  {
    forall i | 65 <= i < 68 ensures (i + 1 < 131 ==> SortKey(Cp0Entry(i)) < SortKey(Cp0Entry(i + 1))) {}
  }

  lemma SortedChunk10()
    ensures forall i :: 68 <= i < 76 ==> (i + 1 < 131 ==> SortKey(Cp0Entry(i)) < SortKey(Cp0Entry(i + 1)))
  {
    forall i | 68 <= i < 76 ensures (i + 1 < 131 ==> SortKey(Cp0Entry(i)) < SortKey(Cp0Entry(i + 1))) {}
  }

  lemma SortedChunk11()
    ensures forall i :: 76 <= i < 84 ==> (i + 1 < 131 ==> SortKey(Cp0Entry(i)) < SortKey(Cp0Entry(i + 1)))
  {
    forall i | 76 <= i < 84 ensures (i + 1 < 131 ==> SortKey(Cp0Entry(i)) < SortKey(Cp0Entry(i + 1))) {}
  }

  lemma SortedChunk12()
    ensures forall i :: 84 <= i < 85 ==> (i + 1 < 131 ==> SortKey(Cp0Entry(i)) < SortKey(Cp0Entry(i + 1)))
  {
    forall i | 84 <= i < 85 ensures (i + 1 < 131 ==> SortKey(Cp0Entry(i)) < SortKey(Cp0Entry(i + 1))) {}
  }

  lemma SortedChunk13()
    ensures forall i :: 85 <= i < 93 ==> (i + 1 < 131 ==> SortKey(Cp0Entry(i)) < SortKey(Cp0Entry(i + 1)))
  {
    forall i | 85 <= i < 93 ensures (i + 1 < 131 ==> SortKey(Cp0Entry(i)) < SortKey(Cp0Entry(i + 1))) {}
  }

  lemma SortedChunk14()
    ensures forall i :: 93 <= i < 101 ==> (i + 1 < 131 ==> SortKey(Cp0Entry(i)) < SortKey(Cp0Entry(i + 1)))
  {
    forall i | 93 <= i < 101 ensures (i + 1 < 131 ==> SortKey(Cp0Entry(i)) < SortKey(Cp0Entry(i + 1))) {}
  }

  lemma SortedChunk15()
    ensures forall i :: 101 <= i < 109 ==> (i + 1 < 131 ==> SortKey(Cp0Entry(i)) < SortKey(Cp0Entry(i + 1)))
  {
    forall i | 101 <= i < 109 ensures (i + 1 < 131 ==> SortKey(Cp0Entry(i)) < SortKey(Cp0Entry(i + 1))) {}
  }

  lemma SortedChunk16()
    ensures forall i :: 109 <= i < 114 ==> (i + 1 < 131 ==> SortKey(Cp0Entry(i)) < SortKey(Cp0Entry(i + 1)))
  {
    forall i | 109 <= i < 114 ensures (i + 1 < 131 ==> SortKey(Cp0Entry(i)) < SortKey(Cp0Entry(i + 1))) {}
  }

  lemma SortedChunk17()
    ensures forall i :: 114 <= i < 122 ==> (i + 1 < 131 ==> SortKey(Cp0Entry(i)) < SortKey(Cp0Entry(i + 1)))
  {
    forall i | 114 <= i < 122 ensures (i + 1 < 131 ==> SortKey(Cp0Entry(i)) < SortKey(Cp0Entry(i + 1))) {}
  }

  lemma SortedChunk18()
    ensures forall i :: 122 <= i < 123 ==> (i + 1 < 131 ==> SortKey(Cp0Entry(i)) < SortKey(Cp0Entry(i + 1)))
  {
    forall i | 122 <= i < 123 ensures (i + 1 < 131 ==> SortKey(Cp0Entry(i)) < SortKey(Cp0Entry(i + 1))) {}
  }

  lemma SortedChunk19()
    ensures forall i :: 123 <= i < 131 ==> (i + 1 < 131 ==> SortKey(Cp0Entry(i)) < SortKey(Cp0Entry(i + 1)))
  {
    forall i | 123 <= i < 131 ensures (i + 1 < 131 ==> SortKey(Cp0Entry(i)) < SortKey(Cp0Entry(i + 1))) {}
  }

  /** In a dotted name built from a digit string, the first dot after "cp0." follows the digits. */
  lemma FirstDotAfterDigits(d: string, e: string)
    requires forall k :: 0 <= k < |d| ==> '0' <= d[k] <= '9'
    ensures ("cp0." + d + "." + e)[4 + |d|] == '.'
    ensures forall k :: 4 <= k < 4 + |d| ==> ("cp0." + d + "." + e)[k] != '.'
  {
  }

  /** Two dotted names built from digit strings agree only when their parts agree. */
  lemma DottedNameInjective(d1: string, e1: string, d2: string, e2: string)
    requires forall k :: 0 <= k < |d1| ==> '0' <= d1[k] <= '9'
    requires forall k :: 0 <= k < |d2| ==> '0' <= d2[k] <= '9'
    requires "cp0." + d1 + "." + e1 == "cp0." + d2 + "." + e2
    ensures d1 == d2 && e1 == e2
  {
    var n := "cp0." + d1 + "." + e1;
    FirstDotAfterDigits(d1, e1);
    FirstDotAfterDigits(d2, e2);
    assert |d1| == |d2|;
    forall k | 0 <= k < |d1| ensures d1[k] == d2[k] {
      assert d1[k] == n[4 + k] == d2[k];
    }
    forall k | 0 <= k < |e1| ensures e1[k] == e2[k] {
      assert e1[k] == n[5 + |d1| + k] == e2[k];
    }
  }

  /** Names "cp0.R.S" of different register/select pairs differ. */
  lemma Cp0NameInjective(r1: bv16, s1: bv16, r2: bv16, s2: bv16)
    requires r1 < 32 && s1 < 8 && r2 < 32 && s2 < 8
    requires Cp0Name(r1, s1) == Cp0Name(r2, s2)
    ensures r1 == r2 && s1 == s2
  {
    DottedNameInjective(Decimal(r1 as nat), Decimal(s1 as nat), Decimal(r2 as nat), Decimal(s2 as nat));
    DecimalRoundTrip(r1 as nat);
    DecimalRoundTrip(r2 as nat);
    DecimalRoundTrip(s1 as nat);
    DecimalRoundTrip(s2 as nat);
    SmallFieldsEqual(r1, r2);
    SmallFieldsEqual(s1, s2);
  }

  /** Two small field values with the same numeric value are the same bit pattern. */
  lemma SmallFieldsEqual(a: bv16, b: bv16)
    requires a < 32 && b < 32 && a as nat == b as nat
    ensures a == b
  {
  }

  /** Every entry is a well-formed CP0 description. */
  lemma Cp0CatalogNamed()
    ensures |MIPS32_CP0_REGISTERS| == 131
    ensures forall i :: 0 <= i < |MIPS32_CP0_REGISTERS| ==> Cp0Named(MIPS32_CP0_REGISTERS[i])
  {
    Cp0Indexing();
    NamedChunk0();
    NamedChunk1();
    NamedChunk2();
    NamedChunk3();
    NamedChunk4();
    NamedChunk5();
    NamedChunk6();
    NamedChunk7();
    NamedChunk8();
    NamedChunk9();
    NamedChunk10();
    NamedChunk11();
    NamedChunk12();
    NamedChunk13();
    NamedChunk14();
    NamedChunk15();
    NamedChunk16();
    NamedChunk17();
    NamedChunk18();
    NamedChunk19();
    NamedChunk20();
    NamedChunk21();
    NamedChunk22();
    NamedChunk23();
    NamedChunk24();
    NamedChunk25();
    NamedChunk26();
    NamedChunk27();
    NamedChunk28();
    NamedChunk29();
    NamedChunk30();
    NamedChunk31();
    NamedChunk32();
    NamedChunk33();
    NamedChunk34();
    NamedChunk35();
  }

  /**
   * Whenever an entry's first role spells "cp0.R.S", its id is
   * 0x8000 | R << 3 | S, so the marker bit is set on every CP0 id.
   */
  lemma Cp0CatalogIdsMatchNames()
    ensures forall i :: 0 <= i < |MIPS32_CP0_REGISTERS| ==> MIPS32_CP0_REGISTERS[i].id & 0x8000 == 0x8000
    ensures forall i, reg, sel ::
      (0 <= i < |MIPS32_CP0_REGISTERS| && reg < 32 && sel < 8 && |MIPS32_CP0_REGISTERS[i].roles| > 0
       && MIPS32_CP0_REGISTERS[i].roles[0] == Other(Cp0Name(reg, sel)))
      ==> MIPS32_CP0_REGISTERS[i].id == Cp0Id(reg, sel)
  {
    Cp0Indexing();
    Cp0CatalogNamed();
    forall i, reg, sel | 0 <= i < |MIPS32_CP0_REGISTERS| && reg < 32 && sel < 8
      && |MIPS32_CP0_REGISTERS[i].roles| > 0 && MIPS32_CP0_REGISTERS[i].roles[0] == Other(Cp0Name(reg, sel))
      ensures MIPS32_CP0_REGISTERS[i].id == Cp0Id(reg, sel)
    {
      var id := MIPS32_CP0_REGISTERS[i].id;
      assert Cp0Named(MIPS32_CP0_REGISTERS[i]);
      Cp0NameInjective(RegOf(id), SelOf(id), reg, sel);
      Cp0IdFromFields(id);
    }
  }

  /** The sort keys of a table, in order. */
  function KeysOf(t: seq<CoreRegister>): (keys: seq<nat>)
    ensures |keys| == |t|
    ensures forall i :: 0 <= i < |t| ==> keys[i] == SortKey(t[i])
  {
    seq(|t|, i requires 0 <= i < |t| => SortKey(t[i]))
  }

  /** Neighbouring entries are in select-major order. */
  lemma Cp0AdjacentSorted()
    ensures AdjacentIncreasing(KeysOf(MIPS32_CP0_REGISTERS))
  {
    Cp0Indexing();
    SortedChunk0();
    SortedChunk1();
    SortedChunk2();
    SortedChunk3();
    SortedChunk4();
    SortedChunk5();
    SortedChunk6();
    SortedChunk7();
    SortedChunk8();
    SortedChunk9();
    SortedChunk10();
    SortedChunk11();
    SortedChunk12();
    SortedChunk13();
    SortedChunk14();
    SortedChunk15();
    SortedChunk16();
    SortedChunk17();
    SortedChunk18();
    SortedChunk19();
    var keys := KeysOf(MIPS32_CP0_REGISTERS);
    forall i | 0 <= i < |keys| - 1 ensures keys[i] < keys[i + 1] {
      assert keys[i] == SortKey(Cp0Entry(i)) && keys[i + 1] == SortKey(Cp0Entry(i + 1));
    }
  }

  /**
   * The catalog is ordered by select, then register number: every select-0
   * entry comes first, then select 1, and so on. Hence no register/select
   * pair, and no id, appears twice.
   */
  lemma Cp0CatalogSorted()
    ensures forall i, j :: 0 <= i < j < |MIPS32_CP0_REGISTERS| ==> SortKey(MIPS32_CP0_REGISTERS[i]) < SortKey(MIPS32_CP0_REGISTERS[j])
    ensures forall i, j :: 0 <= i < j < |MIPS32_CP0_REGISTERS| ==> SelOf(MIPS32_CP0_REGISTERS[i].id) <= SelOf(MIPS32_CP0_REGISTERS[j].id)
    ensures forall i, j :: 0 <= i < j < |MIPS32_CP0_REGISTERS| ==>
      (RegOf(MIPS32_CP0_REGISTERS[i].id), SelOf(MIPS32_CP0_REGISTERS[i].id)) != (RegOf(MIPS32_CP0_REGISTERS[j].id), SelOf(MIPS32_CP0_REGISTERS[j].id))
    ensures forall i, j :: 0 <= i < j < |MIPS32_CP0_REGISTERS| ==> MIPS32_CP0_REGISTERS[i].id != MIPS32_CP0_REGISTERS[j].id
  {
    var keys := KeysOf(MIPS32_CP0_REGISTERS);
    Cp0AdjacentSorted();
    AdjacentIncreasingIsIncreasing(keys);
    forall i, j | 0 <= i < j < |MIPS32_CP0_REGISTERS| ensures SortKey(MIPS32_CP0_REGISTERS[i]) < SortKey(MIPS32_CP0_REGISTERS[j]) {
      assert keys[i] < keys[j];
    }
  }

  /** Register numbers 21 and 22 are absent from every select block. */
  lemma Cp0CatalogOmits21And22()
    ensures forall i :: 0 <= i < |MIPS32_CP0_REGISTERS| ==> RegOf(MIPS32_CP0_REGISTERS[i].id) != 21 && RegOf(MIPS32_CP0_REGISTERS[i].id) != 22
  {
    Cp0Indexing();
    OmitsChunk0();
    OmitsChunk1();
    OmitsChunk2();
    OmitsChunk3();
    OmitsChunk4();
    OmitsChunk5();
    OmitsChunk6();
    OmitsChunk7();
  }

  /** Every CP0 register is a 32-bit integer that the unwinder clears. */
  lemma Cp0CatalogAllClearedWords()
    ensures forall i :: 0 <= i < |MIPS32_CP0_REGISTERS| ==> IsClearedWord(MIPS32_CP0_REGISTERS[i])
  {
    Cp0Indexing();
    ClearedLow();
    ClearedHigh();
  }

  /** Debug is register 23 select 0 with id 0x80B8; Config1 is register 16 select 1 with id 0x8081. */
  lemma Cp0SpotChecks()
    ensures MIPS32_CP0_REGISTERS[21].roles == [Other("cp0.23.0"), Other("debug")] && MIPS32_CP0_REGISTERS[21].id == 0x80B8 == Cp0Id(23, 0)
    ensures MIPS32_CP0_REGISTERS[40].roles == [Other("cp0.16.1"), Other("config1")] && MIPS32_CP0_REGISTERS[40].id == 0x8081 == Cp0Id(16, 1)
  {
    Cp0Indexing();
  }
}

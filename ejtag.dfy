/*
 * The EJTAG session: the version table, the connect sequence that reads the
 * identification, implementation and control registers over JTAG and picks
 * the breakpoint register layout of the detected EJTAG version, and the
 * scan that puts the core into debug mode.
 *
 * The JTAG probe is an object that records every call made on it and
 * answers each scan from a fixed table of replies indexed by the call's
 * position in that record, so the contracts can say which scans are issued,
 * in which order, and what becomes of each reply.
 */
module Ejtag {
  import opened Errors

  // ---------------------------------------------------------------------
  // Constants
  // ---------------------------------------------------------------------

  // EJTAG Control register (ECR) bits
  const EJTAG_CTRL_TOF: bv32 := 1 << 1
  const EJTAG_CTRL_TIF: bv32 := 1 << 2
  const EJTAG_CTRL_BRKST: bv32 := 1 << 3
  const EJTAG_CTRL_DLOCK: bv32 := 1 << 5
  const EJTAG_CTRL_DRWN: bv32 := 1 << 9
  const EJTAG_CTRL_DERR: bv32 := 1 << 10
  const EJTAG_CTRL_DSTRT: bv32 := 1 << 11
  const EJTAG_CTRL_JTAGBRK: bv32 := 1 << 12
  const EJTAG_CTRL_DBGISA: bv32 := 1 << 13
  const EJTAG_CTRL_SETDEV: bv32 := 1 << 14
  const EJTAG_CTRL_PROBEN: bv32 := 1 << 15
  const EJTAG_CTRL_PRRST: bv32 := 1 << 16
  const EJTAG_CTRL_DMAACC: bv32 := 1 << 17
  const EJTAG_CTRL_PRACC: bv32 := 1 << 18
  const EJTAG_CTRL_PRNW: bv32 := 1 << 19
  const EJTAG_CTRL_PERRST: bv32 := 1 << 20
  const EJTAG_CTRL_SYNC: bv32 := 1 << 23
  const EJTAG_CTRL_DNM: bv32 := 1 << 28
  const EJTAG_CTRL_ROCC: bv32 := 1 << 31

  // EJTAG instruction register codes
  const EJTAG_INST_IDCODE: bv32 := 0x01
  const EJTAG_INST_IMPCODE: bv32 := 0x03
  const EJTAG_INST_ADDRESS: bv32 := 0x08
  const EJTAG_INST_DATA: bv32 := 0x09
  const EJTAG_INST_CONTROL: bv32 := 0x0A
  const EJTAG_INST_ALL: bv32 := 0x0B
  const EJTAG_INST_EJTAGBOOT: bv32 := 0x0C
  const EJTAG_INST_NORMALBOOT: bv32 := 0x0D
  const EJTAG_INST_FASTDATA: bv32 := 0x0E
  const EJTAG_INST_TCBCONTROLA: bv32 := 0x10
  const EJTAG_INST_TCBCONTROLB: bv32 := 0x11
  const EJTAG_INST_TCBDATA: bv32 := 0x12
  const EJTAG_INST_TCBCONTROLC: bv32 := 0x13
  const EJTAG_INST_PCSAMPLE: bv32 := 0x14
  const EJTAG_INST_TCBCONTROLD: bv32 := 0x15
  const EJTAG_INST_TCBCONTROLE: bv32 := 0x16
  const EJTAG_INST_FDC: bv32 := 0x17
  const EJTAG_INST_BYPASS: bv32 := 0xFF

  // Breakpoint registers of EJTAG 2.0
  const EJTAG_V20_IBS: u32 := 0xFF300004
  const EJTAG_V20_IBA0: u32 := 0xFF300100
  const EJTAG_V20_IBC_OFFS: u32 := 0x4
  const EJTAG_V20_IBM_OFFS: u32 := 0x8
  const EJTAG_V20_IBAN_STEP: u32 := 0x10
  const EJTAG_V20_DBS: u32 := 0xFF300008
  const EJTAG_V20_DBA0: u32 := 0xFF300200
  const EJTAG_V20_DBC_OFFS: u32 := 0x4
  const EJTAG_V20_DBM_OFFS: u32 := 0x8
  const EJTAG_V20_DBV_OFFS: u32 := 0xC
  const EJTAG_V20_DBAN_STEP: u32 := 0x10

  // Breakpoint registers of EJTAG 2.5 and later
  const EJTAG_V25_IBS: u32 := 0xFF301000
  const EJTAG_V25_IBA0: u32 := 0xFF301100
  const EJTAG_V25_IBM_OFFS: u32 := 0x8
  const EJTAG_V25_IBASID_OFFS: u32 := 0x10
  const EJTAG_V25_IBC_OFFS: u32 := 0x18
  const EJTAG_V25_IBAN_STEP: u32 := 0x100
  const EJTAG_V25_DBS: u32 := 0xFF302000
  const EJTAG_V25_DBA0: u32 := 0xFF302100
  const EJTAG_V25_DBM_OFFS: u32 := 0x8
  const EJTAG_V25_DBASID_OFFS: u32 := 0x10
  const EJTAG_V25_DBC_OFFS: u32 := 0x18
  const EJTAG_V25_DBV_OFFS: u32 := 0x20
  const EJTAG_V25_DBAN_STEP: u32 := 0x100

  // Implementation register (IMPCODE) bits
  const EJTAG_V26_IMP_R3K: bv32 := 1 << 28
  const EJTAG_V26_IMP_DINT: bv32 := 1 << 24
  const EJTAG_V20_IMP_SDBBP: bv32 := 1 << 23
  const EJTAG_IMP_ASID8: bv32 := 1 << 22
  const EJTAG_IMP_ASID6: bv32 := 1 << 21
  const EJTAG_V20_IMP_COMPLEX_BREAK: bv32 := 1 << 20
  const EJTAG_V20_IMP_EADDR_NO32BIT: bv32 := 1 << 19
  const EJTAG_V20_IMP_DCACHE_COH: bv32 := 1 << 18
  const EJTAG_V20_IMP_ICACHE_COH: bv32 := 1 << 17
  const EJTAG_IMP_MIPS16: bv32 := 1 << 16
  const EJTAG_IMP_NODMA: bv32 := 1 << 14
  const EJTAG_V20_IMP_NOPB: bv32 := 1 << 7
  const EJTAG_V20_IMP_NODB: bv32 := 1 << 6
  const EJTAG_V20_IMP_NOIB: bv32 := 1 << 5
  const EJTAG_V20_IMP_BCHANNELS_MASK: bv32 := 0xF
  const EJTAG_V20_IMP_BCHANNELS_SHIFT: bv32 := 1
  const EJTAG_IMP_MIPS64: bv32 := 1 << 0

  /** The width of the EJTAG instruction register, in bits. */
  const EJTAG_IR_LEN: bv32 := 5

  /**
   * The panic a reply shorter than four bytes causes when its first four
   * bytes are sliced off. The text is shortened: Rust's message ends with
   * "for slice of length N", naming the reply's length, which is left out.
   */
  const SHORT_REPLY_PANIC: string := "range end index 4 out of range for slice"

  // ---------------------------------------------------------------------
  // Versions
  // ---------------------------------------------------------------------

  /** The EJTAG version a core reports. */
  datatype EjtagVersion =
    | NoModule
    | EjtagV20
    | EjtagV25
    | EjtagV26
    | EjtagV31
    | EjtagV41
    | EjtagV51
    | Unknown(raw: bv8)

  /** The version a raw version number stands for: 0..5 are the known versions, 255 means no module. */
  function VersionFromRaw(raw: bv8): (v: EjtagVersion)
    ensures v == NoModule <==> raw == 255
    ensures v.Unknown? <==> 5 < raw < 255
    ensures v.Unknown? ==> v.raw == raw
  {
    match raw
    case 0 => EjtagV20
    case 1 => EjtagV25
    case 2 => EjtagV26
    case 3 => EjtagV31
    case 4 => EjtagV41
    case 5 => EjtagV51
    case 255 => NoModule
    case _ => Unknown(raw)
  }

  /** The raw number of a version. */
  function RawOfVersion(v: EjtagVersion): bv8
  {
    match v
    case NoModule => 255
    case EjtagV20 => 0
    case EjtagV25 => 1
    case EjtagV26 => 2
    case EjtagV31 => 3
    case EjtagV41 => 4
    case EjtagV51 => 5
    case Unknown(raw) => raw
  }

  /** A version `VersionFromRaw` can produce: `Unknown` never holds a number that has a name. */
  predicate Canonical(v: EjtagVersion)
  {
    v.Unknown? ==> 5 < v.raw < 255
  }

  /** Every raw number is recovered from its version, which is canonical. */
  lemma VersionFromRawRoundTrip(raw: bv8)
    ensures Canonical(VersionFromRaw(raw))
    ensures RawOfVersion(VersionFromRaw(raw)) == raw
  {
  }

  /** Every canonical version is recovered from its raw number. */
  lemma RawOfVersionRoundTrip(v: EjtagVersion)
    requires Canonical(v)
    ensures VersionFromRaw(RawOfVersion(v)) == v
  {
  }

  /** Bits 31:29 of the implementation register, the version field. */
  function VersionField(impcode: bv32): (raw: bv8)
    ensures raw < 8
    ensures raw as bv32 == impcode >> 29
  {
    ((impcode >> 29) & 0x07) as bv8
  }

  /** The version a core reports through its implementation register. */
  function VersionFromImpcode(impcode: bv32): EjtagVersion
  {
    VersionFromRaw(VersionField(impcode))
  }

  /**
   * A three-bit field never yields `NoModule`, and the only unknown versions
   * it yields are 6 and 7; version 2.0 is reported exactly when bits 31:29
   * are clear.
   */
  lemma VersionFromImpcodeRange(impcode: bv32)
    ensures VersionFromImpcode(impcode) != NoModule
    ensures VersionFromImpcode(impcode).Unknown? ==>
      VersionFromImpcode(impcode).raw == 6 || VersionFromImpcode(impcode).raw == 7
    ensures VersionFromImpcode(impcode) == EjtagV20 <==> impcode >> 29 == 0
    ensures RawOfVersion(VersionFromImpcode(impcode)) as bv32 == impcode >> 29
  {
    VersionFromRawRoundTrip(VersionField(impcode));
  }

  // ---------------------------------------------------------------------
  // Breakpoint register layouts
  // ---------------------------------------------------------------------

  /** Where the instruction and data breakpoint registers are, and how far apart their channels lie. */
  datatype BreakpointLayout = BreakpointLayout(
    ibsAddr: u32, iba0Addr: u32, ibcOffs: u32, ibmOffs: u32, ibasidOffs: u32,
    dbsAddr: u32, dba0Addr: u32, dbcOffs: u32, dbmOffs: u32, dbvOffs: u32, dbasidOffs: u32,
    ibaStepSize: u32, dbaStepSize: u32)

  /** The EJTAG 2.0 layout; it has no ASID registers, so those offsets stay zero. */
  const V20_LAYOUT: BreakpointLayout := BreakpointLayout(
    EJTAG_V20_IBS, EJTAG_V20_IBA0, EJTAG_V20_IBC_OFFS, EJTAG_V20_IBM_OFFS, 0,
    EJTAG_V20_DBS, EJTAG_V20_DBA0, EJTAG_V20_DBC_OFFS, EJTAG_V20_DBM_OFFS, EJTAG_V20_DBV_OFFS, 0,
    EJTAG_V20_IBAN_STEP, EJTAG_V20_DBAN_STEP)

  /** The layout of EJTAG 2.5 and later. */
  const V25_LAYOUT: BreakpointLayout := BreakpointLayout(
    EJTAG_V25_IBS, EJTAG_V25_IBA0, EJTAG_V25_IBC_OFFS, EJTAG_V25_IBM_OFFS, EJTAG_V25_IBASID_OFFS,
    EJTAG_V25_DBS, EJTAG_V25_DBA0, EJTAG_V25_DBC_OFFS, EJTAG_V25_DBM_OFFS, EJTAG_V25_DBV_OFFS, EJTAG_V25_DBASID_OFFS,
    EJTAG_V25_IBAN_STEP, EJTAG_V25_DBAN_STEP)

  /** The layout a session uses for a version: the 2.0 one for 2.0, the 2.5 one for anything else. */
  function LayoutFor(v: EjtagVersion): BreakpointLayout
  {
    if v == EjtagV20 then V20_LAYOUT else V25_LAYOUT
  }

  /**
   * The 2.0 layout is chosen exactly for version 2.0, and every other
   * version, `Unknown` ones included, gets the 2.5 layout; only the 2.5
   * layout has ASID registers.
   */
  lemma LayoutSelection(v: EjtagVersion)
    ensures LayoutFor(v) == V20_LAYOUT <==> v == EjtagV20
    ensures LayoutFor(v) == V25_LAYOUT <==> v != EjtagV20
    ensures LayoutFor(v).ibasidOffs == 0 <==> v == EjtagV20
    ensures LayoutFor(v).dbasidOffs == 0 <==> v == EjtagV20
  {
  }

  /** The addresses and offsets of both layouts, written out. */
  lemma LayoutValues()
    ensures V20_LAYOUT.ibsAddr == 0xFF300004 && V20_LAYOUT.iba0Addr == 0xFF300100
    ensures V20_LAYOUT.ibcOffs == 0x4 && V20_LAYOUT.ibmOffs == 0x8
    ensures V20_LAYOUT.dbsAddr == 0xFF300008 && V20_LAYOUT.dba0Addr == 0xFF300200
    ensures V20_LAYOUT.dbcOffs == 0x4 && V20_LAYOUT.dbmOffs == 0x8 && V20_LAYOUT.dbvOffs == 0xC
    ensures V20_LAYOUT.ibaStepSize == V20_LAYOUT.dbaStepSize == 0x10
    ensures V25_LAYOUT.ibsAddr == 0xFF301000 && V25_LAYOUT.iba0Addr == 0xFF301100
    ensures V25_LAYOUT.ibmOffs == 0x8 && V25_LAYOUT.ibasidOffs == 0x10 && V25_LAYOUT.ibcOffs == 0x18
    ensures V25_LAYOUT.dbsAddr == 0xFF302000 && V25_LAYOUT.dba0Addr == 0xFF302100
    ensures V25_LAYOUT.dbmOffs == 0x8 && V25_LAYOUT.dbasidOffs == 0x10
    ensures V25_LAYOUT.dbcOffs == 0x18 && V25_LAYOUT.dbvOffs == 0x20
    ensures V25_LAYOUT.ibaStepSize == V25_LAYOUT.dbaStepSize == 0x100
  {
  }

  // ---------------------------------------------------------------------
  // Little-endian words
  // ---------------------------------------------------------------------

  /** The 32-bit word whose little-endian bytes open `b`. */
  function LeWord(b: seq<bv8>): bv32
    requires |b| >= 4
  {
    b[0] as bv32 | (b[1] as bv32 << 8) | (b[2] as bv32 << 16) | (b[3] as bv32 << 24)
  }

  /** The little-endian bytes of a 32-bit word. */
  function LeBytes(w: bv32): (b: seq<bv8>)
    ensures |b| == 4
  {
    [(w & 0xFF) as bv8, ((w >> 8) & 0xFF) as bv8, ((w >> 16) & 0xFF) as bv8, ((w >> 24) & 0xFF) as bv8]
  }

  /** Reading back the bytes of a word gives the word. */
  lemma LeWordOfLeBytes(w: bv32)
    ensures LeWord(LeBytes(w)) == w
  {
    var b := LeBytes(w);
    assert b[0] as bv32 == w & 0xFF;
    assert b[1] as bv32 == (w >> 8) & 0xFF;
    assert b[2] as bv32 == (w >> 16) & 0xFF;
    assert b[3] as bv32 == (w >> 24) & 0xFF;
    WordFromBytes(w);
  }

  lemma WordFromBytes(w: bv32)
    ensures (w & 0xFF) | (((w >> 8) & 0xFF) << 8) | (((w >> 16) & 0xFF) << 16) | (((w >> 24) & 0xFF) << 24) == w
  {
  }

  /** Only the first four bytes of a reply make up its word, and they are its bytes. */
  lemma LeBytesOfLeWord(b: seq<bv8>)
    requires |b| >= 4
    ensures LeBytes(LeWord(b)) == b[..4]
  {
    var y0, y1, y2, y3 := b[0], b[1], b[2], b[3];
    var l := LeBytes(LeWord(b));
    assert l[0] == y0 && l[1] == y1 && l[2] == y2 && l[3] == y3 by {
      BytesOfWord(y0, y1, y2, y3);
    }
    assert b[..4] == [y0, y1, y2, y3];
  }

  /** The bytes of the word assembled from four bytes are those bytes. */
  lemma BytesOfWord(y0: bv8, y1: bv8, y2: bv8, y3: bv8)
    ensures var w := y0 as bv32 | (y1 as bv32 << 8) | (y2 as bv32 << 16) | (y3 as bv32 << 24);
      (w & 0xFF) as bv8 == y0 && ((w >> 8) & 0xFF) as bv8 == y1
      && ((w >> 16) & 0xFF) as bv8 == y2 && ((w >> 24) & 0xFF) as bv8 == y3
  {
    Widen(y0);
    Widen(y1);
    Widen(y2);
    Widen(y3);
    ByteOfWord(y0 as bv32, y1 as bv32, y2 as bv32, y3 as bv32);
  }

  /** A byte widened to a word is below 256 and narrows back to itself. */
  lemma Widen(x: bv8)
    ensures x as bv32 < 256
    ensures (x as bv32) as bv8 == x
  {
  }

  lemma ByteOfWord(x0: bv32, x1: bv32, x2: bv32, x3: bv32)
    requires x0 < 256 && x1 < 256 && x2 < 256 && x3 < 256
    ensures var w := x0 | (x1 << 8) | (x2 << 16) | (x3 << 24);
      w & 0xFF == x0 && (w >> 8) & 0xFF == x1 && (w >> 16) & 0xFF == x2 && (w >> 24) & 0xFF == x3
  {
  }

  // ---------------------------------------------------------------------
  // The JTAG probe
  // ---------------------------------------------------------------------

  /** A call made on the JTAG probe. */
  datatype JtagCall =
    | SetIrLen(len: bv32)
    | ReadRegister(address: bv32, len: bv32)
    | WriteRegister(address: bv32, data: seq<bv8>, len: bv32)

  /** What a scan returns: the captured bytes, or a transport failure. */
  type ScanReply = Result<seq<bv8>, DebugProbeError>

  /**
   * A JTAG probe. `log` records every call made on it, in order; the scan
   * issued as call number n of the log is answered by `replies(n)`.
   */
  class JtagProbe {
    var log: seq<JtagCall>
    const replies: nat -> ScanReply

    constructor (replies: nat -> ScanReply)
      ensures this.replies == replies && log == []
    {
      this.replies := replies;
      log := [];
    }

    /** Sets the width of the instruction register. */
    method SetIrLen(len: bv32)
      modifies this
      ensures log == old(log) + [JtagCall.SetIrLen(len)]
    {
      log := log + [JtagCall.SetIrLen(len)];
    }

    /** Scans `len` bits out of the data register selected by instruction `address`. */
    method ReadRegister(address: bv32, len: bv32) returns (r: ScanReply)
      modifies this
      ensures r == replies(|old(log)|)
      ensures log == old(log) + [JtagCall.ReadRegister(address, len)]
    {
      r := replies(|log|);
      log := log + [JtagCall.ReadRegister(address, len)];
    }

    /** Scans `data` into the data register selected by instruction `address`. */
    method WriteRegister(address: bv32, data: seq<bv8>, len: bv32) returns (r: ScanReply)
      modifies this
      ensures r == replies(|old(log)|)
      ensures log == old(log) + [JtagCall.WriteRegister(address, data, len)]
    {
      r := replies(|log|);
      log := log + [JtagCall.WriteRegister(address, data, len)];
    }
  }

  // ---------------------------------------------------------------------
  // The connect sequence
  // ---------------------------------------------------------------------

  /** A reply a word can be taken from. */
  predicate Usable(r: ScanReply)
  {
    r.Ok? && |r.value| >= 4
  }

  /** How the three connect-time reads end. */
  datatype ConnectPlan =
    | AllRead(idcode: bv32, impcode: bv32, ejtagCtrl: bv32)
    | ReadFailed(step: nat, err: DebugProbeError)
    | ShortReply(step: nat)

  /**
   * The connect sequence given the replies to the IDCODE, IMPCODE and
   * CONTROL reads: it stops at the first failing read, and panics on the
   * first reply too short to hold a word.
   */
  function PlanConnect(id: ScanReply, imp: ScanReply, ctrl: ScanReply): ConnectPlan
  {
    if id.Err? then ReadFailed(1, id.error)
    else if |id.value| < 4 then ShortReply(1)
    else if imp.Err? then ReadFailed(2, imp.error)
    else if |imp.value| < 4 then ShortReply(2)
    else if ctrl.Err? then ReadFailed(3, ctrl.error)
    else if |ctrl.value| < 4 then ShortReply(3)
    else AllRead(LeWord(id.value), LeWord(imp.value), LeWord(ctrl.value))
  }

  /** The number of reads a plan issues. */
  function ReadsIssued(p: ConnectPlan): nat
  {
    match p
    case AllRead(_, _, _) => 3
    case ReadFailed(k, _) => k
    case ShortReply(k) => k
  }

  /** The plan of a connect sequence started on `probe` when its log held `b` calls. */
  function ConnectPlanOf(probe: JtagProbe, b: nat): ConnectPlan
  {
    PlanConnect(probe.replies(b + 1), probe.replies(b + 2), probe.replies(b + 3))
  }

  /** The three reads of the connect sequence, 32 bits each, in order. */
  const CONNECT_READS: seq<JtagCall> := [
    ReadRegister(EJTAG_INST_IDCODE, 32),
    ReadRegister(EJTAG_INST_IMPCODE, 32),
    ReadRegister(EJTAG_INST_CONTROL, 32)]

  /** The calls the connect sequence makes under a plan: the instruction width, then the reads it gets to. */
  function ConnectCalls(p: ConnectPlan): (calls: seq<JtagCall>)
    requires ReadsIssued(p) <= 3
    ensures |calls| == 1 + ReadsIssued(p)
    ensures calls[0] == SetIrLen(EJTAG_IR_LEN)
    ensures forall k :: 1 <= k < |calls| ==> calls[k] == CONNECT_READS[k - 1]
  {
    [SetIrLen(EJTAG_IR_LEN)] + CONNECT_READS[..ReadsIssued(p)]
  }

  /**
   * The connect sequence reads all three registers exactly when every reply
   * holds a word, and the words are those replies' first four bytes; it
   * stops at read k with the failure of reply k, or panics at read k on a
   * short reply k, only when every earlier reply held a word.
   */
  lemma PlanConnectSpec(id: ScanReply, imp: ScanReply, ctrl: ScanReply)
    ensures var rs, p := [id, imp, ctrl], PlanConnect(id, imp, ctrl);
      1 <= ReadsIssued(p) <= 3
      && (p.AllRead? <==> Usable(id) && Usable(imp) && Usable(ctrl))
      && (p.AllRead? ==> LeBytes(p.idcode) == id.value[..4] && LeBytes(p.impcode) == imp.value[..4]
                         && LeBytes(p.ejtagCtrl) == ctrl.value[..4])
      && (p.ReadFailed? ==> rs[p.step - 1] == Err(p.err))
      && (p.ShortReply? ==> rs[p.step - 1].Ok? && |rs[p.step - 1].value| < 4)
      && (forall k :: 0 <= k < ReadsIssued(p) - 1 ==> Usable(rs[k]))
  {
    var p := PlanConnect(id, imp, ctrl);
    if p.AllRead? {
      LeBytesOfLeWord(id.value);
      LeBytesOfLeWord(imp.value);
      LeBytesOfLeWord(ctrl.value);
    }
  }

  /** Only the first four bytes of each reply matter to the connect sequence. */
  lemma PlanConnectReadsFourBytes(id: ScanReply, imp: ScanReply, ctrl: ScanReply)
    requires Usable(id) && Usable(imp) && Usable(ctrl)
    ensures PlanConnect(id, imp, ctrl)
      == PlanConnect(Ok(id.value[..4]), Ok(imp.value[..4]), Ok(ctrl.value[..4]))
  {
  }

  // ---------------------------------------------------------------------
  // The session
  // ---------------------------------------------------------------------

  /** How a connection attempt ends: a session, the probe handed back with the failure, or a panic. */
  datatype Connection =
    | Connected(session: EjtagSession)
    | Refused(probe: JtagProbe, err: MipsError)
    | ConnectPanicked(message: string)

  /** The all-zero 32-byte payload scanned in to enter debug mode. */
  function Zeros(n: nat): (z: seq<bv8>)
    ensures |z| == n
    ensures forall k :: 0 <= k < n ==> z[k] == 0
  {
    if n == 0 then [] else Zeros(n - 1) + [0]
  }

  /** An EJTAG session on one core: the probe it owns and the registers it caches. */
  class EjtagSession {
    var probe: JtagProbe
    var idcode: bv32
    var impcode: bv32
    var debugCtrl: bv32
    var ejtagCtrl: bv32
    var ejtagVersion: EjtagVersion
    var fastAccessSave: int
    var configRegs: bv32
    var config: array<bv32>
    var regT0: bv32
    var regT1: bv32
    var scanDelay: bv32
    var mode: int
    var paCtrl: bv32
    var paAddr: bv32
    var isa: bv32
    var endianness: bv8
    var debugCaps: bv32
    var ejtagIbsAddr: u32
    var ejtagIba0Addr: u32
    var ejtagIbcOffs: u32
    var ejtagIbmOffs: u32
    var ejtagIbasidOffs: u32
    var ejtagDbsAddr: u32
    var ejtagDba0Addr: u32
    var ejtagDbcOffs: u32
    var ejtagDbmOffs: u32
    var ejtagDbvOffs: u32
    var ejtagDbasidOffs: u32
    var ejtagIbaStepSize: u32
    var ejtagDbaStepSize: u32

    /** The breakpoint register layout the session holds. */
    function Layout(): BreakpointLayout
      reads this
    {
      BreakpointLayout(
        ejtagIbsAddr, ejtagIba0Addr, ejtagIbcOffs, ejtagIbmOffs, ejtagIbasidOffs,
        ejtagDbsAddr, ejtagDba0Addr, ejtagDbcOffs, ejtagDbmOffs, ejtagDbvOffs, ejtagDbasidOffs,
        ejtagIbaStepSize, ejtagDbaStepSize)
    }

    /** Every cached value a new session does not read from the core is zero. */
    predicate ZeroCaches()
      reads this, config
    {
      debugCtrl == 0 && fastAccessSave == 0 && configRegs == 0
      && config.Length == 4 && config[0] == 0 && config[1] == 0 && config[2] == 0 && config[3] == 0
      && regT0 == 0 && regT1 == 0 && scanDelay == 0 && mode == 0
      && paCtrl == 0 && paAddr == 0 && endianness == 0 && debugCaps == 0
    }

    /**
     * The session holds the three words of a completed plan, the version of
     * its implementation word, the MIPS16 bit of that word as its ISA, zero
     * in every other cache, and the breakpoint layout of its version.
     */
    predicate Holds(plan: ConnectPlan)
      reads this, config
    {
      plan.AllRead?
      && idcode == plan.idcode && impcode == plan.impcode && ejtagCtrl == plan.ejtagCtrl
      && ejtagVersion == VersionFromImpcode(plan.impcode)
      && isa == plan.impcode & EJTAG_IMP_MIPS16
      && ZeroCaches()
      && Layout() == LayoutFor(ejtagVersion)
    }

    /**
     * The session a completed connect sequence builds: the three words read,
     * the version of the implementation word, zero in every other field, and
     * then the breakpoint layout of the version written field by field (the
     * EJTAG 2.0 branch leaves the two ASID offsets at zero).
     */
    constructor Init(probe: JtagProbe, idcode: bv32, impcode: bv32, ejtagCtrl: bv32, version: EjtagVersion)
      requires version == VersionFromImpcode(impcode)
      ensures this.probe == probe && fresh(config)
      ensures Holds(AllRead(idcode, impcode, ejtagCtrl))
    {
      this.probe := probe;
      this.idcode := idcode;
      this.impcode := impcode;
      debugCtrl := 0;
      this.ejtagCtrl := ejtagCtrl;
      ejtagVersion := version;
      fastAccessSave := 0;
      configRegs := 0;
      config := new bv32[4] [0, 0, 0, 0];
      regT0 := 0;
      regT1 := 0;
      scanDelay := 0;
      mode := 0;
      paCtrl := 0;
      paAddr := 0;
      isa := impcode & EJTAG_IMP_MIPS16;
      endianness := 0;
      debugCaps := 0;
      ejtagIbsAddr := 0;
      ejtagIba0Addr := 0;
      ejtagIbcOffs := 0;
      ejtagIbmOffs := 0;
      ejtagIbasidOffs := 0;
      ejtagDbsAddr := 0;
      ejtagDba0Addr := 0;
      ejtagDbcOffs := 0;
      ejtagDbmOffs := 0;
      ejtagDbvOffs := 0;
      ejtagDbasidOffs := 0;
      ejtagIbaStepSize := 0;
      ejtagDbaStepSize := 0;

      if version == EjtagV20 {
        ejtagIbsAddr := EJTAG_V20_IBS;
        ejtagIba0Addr := EJTAG_V20_IBA0;
        ejtagIbcOffs := EJTAG_V20_IBC_OFFS;
        ejtagIbmOffs := EJTAG_V20_IBM_OFFS;

        ejtagDbsAddr := EJTAG_V20_DBS;
        ejtagDba0Addr := EJTAG_V20_DBA0;
        ejtagDbcOffs := EJTAG_V20_DBC_OFFS;
        ejtagDbmOffs := EJTAG_V20_DBM_OFFS;
        ejtagDbvOffs := EJTAG_V20_DBV_OFFS;

        ejtagIbaStepSize := EJTAG_V20_IBAN_STEP;
        ejtagDbaStepSize := EJTAG_V20_DBAN_STEP;
      } else {
        ejtagIbsAddr := EJTAG_V25_IBS;
        ejtagIba0Addr := EJTAG_V25_IBA0;
        ejtagIbmOffs := EJTAG_V25_IBM_OFFS;
        ejtagIbasidOffs := EJTAG_V25_IBASID_OFFS;
        ejtagIbcOffs := EJTAG_V25_IBC_OFFS;

        ejtagDbsAddr := EJTAG_V25_DBS;
        ejtagDba0Addr := EJTAG_V25_DBA0;
        ejtagDbmOffs := EJTAG_V25_DBM_OFFS;
        ejtagDbasidOffs := EJTAG_V25_DBASID_OFFS;
        ejtagDbcOffs := EJTAG_V25_DBC_OFFS;
        ejtagDbvOffs := EJTAG_V25_DBV_OFFS;

        ejtagIbaStepSize := EJTAG_V25_IBAN_STEP;
        ejtagDbaStepSize := EJTAG_V25_DBAN_STEP;
      }
    }

    /**
     * Connects to the core behind `probe`: sets the instruction width to 5,
     * reads IDCODE, IMPCODE and CONTROL in that order, stopping at the first
     * failure, and on success builds a session whose version comes from
     * IMPCODE bits 31:29 and whose breakpoint layout is that version's.
     */
    static method Connect(probe: JtagProbe) returns (r: Connection)
      modifies probe
      ensures ReadsIssued(ConnectPlanOf(probe, |old(probe.log)|)) <= 3
      ensures probe.log == old(probe.log) + ConnectCalls(ConnectPlanOf(probe, |old(probe.log)|))
      ensures r.Refused? <==> ConnectPlanOf(probe, |old(probe.log)|).ReadFailed?
      ensures r.Refused? ==> r.probe == probe && r.err == MipsError.Error(ConnectPlanOf(probe, |old(probe.log)|).err)
      ensures r.ConnectPanicked? <==> ConnectPlanOf(probe, |old(probe.log)|).ShortReply?
      ensures r.Connected? <==> ConnectPlanOf(probe, |old(probe.log)|).AllRead?
      ensures r.Connected? ==> fresh(r.session) && fresh(r.session.config) && r.session.probe == probe
      ensures r.Connected? ==> r.session.Holds(ConnectPlanOf(probe, |old(probe.log)|))
    {
      probe.SetIrLen(EJTAG_IR_LEN);
      var reply := probe.ReadRegister(EJTAG_INST_IDCODE, 32);
      if reply.Err? {
        return Refused(probe, MipsError.Error(reply.error));
      }
      if |reply.value| < 4 {
        return ConnectPanicked(SHORT_REPLY_PANIC);
      }
      var idcode := LeWord(reply.value);

      reply := probe.ReadRegister(EJTAG_INST_IMPCODE, 32);
      if reply.Err? {
        return Refused(probe, MipsError.Error(reply.error));
      }
      if |reply.value| < 4 {
        return ConnectPanicked(SHORT_REPLY_PANIC);
      }
      var impcode := LeWord(reply.value);
      var version := VersionFromImpcode(impcode);

      reply := probe.ReadRegister(EJTAG_INST_CONTROL, 32);
      if reply.Err? {
        return Refused(probe, MipsError.Error(reply.error));
      }
      if |reply.value| < 4 {
        return ConnectPanicked(SHORT_REPLY_PANIC);
      }
      var ejtagCtrl := LeWord(reply.value);

      var session := new EjtagSession.Init(probe, idcode, impcode, ejtagCtrl, version);
      return Connected(session);
    }

    /** Puts the core into debug mode: sets the instruction width to 5, then scans EJTAGBOOT with 32 zero bytes. */
    method EnterDebug() returns (r: Result<(), DebugProbeError>)
      modifies probe
      ensures probe.log == old(probe.log) + [SetIrLen(EJTAG_IR_LEN), WriteRegister(EJTAG_INST_EJTAGBOOT, Zeros(32), 32)]
      ensures r.Err? <==> probe.replies(|old(probe.log)| + 1).Err?
      ensures r.Err? ==> r.error == probe.replies(|old(probe.log)| + 1).error
    {
      probe.SetIrLen(EJTAG_IR_LEN);
      var reply := probe.WriteRegister(EJTAG_INST_EJTAGBOOT, Zeros(32), 32);
      if reply.Err? {
        return Err(reply.error);
      }
      return Ok(());
    }
  }
}

/*
 * The per-core state the session keeps for every core of a target: the
 * architecture-specific state chosen from the core type, the memory access
 * port of an ARM core, and the guards that refuse to attach a core through
 * an interface of another architecture.
 *
 * The architecture states themselves, the ARM probe interface and the core
 * constructors are defined elsewhere; their results enter the model as
 * parameters.
 */
module CoreState {
  import opened Errors

  /** The message every architecture guard fails with. */
  const MISMATCH: string := "Core architecture and Probe mismatch."

  /** The panic of asking a non-ARM core for ARM-only information. */
  const NOT_ARM_PANIC: string := "This should never happen. Please file a bug if it does."

  /** The panics of ARM cores whose options lack a base address. */
  const NO_DEBUG_BASE_PANIC: string := "base_address not specified"
  const NO_CTI_BASE_PANIC: string := "cti_address not specified"

  /** The kinds of core a target description can name. */
  datatype CoreType = Armv6m | Armv7a | Armv7m | Armv7em | Armv8a | Armv8m | Riscv | Mips

  // The architecture states; their contents are not part of this model.
  datatype CortexMState = CortexMState
  datatype CortexAState = CortexAState
  datatype RiscVState = RiscVState
  datatype MipsState = MipsState

  /** The architecture-specific state of a core, one variant per core type. */
  datatype SpecificCoreState =
    | Armv6mState(m: CortexMState)
    | Armv7aState(a: CortexAState)
    | Armv7mState(m: CortexMState)
    | Armv7emState(m: CortexMState)
    | Armv8aState(a: CortexAState)
    | Armv8mState(m: CortexMState)
    | RiscvState(r: RiscVState)
    | MipsCoreState(p: MipsState)

  /** The state a core of type `t` starts with; an ARMv7-EM core gets the ARMv7-M variant. */
  function FromCoreType(t: CoreType): SpecificCoreState
  {
    match t
    case Armv6m => Armv6mState(CortexMState)
    case Armv7a => Armv7aState(CortexAState)
    case Armv7m => Armv7mState(CortexMState)
    case Armv7em => Armv7mState(CortexMState)
    case Armv8a => Armv8aState(CortexAState)
    case Armv8m => Armv8mState(CortexMState)
    case Riscv => RiscvState(RiscVState)
    case Mips => MipsCoreState(MipsState)
  }

  /** The core type a state reports. */
  function CoreTypeOf(s: SpecificCoreState): CoreType
  {
    match s
    case Armv6mState(_) => Armv6m
    case Armv7aState(_) => Armv7a
    case Armv7mState(_) => Armv7m
    case Armv7emState(_) => Armv7em
    case Armv8aState(_) => Armv8a
    case Armv8mState(_) => Armv8m
    case RiscvState(_) => Riscv
    case MipsCoreState(_) => CoreType.Mips
  }

  /**
   * The type of a core is recovered from the state built for it, except
   * for ARMv7-EM, whose state reports ARMv7-M; no state built from a type
   * is ever the ARMv7-EM variant.
   */
  lemma CoreTypeRoundTrip(t: CoreType)
    ensures t != Armv7em ==> CoreTypeOf(FromCoreType(t)) == t
    ensures t == Armv7em ==> CoreTypeOf(FromCoreType(t)) == Armv7m
    ensures !FromCoreType(t).Armv7emState?
  {
  }

  /** Two core types get the same state only when they are equal or are ARMv7-M and ARMv7-EM. */
  lemma FromCoreTypeMerges(t: CoreType, u: CoreType)
    requires FromCoreType(t) == FromCoreType(u)
    ensures t == u || (t in {Armv7m, Armv7em} && u in {Armv7m, Armv7em})
  {
  }

  /** A state is built back from its type, except the ARMv7-EM variant. */
  lemma StateRoundTrip(s: SpecificCoreState)
    ensures !s.Armv7emState? ==> FromCoreType(CoreTypeOf(s)) == s
    ensures s.Armv7emState? ==> FromCoreType(CoreTypeOf(s)) == Armv7mState(s.m)
  {
  }

  /** The options an ARM core is accessed with. */
  datatype ArmCoreAccessOptions = ArmCoreAccessOptions(
    ap: bv8, psel: u32, debugBase: Option<u64>, ctiBase: Option<u64>)

  /** The access options of a core; those of RISC-V and MIPS cores are not part of this model. */
  datatype ResolvedCoreOptions =
    | ArmOptions(options: ArmCoreAccessOptions, sequence: nat)
    | RiscvOptions
    | MipsOptions

  /** The debug port of an ARM core: the default one, or one selected on a multi-drop bus. */
  datatype DpAddress = Default | Multidrop(selector: u32)

  datatype ApAddress = ApAddress(dp: DpAddress, ap: bv8)

  datatype MemoryAp = MemoryAp(address: ApAddress)

  /** The debug port a port selector names: 0 is the default port. */
  function DpAddressFor(psel: u32): DpAddress
  {
    if psel == 0 then Default else Multidrop(psel)
  }

  /** The port selector of a debug port. */
  function PselOf(dp: DpAddress): u32
  {
    match dp
    case Default => 0
    case Multidrop(x) => x
  }

  /**
   * A selector is recovered from its debug port, and `Multidrop(0)` is the
   * only port no selector produces.
   */
  lemma DpAddressRoundTrip(psel: u32, dp: DpAddress)
    ensures PselOf(DpAddressFor(psel)) == psel
    ensures dp != Multidrop(0) ==> DpAddressFor(PselOf(dp)) == dp
    ensures DpAddressFor(psel) != Multidrop(0)
  {
  }

  /** The generic state of a core. */
  datatype CoreState = CoreState(coreAccessOptions: ResolvedCoreOptions)

  /**
   * The memory access port of a core: the debug port its selector names and
   * the access port number of its options. Only ARM cores have one; asking
   * any other core panics.
   */
  function MemoryApOf(cs: CoreState): (r: Outcome<MemoryAp>)
    ensures !r.Failed?
    ensures r.Panicked? <==> !cs.coreAccessOptions.ArmOptions?
    ensures r.Panicked? ==> r.message == NOT_ARM_PANIC
    ensures r.Done? ==> r.value.address.ap == cs.coreAccessOptions.options.ap
    ensures r.Done? ==> (r.value.address.dp == Default <==> cs.coreAccessOptions.options.psel == 0)
    ensures r.Done? && cs.coreAccessOptions.options.psel != 0 ==>
              r.value.address.dp == Multidrop(cs.coreAccessOptions.options.psel)
  {
    match cs.coreAccessOptions
    case ArmOptions(options, _) => Done(MemoryAp(ApAddress(DpAddressFor(options.psel), options.ap)))
    case RiscvOptions => Panicked(NOT_ARM_PANIC)
    case MipsOptions => Panicked(NOT_ARM_PANIC)
  }

  /** The core driver an attach builds, by architecture, with the base addresses it was given. */
  datatype CoreKind =
    | Armv6mCore
    | Armv7aCore(debugBase: u64)
    | Armv7mCore
    | Armv8aCore(debugBase: u64, ctiBase: u64)
    | Armv8mCore
    | Riscv32Core
    | Mips32Core

  /** An attached core: its driver and the index of the core in the session. */
  datatype Core = Core(kind: CoreKind, id: nat)

  /** The core state with its architecture-specific part and the index of the core. */
  datatype CombinedCoreState = CombinedCoreState(coreState: CoreState, specificState: SpecificCoreState, id: nat)

  /** The state variants an ARM interface can attach. */
  predicate IsArmState(s: SpecificCoreState)
  {
    !s.RiscvState? && !s.MipsCoreState?
  }

  /** The driver an ARM state gets: ARMv7-EM shares the ARMv7-M driver. */
  predicate ArmKindFits(k: CoreKind, s: SpecificCoreState)
  {
    match s
    case Armv6mState(_) => k.Armv6mCore?
    case Armv7aState(_) => k.Armv7aCore?
    case Armv7mState(_) => k.Armv7mCore?
    case Armv7emState(_) => k.Armv7mCore?
    case Armv8aState(_) => k.Armv8aCore?
    case Armv8mState(_) => k.Armv8mCore?
    case RiscvState(_) => false
    case MipsCoreState(_) => false
  }

  /**
   * The base addresses an ARM state needs are in the options: ARMv7-A and
   * ARMv8-A need a debug base, ARMv8-A a CTI base as well.
   */
  predicate BasesGiven(options: ArmCoreAccessOptions, s: SpecificCoreState)
  {
    (s.Armv7aState? || s.Armv8aState? ==> options.debugBase.Some?)
    && (s.Armv8aState? ==> options.ctiBase.Some?)
  }

  /** The outcome of a core constructor that may fail. */
  function Construct(constructed: Result<(), ProbeRsError>, core: Core): Outcome<Core>
  {
    if constructed.Err? then Failed(constructed.error) else Done(core)
  }

  /**
   * Attaches an ARM core. The memory access port is computed first, so a
   * core with RISC-V or MIPS options panics before the options are matched
   * and the mismatch arm of that match is never reached. `memoryInterface`
   * is what the probe answers when asked for the memory interface of that
   * port, and `constructed` what the core driver's constructor answers.
   */
  function AttachArm(c: CombinedCoreState, memoryInterface: Result<(), ProbeRsError>,
                     constructed: Result<(), ProbeRsError>): (r: Outcome<Core>)
    ensures !c.coreState.coreAccessOptions.ArmOptions? ==> r == Panicked(NOT_ARM_PANIC)
    ensures c.coreState.coreAccessOptions.ArmOptions? && memoryInterface.Err? ==>
              r == Failed(memoryInterface.error)
    ensures c.coreState.coreAccessOptions.ArmOptions? && memoryInterface.Ok? && !IsArmState(c.specificState) ==>
              r == Failed(UnableToOpenProbe(MISMATCH))
    ensures c.coreState.coreAccessOptions.ArmOptions? && memoryInterface.Ok?
            && (c.specificState.Armv7aState? || c.specificState.Armv8aState?)
            && c.coreState.coreAccessOptions.options.debugBase.None? ==>
              r == Panicked(NO_DEBUG_BASE_PANIC)
    ensures c.coreState.coreAccessOptions.ArmOptions? && memoryInterface.Ok? && c.specificState.Armv8aState?
            && c.coreState.coreAccessOptions.options.debugBase.Some?
            && c.coreState.coreAccessOptions.options.ctiBase.None? ==>
              r == Panicked(NO_CTI_BASE_PANIC)
    ensures c.coreState.coreAccessOptions.ArmOptions? && memoryInterface.Ok? && IsArmState(c.specificState)
            && BasesGiven(c.coreState.coreAccessOptions.options, c.specificState) && constructed.Err? ==>
              r == Failed(constructed.error)
    ensures r.Done? <==> c.coreState.coreAccessOptions.ArmOptions? && memoryInterface.Ok? && constructed.Ok?
                         && IsArmState(c.specificState)
                         && BasesGiven(c.coreState.coreAccessOptions.options, c.specificState)
    ensures r.Done? ==> r.value.id == c.id && ArmKindFits(r.value.kind, c.specificState)
    ensures r.Done? && r.value.kind.Armv7aCore? ==>
              r.value.kind.debugBase == c.coreState.coreAccessOptions.options.debugBase.value
    ensures r.Done? && r.value.kind.Armv8aCore? ==>
              r.value.kind.debugBase == c.coreState.coreAccessOptions.options.debugBase.value
              && r.value.kind.ctiBase == c.coreState.coreAccessOptions.options.ctiBase.value
  {
    match MemoryApOf(c.coreState)
    case Panicked(m) => Panicked(m)
    case Failed(e) => Failed(e)
    case Done(_) =>
      if memoryInterface.Err? then Failed(memoryInterface.error)
      else
        match c.coreState.coreAccessOptions
        case RiscvOptions => Failed(UnableToOpenProbe(MISMATCH))
        case MipsOptions => Failed(UnableToOpenProbe(MISMATCH))
        case ArmOptions(options, _) =>
          match c.specificState
          case Armv6mState(_) => Construct(constructed, Core(Armv6mCore, c.id))
          case Armv7aState(_) =>
            if options.debugBase.None? then Panicked(NO_DEBUG_BASE_PANIC)
            else Construct(constructed, Core(Armv7aCore(options.debugBase.value), c.id))
          case Armv7mState(_) => Construct(constructed, Core(Armv7mCore, c.id))
          case Armv7emState(_) => Construct(constructed, Core(Armv7mCore, c.id))
          case Armv8aState(_) =>
            if options.debugBase.None? then Panicked(NO_DEBUG_BASE_PANIC)
            else if options.ctiBase.None? then Panicked(NO_CTI_BASE_PANIC)
            else Construct(constructed, Core(Armv8aCore(options.debugBase.value, options.ctiBase.value), c.id))
          case Armv8mState(_) => Construct(constructed, Core(Armv8mCore, c.id))
          case _ => Failed(UnableToOpenProbe(MISMATCH))
  }

  /**
   * Whatever the probe and the constructor answer, attaching through the ARM
   * interface never fails with the mismatch error for a core with RISC-V or
   * MIPS options: it panics first.
   */
  lemma AttachArmMismatchNeedsArmOptions(c: CombinedCoreState, memoryInterface: Result<(), ProbeRsError>,
                                         constructed: Result<(), ProbeRsError>)
    requires constructed != Err(UnableToOpenProbe(MISMATCH))
    requires memoryInterface != Err(UnableToOpenProbe(MISMATCH))
    ensures AttachArm(c, memoryInterface, constructed) == Failed(UnableToOpenProbe(MISMATCH)) <==>
              c.coreState.coreAccessOptions.ArmOptions? && memoryInterface.Ok? && !IsArmState(c.specificState)
  {
  }

  /** Attaches a RISC-V core: only a RISC-V state is accepted. */
  function AttachRiscv(c: CombinedCoreState): (r: Result<Core, ProbeRsError>)
    ensures r.Ok? <==> c.specificState.RiscvState?
    ensures r.Ok? ==> r.value == Core(Riscv32Core, c.id)
    ensures r.Err? ==> r.error == UnableToOpenProbe(MISMATCH)
  {
    match c.specificState
    case RiscvState(_) => Ok(Core(Riscv32Core, c.id))
    case _ => Err(UnableToOpenProbe(MISMATCH))
  }

  /** Attaches a MIPS core: only a MIPS state is accepted. */
  function AttachMips(c: CombinedCoreState): (r: Result<Core, ProbeRsError>)
    ensures r.Ok? <==> c.specificState.MipsCoreState?
    ensures r.Ok? ==> r.value == Core(Mips32Core, c.id)
    ensures r.Err? ==> r.error == UnableToOpenProbe(MISMATCH)
  {
    match c.specificState
    case MipsCoreState(_) => Ok(Core(Mips32Core, c.id))
    case _ => Err(UnableToOpenProbe(MISMATCH))
  }

  /**
   * At most one of the three attach paths can succeed for a core, and a
   * core built from a type is attached by the path of its architecture.
   */
  lemma AttachExclusive(c: CombinedCoreState, memoryInterface: Result<(), ProbeRsError>,
                        constructed: Result<(), ProbeRsError>)
    ensures AttachArm(c, memoryInterface, constructed).Done? ==> AttachRiscv(c).Err? && AttachMips(c).Err?
    ensures !(AttachRiscv(c).Ok? && AttachMips(c).Ok?)
    ensures c.specificState == FromCoreType(CoreType.Mips) ==> AttachMips(c).Ok?
    ensures c.specificState == FromCoreType(Riscv) ==> AttachRiscv(c).Ok?
  {
  }

  /**
   * Starts debugging an ARM core: a core with other options panics, an ARM
   * core passes on what its debug sequence answers.
   */
  function EnableArmDebug(c: CombinedCoreState, debugCoreStart: Result<(), ProbeRsError>): (r: Outcome<()>)
    ensures r.Panicked? <==> !c.coreState.coreAccessOptions.ArmOptions?
    ensures r.Done? <==> c.coreState.coreAccessOptions.ArmOptions? && debugCoreStart.Ok?
    ensures r.Failed? ==> r.error == debugCoreStart.error
  {
    match c.coreState.coreAccessOptions
    case ArmOptions(_, _) => if debugCoreStart.Err? then Failed(debugCoreStart.error) else Done(())
    case _ => Panicked(NOT_ARM_PANIC)
  }

  /**
   * Arms the reset catch of an ARM core: a core with other options panics;
   * an ARM core first obtains the memory interface of its port, then runs
   * the reset-catch sequence, and stops at the first failure.
   */
  function ArmResetCatchSet(c: CombinedCoreState, memoryInterface: Result<(), ProbeRsError>,
                            resetCatch: Result<(), ProbeRsError>): (r: Outcome<()>)
    ensures r.Panicked? <==> !c.coreState.coreAccessOptions.ArmOptions?
    ensures r.Done? <==> c.coreState.coreAccessOptions.ArmOptions? && memoryInterface.Ok? && resetCatch.Ok?
    ensures r.Failed? ==> r.error == if memoryInterface.Err? then memoryInterface.error else resetCatch.error
  {
    match c.coreState.coreAccessOptions
    case ArmOptions(_, _) =>
      if memoryInterface.Err? then Failed(memoryInterface.error)
      else if resetCatch.Err? then Failed(resetCatch.error)
      else Done(())
    case _ => Panicked(NOT_ARM_PANIC)
  }
}

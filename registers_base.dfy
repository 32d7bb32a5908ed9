/**
 * The MIPS32 general-purpose register set: r0..r31, the multiply/divide
 * result registers lo and hi, and the program counter, with the named
 * stack, frame, return-address and status descriptions.
 */
module RegistersBase {
  import opened RegisterTypes

  const PC: CoreRegister := CoreRegister([ProgramCounter], 37, UnsignedInteger(32), Clear)
  const SP: CoreRegister := CoreRegister([Core("r29"), StackPointer], 29, UnsignedInteger(32), Clear)
  const FP: CoreRegister := CoreRegister([Core("r30"), FramePointer], 30, UnsignedInteger(32), Clear)
  const RA: CoreRegister := CoreRegister([Core("r31"), ReturnAddress], 31, UnsignedInteger(32), Clear)
  /** Described, but not listed in the register set. */
  const STATUS: CoreRegister := CoreRegister([ProcessorStatus], 32, UnsignedInteger(32), Clear)

  /** Entry `i` of the register set. */
  function RegisterSetEntry(i: nat): CoreRegister
    requires i < 35
  {
    if i < 18 then LowEntry(i) else HighEntry(i - 18)
  }

  function LowEntry(i: nat): CoreRegister
    requires i < 18
  {
    match i
      case 0 => CoreRegister([Core("r0"), Other("zero")], 0, UnsignedInteger(32), Clear)
      case 1 => CoreRegister([Core("r1"), Other("at")], 1, UnsignedInteger(32), Clear)
      case 2 => CoreRegister([Core("r2"), Return("v0")], 2, UnsignedInteger(32), Clear)
      case 3 => CoreRegister([Core("r3"), Return("v0")], 3, UnsignedInteger(32), Clear)
      case 4 => CoreRegister([Core("r4"), Argument("a0")], 4, UnsignedInteger(32), Clear)
      case 5 => CoreRegister([Core("r5"), Argument("a1")], 5, UnsignedInteger(32), Clear)
      case 6 => CoreRegister([Core("r6"), Argument("a2")], 6, UnsignedInteger(32), Clear)
      case 7 => CoreRegister([Core("r7"), Argument("a3")], 7, UnsignedInteger(32), Clear)
      case 8 => CoreRegister([Core("r8"), Other("t0")], 8, UnsignedInteger(32), Clear)
      case 9 => CoreRegister([Core("r9"), Other("t1")], 9, UnsignedInteger(32), Clear)
      case 10 => CoreRegister([Core("r10"), Other("t2")], 10, UnsignedInteger(32), Clear)
      case 11 => CoreRegister([Core("r11"), Other("t3")], 11, UnsignedInteger(32), Clear)
      case 12 => CoreRegister([Core("r12"), Other("t4")], 12, UnsignedInteger(32), Clear)
      case 13 => CoreRegister([Core("r13"), Other("t5")], 13, UnsignedInteger(32), Clear)
      case 14 => CoreRegister([Core("r14"), Other("t6")], 14, UnsignedInteger(32), Clear)
      case 15 => CoreRegister([Core("r15"), Other("t7")], 15, UnsignedInteger(32), Clear)
      case 16 => CoreRegister([Core("r16"), Other("s0")], 16, UnsignedInteger(32), Clear)
      case _ => CoreRegister([Core("r17"), Other("s1")], 17, UnsignedInteger(32), Clear)
  }

  function HighEntry(i: nat): CoreRegister
    requires i < 17
  {
    match i
      case 0 => CoreRegister([Core("r18"), Other("s2")], 18, UnsignedInteger(32), Clear)
      case 1 => CoreRegister([Core("r19"), Other("s3")], 19, UnsignedInteger(32), Clear)
      case 2 => CoreRegister([Core("r20"), Other("s4")], 20, UnsignedInteger(32), Clear)
      case 3 => CoreRegister([Core("r21"), Other("s5")], 21, UnsignedInteger(32), Clear)
      case 4 => CoreRegister([Core("r22"), Other("s6")], 22, UnsignedInteger(32), Clear)
      case 5 => CoreRegister([Core("r23"), Other("s7")], 23, UnsignedInteger(32), Clear)
      case 6 => CoreRegister([Core("r24"), Other("t8")], 24, UnsignedInteger(32), Clear)
      case 7 => CoreRegister([Core("r25"), Other("t9")], 25, UnsignedInteger(32), Clear)
      case 8 => CoreRegister([Core("r26"), Other("k0")], 26, UnsignedInteger(32), Clear)
      case 9 => CoreRegister([Core("r27"), Other("k1")], 27, UnsignedInteger(32), Clear)
      case 10 => CoreRegister([Core("r28"), Other("gp")], 28, UnsignedInteger(32), Clear)
      case 11 => SP
      case 12 => FP
      case 13 => RA
      case 14 => CoreRegister([Other("lo")], 33, UnsignedInteger(32), Clear)
      case 15 => CoreRegister([Other("hi")], 34, UnsignedInteger(32), Clear)
      case _ => PC
  }

  /** The first `n` entries of the table (r0..r28, then SP, FP, RA, lo, hi and PC), in order. */
  function BuildRegisterSet(n: nat): (t: seq<CoreRegister>)
    requires n <= 35
    ensures |t| == n
    ensures forall i :: 0 <= i < n ==> t[i] == RegisterSetEntry(i)
  {
    if n == 0 then [] else BuildRegisterSet(n - 1) + [RegisterSetEntry(n - 1)]
  }

  /** The number of entries in the table. */
  const REGISTERSET_COUNT: nat := 35

  const MIPS32_REGISTERS_SET: seq<CoreRegister> := BuildRegisterSet(REGISTERSET_COUNT)

  /** Position `i` of the table holds entry `i`. */
  lemma RegisterSetIndexing()
    ensures |MIPS32_REGISTERS_SET| == 35
    ensures forall i :: 0 <= i < 35 ==> MIPS32_REGISTERS_SET[i] == RegisterSetEntry(i)
  {
  }

  /** The spelling "rN" of general-purpose register N. */
  function GprName(n: nat): string
    requires n < 32
  {
    ['r'] + Decimal(n)
  }

  /** The special roles of one description: each one belongs to its own id, and none is the status register. */
  predicate SpecialRolesMatchIds(r: CoreRegister)
  {
    (ProgramCounter in r.roles <==> r.id == 37)
    && (StackPointer in r.roles <==> r.id == 29)
    && (FramePointer in r.roles <==> r.id == 30)
    && (ReturnAddress in r.roles <==> r.id == 31)
    && ProcessorStatus !in r.roles
    && r.id != STATUS.id
  }

  /** Every return-value role of a description is named "v0". */
  predicate ReturnRolesAreV0(r: CoreRegister)
  {
    forall k :: 0 <= k < |r.roles| && r.roles[k].Return? ==> r.roles[k] == Return("v0")
  }

  /** The id the layout gives entry `i`: its index up to RA, then lo 33, hi 34 and PC 37. */
  function LayoutId(i: nat): nat
  {
    if i < 32 then i else if i < 34 then i + 1 else 37
  }

  lemma Ids0()
    ensures forall i :: 0 <= i < 7 ==> RegisterSetEntry(i).id as nat == LayoutId(i)
  {
    forall i | 0 <= i < 7 ensures RegisterSetEntry(i).id as nat == LayoutId(i) {}
  }

  lemma Ids1()
    ensures forall i :: 7 <= i < 14 ==> RegisterSetEntry(i).id as nat == LayoutId(i)
  {
    forall i | 7 <= i < 14 ensures RegisterSetEntry(i).id as nat == LayoutId(i) {}
  }

  lemma Ids2()
    ensures forall i :: 14 <= i < 21 ==> RegisterSetEntry(i).id as nat == LayoutId(i)
  {
    forall i | 14 <= i < 21 ensures RegisterSetEntry(i).id as nat == LayoutId(i) {}
  }

  lemma Ids3()
    ensures forall i :: 21 <= i < 28 ==> RegisterSetEntry(i).id as nat == LayoutId(i)
  {
    forall i | 21 <= i < 28 ensures RegisterSetEntry(i).id as nat == LayoutId(i) {}
  }

  lemma Ids4()
    ensures forall i :: 28 <= i < 35 ==> RegisterSetEntry(i).id as nat == LayoutId(i)
  {
    forall i | 28 <= i < 35 ensures RegisterSetEntry(i).id as nat == LayoutId(i) {}
  }

  lemma GprNames0()
    ensures forall i :: 0 <= i < 7 ==> (i < 29 ==> RegisterSetEntry(i).roles[0] == Core(GprName(i)))
  {
    forall i | 0 <= i < 7 ensures (i < 29 ==> RegisterSetEntry(i).roles[0] == Core(GprName(i))) {}
  }

  lemma GprNames1()
    ensures forall i :: 7 <= i < 14 ==> (i < 29 ==> RegisterSetEntry(i).roles[0] == Core(GprName(i)))
  {
    forall i | 7 <= i < 14 ensures (i < 29 ==> RegisterSetEntry(i).roles[0] == Core(GprName(i))) {}
  }

  lemma GprNames2()
    ensures forall i :: 14 <= i < 21 ==> (i < 29 ==> RegisterSetEntry(i).roles[0] == Core(GprName(i)))
  {
    forall i | 14 <= i < 21 ensures (i < 29 ==> RegisterSetEntry(i).roles[0] == Core(GprName(i))) {}
  }

  lemma GprNames3()
    ensures forall i :: 21 <= i < 28 ==> (i < 29 ==> RegisterSetEntry(i).roles[0] == Core(GprName(i)))
  {
    forall i | 21 <= i < 28 ensures (i < 29 ==> RegisterSetEntry(i).roles[0] == Core(GprName(i))) {}
  }

  lemma GprNames4()
    ensures forall i :: 28 <= i < 35 ==> (i < 29 ==> RegisterSetEntry(i).roles[0] == Core(GprName(i)))
  {
    forall i | 28 <= i < 35 ensures (i < 29 ==> RegisterSetEntry(i).roles[0] == Core(GprName(i))) {}
  }

  lemma Special0()
    ensures forall i :: 0 <= i < 7 ==> SpecialRolesMatchIds(RegisterSetEntry(i))
  {
    forall i | 0 <= i < 7 ensures SpecialRolesMatchIds(RegisterSetEntry(i)) {}
  }

  lemma Special1()
    ensures forall i :: 7 <= i < 14 ==> SpecialRolesMatchIds(RegisterSetEntry(i))
  {
    forall i | 7 <= i < 14 ensures SpecialRolesMatchIds(RegisterSetEntry(i)) {}
  }

  lemma Special2()
    ensures forall i :: 14 <= i < 21 ==> SpecialRolesMatchIds(RegisterSetEntry(i))
  {
    forall i | 14 <= i < 21 ensures SpecialRolesMatchIds(RegisterSetEntry(i)) {}
  }

  lemma Special3()
    ensures forall i :: 21 <= i < 28 ==> SpecialRolesMatchIds(RegisterSetEntry(i))
  {
    forall i | 21 <= i < 28 ensures SpecialRolesMatchIds(RegisterSetEntry(i)) {}
  }

  lemma Special4()
    ensures forall i :: 28 <= i < 35 ==> SpecialRolesMatchIds(RegisterSetEntry(i))
  {
    forall i | 28 <= i < 35 ensures SpecialRolesMatchIds(RegisterSetEntry(i)) {}
  }

  lemma ReturnRolesLow()
    ensures forall i :: 0 <= i < 18 ==>
      (Return("v0") in RegisterSetEntry(i).roles <==> i == 2 || i == 3) && ReturnRolesAreV0(RegisterSetEntry(i))
  {
    forall i | 0 <= i < 18
      ensures (Return("v0") in RegisterSetEntry(i).roles <==> i == 2 || i == 3) && ReturnRolesAreV0(RegisterSetEntry(i))
    {
    }
  }

  lemma ReturnRolesHigh()
    ensures forall i :: 18 <= i < 35 ==>
      (Return("v0") in RegisterSetEntry(i).roles <==> i == 2 || i == 3) && ReturnRolesAreV0(RegisterSetEntry(i))
  {
    forall i | 18 <= i < 35
      ensures (Return("v0") in RegisterSetEntry(i).roles <==> i == 2 || i == 3) && ReturnRolesAreV0(RegisterSetEntry(i))
    {
    }
  }

  /** The shape of the set: r0..r28 carry their own number as id, then come SP, FP, RA, lo 33, hi 34 and PC. */
  lemma RegisterSetLayout()
    ensures |MIPS32_REGISTERS_SET| == 35
    ensures forall i :: 0 <= i < 35 ==> MIPS32_REGISTERS_SET[i].id as nat == LayoutId(i)
    ensures forall n :: 0 <= n < 29 ==> MIPS32_REGISTERS_SET[n].roles[0] == Core(GprName(n))
    ensures MIPS32_REGISTERS_SET[29] == SP && MIPS32_REGISTERS_SET[30] == FP && MIPS32_REGISTERS_SET[31] == RA
    ensures MIPS32_REGISTERS_SET[32].roles == [Other("lo")] && MIPS32_REGISTERS_SET[33].roles == [Other("hi")]
    ensures MIPS32_REGISTERS_SET[34] == PC
  {
    RegisterSetIndexing();
    Ids0();
    Ids1();
    Ids2();
    Ids3();
    Ids4();
    GprNames0();
    GprNames1();
    GprNames2();
    GprNames3();
    GprNames4();
  }

  /** Ids grow from entry to entry, so no id is used twice. */
  lemma RegisterSetIdsUnique()
    ensures forall i, j :: 0 <= i < j < |MIPS32_REGISTERS_SET| ==>
      MIPS32_REGISTERS_SET[i].id as nat < MIPS32_REGISTERS_SET[j].id as nat
  {
    RegisterSetIndexing();
    RegisterSetLayout();
    assert AdjacentIncreasing(IdsOf(MIPS32_REGISTERS_SET));
    IncreasingIdsAreUnique(MIPS32_REGISTERS_SET);
  }

  /**
   * Each special role is held by exactly one entry of the set, the one with
   * the expected id; no entry is the status register.
   */
  lemma SpecialRolesInRegisterSet()
    ensures forall i :: 0 <= i < |MIPS32_REGISTERS_SET| ==> SpecialRolesMatchIds(MIPS32_REGISTERS_SET[i])
    ensures !SpecialRolesMatchIds(STATUS)
  {
    RegisterSetIndexing();
    Special0();
    Special1();
    Special2();
    Special3();
    Special4();
  }

  /** Every register of the set is a 32-bit integer that the unwinder clears. */
  lemma RegisterSetAllClearedWords()
    ensures forall i :: 0 <= i < |MIPS32_REGISTERS_SET| ==> IsClearedWord(MIPS32_REGISTERS_SET[i])
  {
    RegisterSetIndexing();
    forall i | 0 <= i < 18 ensures IsClearedWord(RegisterSetEntry(i)) {}
    forall i | 18 <= i < 35 ensures IsClearedWord(RegisterSetEntry(i)) {}
  }

  /** r2 and r3 are the only return-value registers, and both are labelled "v0". */
  lemma ReturnRolesBothV0()
    ensures forall i :: 0 <= i < |MIPS32_REGISTERS_SET| ==>
      (Return("v0") in MIPS32_REGISTERS_SET[i].roles <==> i == 2 || i == 3)
      && ReturnRolesAreV0(MIPS32_REGISTERS_SET[i])
  {
    RegisterSetIndexing();
    ReturnRolesLow();
    ReturnRolesHigh();
  }
}

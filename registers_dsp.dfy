/**
 * The DSP-extension accumulator registers hi1..lo3 and the DSP control
 * register, with debugger ids 72..78.
 */
module RegistersDsp {
  import opened RegisterTypes

  /** Entry `i` of the DSP table. */
  function DspEntry(i: nat): CoreRegister
    requires i < 7
  {
    match i
      case 0 => CoreRegister([Other("hi1")], 72, UnsignedInteger(32), Clear)
      case 1 => CoreRegister([Other("lo1")], 73, UnsignedInteger(32), Clear)
      case 2 => CoreRegister([Other("hi2")], 74, UnsignedInteger(32), Clear)
      case 3 => CoreRegister([Other("lo2")], 75, UnsignedInteger(32), Clear)
      case 4 => CoreRegister([Other("hi3")], 76, UnsignedInteger(32), Clear)
      case 5 => CoreRegister([Other("lo3")], 77, UnsignedInteger(32), Clear)
      case _ => CoreRegister([Other("dspctl")], 78, UnsignedInteger(32), Clear)
  }

  /** The first `n` entries of the table, in order. */
  function BuildDsp(n: nat): (t: seq<CoreRegister>)
    requires n <= 7
    ensures |t| == n
    ensures forall i :: 0 <= i < n ==> t[i] == DspEntry(i)
  {
    if n == 0 then [] else BuildDsp(n - 1) + [DspEntry(n - 1)]
  }

  /** The number of entries in the table. */
  const DSP_COUNT: nat := 7

  const MIPS32_DSP_REGISTERS: seq<CoreRegister> := BuildDsp(DSP_COUNT)

  /** Position `i` of the table holds entry `i`. */
  lemma DspIndexing()
    ensures |MIPS32_DSP_REGISTERS| == 7
    ensures forall i :: 0 <= i < 7 ==> MIPS32_DSP_REGISTERS[i] == DspEntry(i)
  {
  }

  /** The role names of the DSP registers, in table order. */
  const DSP_NAMES: seq<string> := ["hi1", "lo1", "hi2", "lo2", "hi3", "lo3", "dspctl"]

  /**
   * Seven entries with consecutive ids 72..78, each with the single role
   * naming it, in the order hi1, lo1, hi2, lo2, hi3, lo3, dspctl.
   */
  lemma DspTableLayout()
    ensures |MIPS32_DSP_REGISTERS| == 7
    ensures forall i :: 0 <= i < 7 ==> MIPS32_DSP_REGISTERS[i].id as nat == 72 + i
    ensures forall i :: 0 <= i < 7 ==> MIPS32_DSP_REGISTERS[i].roles == [Other(DSP_NAMES[i])]
  {
    DspIndexing();
    forall i | 0 <= i < 7 ensures MIPS32_DSP_REGISTERS[i].roles == [Other(DSP_NAMES[i])] {}
  }

  /** Every DSP register is a 32-bit integer that the unwinder clears. */
  lemma DspTableAllClearedWords()
    ensures forall i :: 0 <= i < |MIPS32_DSP_REGISTERS| ==> IsClearedWord(MIPS32_DSP_REGISTERS[i])
  {
    DspIndexing();
  }

  /** No DSP id carries the CP0 marker bit 15. */
  lemma DspIdsOutsideCp0Space()
    ensures forall i :: 0 <= i < |MIPS32_DSP_REGISTERS| ==> MIPS32_DSP_REGISTERS[i].id & 0x8000 == 0
  {
    DspIndexing();
  }
}

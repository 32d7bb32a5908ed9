/**
 * The register description records shared by every MIPS register catalog:
 * a register's roles, its debugger-visible id, its data type and the rule
 * an unwinder applies to it.
 */
module RegisterTypes {

  /** What a register is used for; the named roles carry the name a debugger shows. */
  datatype RegisterRole =
    | Core(name: string)
    | Argument(name: string)
    | Return(name: string)
    | Other(name: string)
    | ProgramCounter
    | FramePointer
    | StackPointer
    | ReturnAddress
    | ProcessorStatus
    | FloatingPoint
    | FloatingPointStatus

  /** The value type of a register and its width in bits. */
  datatype RegisterDataType = UnsignedInteger(bits: nat) | FloatingPointData(bits: nat)

  /** How a stack unwinder treats the register in a caller's frame. */
  datatype UnwindRule = Clear | Preserve | SpecialRule

  /** A register description; `id` is the 16-bit register id of the debugger. */
  datatype CoreRegister = CoreRegister(
    roles: seq<RegisterRole>,
    id: bv16,
    dataType: RegisterDataType,
    unwindRule: UnwindRule)

  /** A plain 32-bit integer register that the unwinder clears. */
  predicate IsClearedWord(r: CoreRegister)
  {
    r.dataType == UnsignedInteger(32) && r.unwindRule == Clear
  }

  /** The ids of a table, as numbers. */
  function IdsOf(t: seq<CoreRegister>): (ids: seq<nat>)
    ensures |ids| == |t|
    ensures forall i :: 0 <= i < |t| ==> ids[i] == t[i].id as nat
  {
    seq(|t|, i requires 0 <= i < |t| => t[i].id as nat)
  }

  /** Every element is smaller than its successor. */
  predicate AdjacentIncreasing(s: seq<nat>)
  {
    forall i :: 0 <= i < |s| - 1 ==> s[i] < s[i + 1]
  }

  /** Every element is smaller than every later one. */
  predicate StrictlyIncreasing(s: seq<nat>)
  {
    forall i, j :: 0 <= i < j < |s| ==> s[i] < s[j]
  }

  /** Comparing neighbours is enough to order a whole sequence. */
  lemma {:induction false} AdjacentIncreasingIsIncreasing(s: seq<nat>)
    requires AdjacentIncreasing(s)
    ensures StrictlyIncreasing(s)
  {
    if |s| > 1 {
      var t := s[1..];
      assert AdjacentIncreasing(t) by {
        forall i | 0 <= i < |t| - 1 ensures t[i] < t[i + 1] {
          assert t[i] == s[i + 1] && t[i + 1] == s[i + 2];
        }
      }
      AdjacentIncreasingIsIncreasing(t);
      forall i, j | 0 <= i < j < |s| ensures s[i] < s[j] {
        if i > 0 {
          assert s[i] == t[i - 1] && s[j] == t[j - 1];
        } else if j > 1 {
          assert s[1] == t[0] && s[j] == t[j - 1];
        }
      }
    }
  }

  /** A table whose ids increase from entry to entry has no two entries with the same id. */
  lemma IncreasingIdsAreUnique(t: seq<CoreRegister>)
    requires AdjacentIncreasing(IdsOf(t))
    ensures forall i, j :: 0 <= i < j < |t| ==> t[i].id as nat < t[j].id as nat
  {
    AdjacentIncreasingIsIncreasing(IdsOf(t));
  }

  /** The ASCII digit for `d`. */
  function DigitChar(d: nat): char
    requires d < 10
  {
    (d + 48) as char
  }

  /** The decimal spelling of a number below 100, without leading zeros. */
  function Decimal(n: nat): (s: string)
    requires n < 100
    ensures 1 <= |s| <= 2
    ensures forall k :: 0 <= k < |s| ==> '0' <= s[k] <= '9'
  {
    if n < 10 then [DigitChar(n)] else [DigitChar(n / 10), DigitChar(n % 10)]
  }

  /** Reading a spelling back gives the number it spells. */
  function DecimalValue(s: string): nat
    requires 1 <= |s| <= 2
    requires forall k :: 0 <= k < |s| ==> '0' <= s[k] <= '9'
  {
    if |s| == 1 then s[0] as nat - 48 else (s[0] as nat - 48) * 10 + (s[1] as nat - 48)
  }

  /** Decimal spellings read back to their numbers, so no two numbers share one. */
  lemma DecimalRoundTrip(n: nat)
    requires n < 100
    ensures DecimalValue(Decimal(n)) == n
  {
  }
}

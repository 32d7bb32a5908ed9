/*
 * The MIPS communication interface: the object the debug session talks to.
 * It owns the EJTAG session and remembers the EJTAG version it found; its
 * memory interface so far checks addresses and builds 64-bit reads out of
 * two 32-bit reads, and answers the capability questions with constants.
 *
 * The 32-bit read stops, after its address check, at an unimplemented body;
 * the model keeps that as a panic outcome. The 64-bit composition is stated
 * for any 32-bit reader, and then for the one the interface has.
 */
module CommunicationInterface {
  import opened Errors
  import opened Ejtag

  /** The message of an unimplemented body. */
  const TODO_PANIC: string := "not yet implemented"

  /** The message of a 64-bit addition that overflows. */
  const ADD_OVERFLOW_PANIC: string := "attempt to add with overflow"

  const TWO_32: int := 0x1_0000_0000
  const TWO_64: int := 0x1_0000_0000_0000_0000

  /** What the interface remembers about the connection. */
  datatype MipsCommunicationInterfaceState = MipsCommunicationInterfaceState(ejtagVersion: EjtagVersion)

  /**
   * The crate's address check for 32-bit targets: an address that fits in 32
   * bits is passed on as a 32-bit value, any other is refused as out of range.
   */
  function Valid32BitAddress(address: u64): (r: Result<u32, ProbeRsError>)
    ensures r.Ok? <==> address as int < TWO_32
    ensures r.Ok? ==> r.value as int == address as int
    ensures r.Err? ==> r.error == AddressOutOfRange(address)
  {
    if address as int < TWO_32 then Ok(address as int as u32) else Err(AddressOutOfRange(address))
  }

  /** What a 32-bit read does: the address check, then the unimplemented body. */
  function ReadWord32Outcome(address: u64): (r: Outcome<u32>)
    ensures !r.Done?
    ensures r.Failed? <==> address as int >= TWO_32
    ensures r.Failed? ==> r.error == AddressOutOfRange(address)
    ensures r.Panicked? ==> r.message == TODO_PANIC
  {
    match Valid32BitAddress(address)
    case Err(e) => Failed(e)
    case Ok(_) => Panicked(TODO_PANIC)
  }

  /** `hi << 32 | lo` for two 32-bit halves widened to 64 bits. */
  function Compose64(lo: u32, hi: u32): u64
  {
    (hi as int * TWO_32 + lo as int) as u64
  }

  /** The low half of a composed word is `lo`, its high half `hi`, and nothing is lost. */
  lemma Compose64Halves(lo: u32, hi: u32)
    ensures Compose64(lo, hi) as int % TWO_32 == lo as int
    ensures Compose64(lo, hi) as int / TWO_32 == hi as int
  {
    var w := hi as int * TWO_32 + lo as int;
    assert w == Compose64(lo, hi) as int;
    DivModUnique(w, hi as int, lo as int);
  }

  /** The quotient and remainder of `q * 2^32 + r` with `r < 2^32` are `q` and `r`. */
  lemma DivModUnique(w: int, q: int, r: int)
    requires 0 <= r < TWO_32 && 0 <= q && w == q * TWO_32 + r
    ensures w / TWO_32 == q && w % TWO_32 == r
  {
  }

  /** Every 64-bit word is the composition of its two halves. */
  lemma Compose64Split(w: u64)
    ensures Compose64((w as int % TWO_32) as u32, (w as int / TWO_32) as u32) == w
  {
  }

  /**
   * A 64-bit read built from a 32-bit reader: the low word at `address`,
   * then the high word at `address + 4`, each failure or panic passed on as
   * it is and the high read never reached after a low one that did not
   * complete.
   */
  function ReadWord64Via(read32: u64 -> Outcome<u32>, address: u64): (r: Outcome<u64>)
    ensures read32(address).Failed? ==> r == Failed(read32(address).error)
    ensures read32(address).Panicked? ==> r == Panicked(read32(address).message)
    ensures read32(address).Done? && address as int + 4 >= TWO_64 ==> r == Panicked(ADD_OVERFLOW_PANIC)
    ensures read32(address).Done? && address as int + 4 < TWO_64 && read32((address as int + 4) as u64).Failed? ==>
              r == Failed(read32((address as int + 4) as u64).error)
    ensures read32(address).Done? && address as int + 4 < TWO_64 && read32((address as int + 4) as u64).Panicked? ==>
              r == Panicked(read32((address as int + 4) as u64).message)
    ensures r.Done? <==> read32(address).Done? && address as int + 4 < TWO_64
                         && read32((address as int + 4) as u64).Done?
    ensures r.Done? ==> r.value as int % TWO_32 == read32(address).value as int
                        && r.value as int / TWO_32 == read32((address as int + 4) as u64).value as int
  {
    match read32(address)
    case Failed(e) => Failed(e)
    case Panicked(m) => Panicked(m)
    case Done(lo) =>
      if address as int + 4 >= TWO_64 then Panicked(ADD_OVERFLOW_PANIC)
      else
        match read32((address as int + 4) as u64)
        case Failed(e) => Failed(e)
        case Panicked(m) => Panicked(m)
        case Done(hi) =>
          Compose64Halves(lo, hi);
          Done(Compose64(lo, hi))
  }

  /**
   * With the interface's own 32-bit read, a 64-bit read never completes: an
   * address beyond 32 bits is refused by the low read's address check, and
   * every other address reaches the unimplemented body of the low read.
   */
  lemma ReadWord64AsWritten(address: u64)
    ensures ReadWord64Via(ReadWord32Outcome, address)
      == if address as int >= TWO_32 then Failed(AddressOutOfRange(address)) else Panicked(TODO_PANIC)
  {
  }

  /** How creating the interface ends. */
  datatype Creation =
    | Created(iface: MipsCommunicationInterface)
    | NotCreated(probe: JtagProbe, err: MipsError)
    | CreatePanicked(message: string)

  /** The interface over one EJTAG session. */
  class MipsCommunicationInterface {
    const ejtag: EjtagSession
    var state: MipsCommunicationInterfaceState

    constructor Init(ejtag: EjtagSession, state: MipsCommunicationInterfaceState)
      ensures this.ejtag == ejtag && this.state == state
    {
      this.ejtag := ejtag;
      this.state := state;
    }

    /**
     * Connects the EJTAG session over `probe` and keeps its version; when the
     * session cannot be opened, the probe and the failure are handed back
     * unchanged, and a panic of the connect sequence is a panic here.
     */
    static method New(probe: JtagProbe) returns (r: Creation)
      modifies probe
      ensures ReadsIssued(ConnectPlanOf(probe, |old(probe.log)|)) <= 3
      ensures probe.log == old(probe.log) + ConnectCalls(ConnectPlanOf(probe, |old(probe.log)|))
      ensures r.Created? <==> ConnectPlanOf(probe, |old(probe.log)|).AllRead?
      ensures r.Created? ==> fresh(r.iface) && r.iface.ejtag.probe == probe
      ensures r.Created? ==> r.iface.ejtag.Holds(ConnectPlanOf(probe, |old(probe.log)|))
      ensures r.Created? ==> r.iface.state.ejtagVersion == r.iface.ejtag.ejtagVersion
      ensures r.NotCreated? <==> ConnectPlanOf(probe, |old(probe.log)|).ReadFailed?
      ensures r.NotCreated? ==>
        r.probe == probe && r.err == MipsError.Error(ConnectPlanOf(probe, |old(probe.log)|).err)
      ensures r.CreatePanicked? <==> ConnectPlanOf(probe, |old(probe.log)|).ShortReply?
    {
      var connection := EjtagSession.Connect(probe);
      if connection.Refused? {
        return NotCreated(connection.probe, connection.err);
      } else if connection.ConnectPanicked? {
        return CreatePanicked(connection.message);
      }
      var session := connection.session;
      var iface := new MipsCommunicationInterface.Init(session, MipsCommunicationInterfaceState(session.ejtagVersion));
      return Created(iface);
    }

    /** MIPS64 is not supported, so 64-bit accesses are never native. */
    method SupportsNative64BitAccess() returns (b: bool)
      ensures !b
    {
      return false;
    }

    /** Reads a 32-bit word: checks the address, then reaches the unimplemented body. */
    method ReadWord32(address: u64) returns (r: Outcome<u32>)
      ensures r == ReadWord32Outcome(address)
      ensures r.Failed? <==> address as int >= TWO_32
    {
      var checked := Valid32BitAddress(address);
      if checked.Err? {
        return Failed(checked.error);
      }
      return Panicked(TODO_PANIC);
    }

    /**
     * Reads a 64-bit word as two 32-bit reads, low word first, through this
     * interface's own 32-bit read.
     */
    method ReadWord64(address: u64) returns (r: Outcome<u64>)
      ensures r == ReadWord64Via(ReadWord32Outcome, address)
      ensures r.Failed? <==> address as int >= TWO_32
      ensures !r.Done?
    {
      r := ReadWord64Via(ReadWord32Outcome, address);
      ReadWord64AsWritten(address);
    }

    /** Byte transfers are supported. */
    method Supports8BitTransfers() returns (r: Result<bool, ProbeRsError>)
      ensures r == Ok(true)
    {
      return Ok(true);
    }

    /** Nothing is buffered, so flushing always succeeds. */
    method Flush() returns (r: Result<(), ProbeRsError>)
      ensures r == Ok(())
    {
      return Ok(());
    }
  }
}

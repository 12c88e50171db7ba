/**
 * The control state of the 65816 core: registers, status flags, program
 * address, cycle counter and the RES/RDY pins, with the reset sequence,
 * the register-width rules and the fetch step.
 */
module Cpu {
  import opened Binary
  import opened Addresses
  import opened Bus

  /**
   * The status bits this core consults: the emulation flag (E) and the
   * accumulator-width (M) and index-width (X) flags, set meaning 8 bits.
   */
  datatype ProcessorStatus = ProcessorStatus(emulationFlag: bool, accumulatorWidthFlag: bool, indexWidthFlag: bool)

  /** RES held true keeps the processor in reset; RDY is recorded for the opcodes. */
  datatype Pins = Pins(res: bool, rdy: bool)

  /** A snapshot of every field of the core that its operations read or write. */
  datatype CpuState = CpuState(
    status: ProcessorStatus,
    a: Word,
    x: Word,
    y: Word,
    d: Word,
    programAddress: Address,
    pins: Pins,
    totalCycles: int)

  /**
   * The opcode table: for the instruction byte fetched and the state of the
   * core, whether execution continues and the state the opcode leaves.
   */
  type OpCodeTable = (Byte, CpuState) -> (bool, CpuState)

  /**
   * The state `Cpu65816::reset` leaves: RES asserted (reset itself calls
   * setRESPin(true)), E, M and X set, X and Y cut to their low byte, D
   * cleared and the program address at the emulation-mode reset vector in
   * bank 0. The accumulator, the cycle counter and RDY are untouched.
   */
  function AfterReset(s: CpuState, resetVector: Word): (r: CpuState)
    ensures r.status == ProcessorStatus(true, true, true)
    ensures r.x < 0x100 && r.x == s.x % 0x100
    ensures r.y < 0x100 && r.y == s.y % 0x100
    ensures r.d == 0
    ensures r.programAddress == Address(0x00, resetVector)
    ensures r.pins == Pins(true, s.pins.rdy)
    ensures r.a == s.a && r.totalCycles == s.totalCycles
  {
    var held := s.(pins := s.pins.(res := true));
    held.(status := held.status.(emulationFlag := true)
                               .(accumulatorWidthFlag := true)
                               .(indexWidthFlag := true),
          x := LowByte(held.x),
          y := LowByte(held.y),
          d := 0,
          programAddress := Address(0x00, resetVector))
  }

  /**
   * The state `Cpu65816::setRESPin(value)` leaves: releasing RES while it is
   * held runs the reset sequence and then stores the pin; every other call
   * only stores the pin.
   */
  function AfterSetRESPin(s: CpuState, value: bool, resetVector: Word): (r: CpuState)
    ensures r.pins == Pins(value, s.pins.rdy)
    ensures !value && s.pins.res ==> r == AfterReset(s, resetVector).(pins := Pins(false, s.pins.rdy))
    ensures value || !s.pins.res ==> r == s.(pins := Pins(value, s.pins.rdy))
  {
    var t := if !value && s.pins.res then AfterReset(s, resetVector) else s;
    t.(pins := t.pins.(res := value))
  }

  /** Resetting a second time changes nothing more. */
  lemma ResetIsIdempotent(s: CpuState, resetVector: Word)
    ensures AfterReset(AfterReset(s, resetVector), resetVector) == AfterReset(s, resetVector)
  {
  }

  /**
   * Asserting RES and releasing it runs the reset sequence once and leaves
   * RES released; releasing it again changes nothing.
   */
  lemma HoldThenRelease(s: CpuState, resetVector: Word)
    ensures AfterSetRESPin(AfterSetRESPin(s, true, resetVector), false, resetVector)
            == AfterReset(s, resetVector).(pins := Pins(false, s.pins.rdy))
    ensures var released := AfterSetRESPin(AfterSetRESPin(s, true, resetVector), false, resetVector);
            AfterSetRESPin(released, false, resetVector) == released
  {
  }

  /**
   * A direct reset leaves RES asserted, so releasing the pin afterwards runs
   * the reset sequence a second time; by idempotence the registers end as
   * after a single reset.
   */
  lemma ResetThenRelease(s: CpuState, resetVector: Word)
    ensures AfterReset(s, resetVector).pins.res
    ensures AfterSetRESPin(AfterReset(s, resetVector), false, resetVector)
            == AfterReset(s, resetVector).(pins := Pins(false, s.pins.rdy))
  {
  }

  /**
   * The emulation-mode interrupt vector table. The core holds it by
   * reference and reads its `reset` entry each time the reset sequence runs,
   * so a change the host makes to the table is seen by the next reset.
   */
  class EmulationModeInterrupts {
    var reset: Word

    constructor (reset: Word)
      ensures this.reset == reset
    {
      this.reset := reset;
    }
  }

  class Cpu65816 {
    const bus: SystemBus
    const emulationInterrupts: EmulationModeInterrupts
    const opCodeTable: OpCodeTable

    var status: ProcessorStatus
    var a: Word
    var x: Word
    var y: Word
    var d: Word
    var programAddress: Address
    var pins: Pins
    var totalCycles: int
    /** How many times the reset sequence has run. */
    ghost var resets: nat

    function State(): CpuState
      reads this
    {
      CpuState(status, a, x, y, d, programAddress, pins, totalCycles)
    }

    /** Binds the core to its bus, its emulation-mode vector table and the opcode table. */
    constructor (bus: SystemBus, emulationInterrupts: EmulationModeInterrupts, opCodeTable: OpCodeTable)
      ensures this.bus == bus && this.emulationInterrupts == emulationInterrupts
      ensures this.opCodeTable == opCodeTable
      ensures resets == 0
    {
      this.bus := bus;
      this.emulationInterrupts := emulationInterrupts;
      this.opCodeTable := opCodeTable;
      resets := 0;
    }

    /** `Cpu65816::reset`. */
    method Reset()
      modifies this
      decreases 1
      ensures State() == AfterReset(old(State()), emulationInterrupts.reset)
      ensures resets == old(resets) + 1
      ensures AccumulatorIs8BitWide() && IndexIs8BitWide()
    {
      SetRESPin(true);
      status := status.(emulationFlag := true);
      status := status.(accumulatorWidthFlag := true);
      status := status.(indexWidthFlag := true);
      x := LowByte(x);
      y := LowByte(y);
      d := 0x0;
      programAddress := Address(0x00, emulationInterrupts.reset);
      resets := resets + 1;
    }

    /**
     * `Cpu65816::setRESPin`: releasing a held RES runs exactly one reset;
     * any other call runs none and only stores the pin.
     */
    method SetRESPin(value: bool)
      modifies this
      decreases if value then 0 else 2
      ensures State() == AfterSetRESPin(old(State()), value, emulationInterrupts.reset)
      ensures resets == old(resets) + (if !value && old(pins.res) then 1 else 0)
    {
      if value == false && pins.res == true {
        Reset();
      }
      pins := pins.(res := value);
    }

    /** `Cpu65816::setRDYPin`: stores RDY and nothing else. */
    method SetRDYPin(value: bool)
      modifies this
      ensures State() == old(State()).(pins := old(pins).(rdy := value))
      ensures resets == old(resets)
    {
      pins := pins.(rdy := value);
    }

    /**
     * `Cpu65816::executeNextInstruction`: while RES is held it reports false
     * and changes nothing; otherwise it fetches the byte at the program
     * address through the bus and returns what that byte's opcode reports.
     */
    method ExecuteNextInstruction() returns (continues: bool)
      modifies this
      ensures old(pins.res) ==> !continues && State() == old(State())
      ensures !old(pins.res) ==>
                (continues, State()) == opCodeTable(ByteAt(bus.devices, old(programAddress)), old(State()))
      ensures resets == old(resets)
    {
      if pins.res {
        return false;
      }
      var instruction := bus.ReadByte(programAddress);
      var (result, next) := opCodeTable(instruction, State());
      status, a, x, y, d := next.status, next.a, next.x, next.y, next.d;
      programAddress, pins, totalCycles := next.programAddress, next.pins, next.totalCycles;
      return result;
    }

    /** `Cpu65816::accumulatorIs8BitWide`: always in emulation mode, else the M flag. */
    function AccumulatorIs8BitWide(): (r: bool)
      reads this
      ensures status.emulationFlag ==> r
      ensures !status.emulationFlag ==> r == status.accumulatorWidthFlag
    {
      if status.emulationFlag then true else status.accumulatorWidthFlag
    }

    /** `Cpu65816::accumulatorIs16BitWide`: native mode with the M flag clear. */
    function AccumulatorIs16BitWide(): (r: bool)
      reads this
      ensures r <==> !status.emulationFlag && !status.accumulatorWidthFlag
    {
      !AccumulatorIs8BitWide()
    }

    /** `Cpu65816::indexIs8BitWide`: always in emulation mode, else the X flag. */
    function IndexIs8BitWide(): (r: bool)
      reads this
      ensures status.emulationFlag ==> r
      ensures !status.emulationFlag ==> r == status.indexWidthFlag
    {
      if status.emulationFlag then true else status.indexWidthFlag
    }

    /** `Cpu65816::indexIs16BitWide`: native mode with the X flag clear. */
    function IndexIs16BitWide(): (r: bool)
      reads this
      ensures r <==> !status.emulationFlag && !status.indexWidthFlag
    {
      !IndexIs8BitWide()
    }

    /** `Cpu65816::addToCycles`. */
    method AddToCycles(cycles: int)
      modifies this
      ensures totalCycles == old(totalCycles) + cycles
      ensures State() == old(State()).(totalCycles := totalCycles)
      ensures resets == old(resets)
    {
      totalCycles := totalCycles + cycles;
    }

    /** `Cpu65816::subtractFromCycles`: undoes `AddToCycles` by the same amount. */
    method SubtractFromCycles(cycles: int)
      modifies this
      ensures totalCycles == old(totalCycles) - cycles
      ensures State() == old(State()).(totalCycles := totalCycles)
      ensures resets == old(resets)
    {
      totalCycles := totalCycles - cycles;
    }

    /** `Cpu65816::addToProgramAddress`: moves the offset, wrapping inside the bank. */
    method AddToProgramAddress(bytes: int)
      modifies this
      ensures programAddress == IncrementOffsetBy(old(programAddress), bytes)
      ensures programAddress.bank == old(programAddress.bank)
      ensures programAddress.offset == (old(programAddress.offset) + bytes) % 0x1_0000
      ensures State() == old(State()).(programAddress := programAddress)
      ensures resets == old(resets)
    {
      programAddress := IncrementOffsetBy(programAddress, bytes);
    }

    /** `Cpu65816::addToProgramAddressAndCycles`: `AddToCycles` then `AddToProgramAddress`. */
    method AddToProgramAddressAndCycles(bytes: int, cycles: int)
      modifies this
      ensures State() == old(State()).(totalCycles := old(totalCycles) + cycles,
                                       programAddress := IncrementOffsetBy(old(programAddress), bytes))
      ensures resets == old(resets)
    {
      AddToCycles(cycles);
      AddToProgramAddress(bytes);
    }

    /** `Cpu65816::indexWithXRegister`: X cut to its low byte while the index is 8 bits wide. */
    function IndexWithXRegister(): (r: Word)
      reads this
      ensures IndexIs8BitWide() ==> r < 0x100 && r == x % 0x100
      ensures !IndexIs8BitWide() ==> r == x
      ensures r % 0x100 == x % 0x100
    {
      if IndexIs8BitWide() then LowByte(x) else x
    }

    /** `Cpu65816::indexWithYRegister`: Y cut to its low byte while the index is 8 bits wide. */
    function IndexWithYRegister(): (r: Word)
      reads this
      ensures IndexIs8BitWide() ==> r < 0x100 && r == y % 0x100
      ensures !IndexIs8BitWide() ==> r == y
      ensures r % 0x100 == y % 0x100
    {
      if IndexIs8BitWide() then LowByte(y) else y
    }

    /** `Cpu65816::setProgramAddress`: changes the program address and nothing else. */
    method SetProgramAddress(address: Address)
      modifies this
      ensures State() == old(State()).(programAddress := address)
      ensures resets == old(resets)
    {
      programAddress := address;
    }
  }
}

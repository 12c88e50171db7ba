# Lib65816: system bus and CPU control state, modelled in Dafny

This project models two parts of a 65816 emulator library.

- **The system bus** (`SystemBus`). It holds an ordered list of devices it does not own. Every access asks the devices, in registration order, to decode the global address. The first device that claims the address gets the access. An unclaimed read gives 0 and an unclaimed write is dropped. The 16-bit and 24-bit helpers decode once. They then use the decoded address and the one or two addresses after it, on the same device, and assemble the value little-endian.
- **The CPU control state** (`Cpu65816`). This covers the reset sequence and the RES/RDY pins, the register-width rules derived from the E, M and X status flags, index-register masking, program-address and cycle bookkeeping, and the fetch step. The fetch step is held off while RES is asserted.

Files:

- `optional.dfy`: the `Option` type a decoder returns.
- `binary.dfy`: bytes, words, and the masks and shifts the bus uses to split and assemble words.
- `addresses.dfy`: the bank/offset `Address` and its offset increment, which wraps inside the bank.
- `system_bus.dfy`: the devices and the `SystemBus` class.
  - A device is a plain-memory store: a pure decoder plus a map of the bytes stored in it. `BusDevice.ReadByte` is `Peek` of that map, and `PeekAfterStore` states what plain memory means.
  - The bus is a class over `seq<BusDevice>`. Its methods are loops with early return, as in the C++.
  - The loops are proved against `FirstClaim`, which gives the first device that claims an address, and against the read specifications `ByteAt`, `WordAt` and `AddressAt`.
- `cpu.dfy`: the `Cpu65816` class.
  - Its fields stand for `mCpuStatus` (E, M and X only), `mA`, `mX`, `mY`, `mD`, `mProgramAddress`, `mPins` and `mTotalCyclesCounter`. The bus, the emulation-mode vector table and the opcode table are constants.
  - The emulation-mode vector table is an object, `EmulationModeInterrupts`, held by reference. Each reset reads its current `reset` entry, as `mEmulationInterrupts->reset` is read at src/Cpu65816.cpp:49.
  - Its methods state their new state through `State()` and the pure transition functions `AfterReset` and `AfterSetRESPin`.
  - `Reset` and `SetRESPin` call each other, as the C++ does.
  - A ghost counter `resets` records how often the reset sequence ran.

Two behaviours of the code that are easy to misread:

- `reset()` calls `setRESPin(true)` first (src/Cpu65816.cpp:41) and never clears the pin. After a direct `reset()` the CPU stays held in reset. Only `setRESPin(false)` releases it, and that release runs the reset sequence a second time (`ResetThenRelease`).
- The 16-bit and 24-bit bus helpers decode once and then touch the next one or two local addresses of the same device, without decoding again. The model keeps this single-decode behaviour.

Assumptions about code that is not part of this model:

- `Address::incrementOffsetBy` (Address.hpp) wraps the offset modulo 0x10000 and keeps the bank.
- `Binary::lower8BitsOf` is `& 0xFF`.
- `SystemBusDevice::decodeAddress` is pure. A failed decode leaves its out-parameter alone. This is why `readAddressAt` returns `(0x00, 0x0000)` when no device claims the address.
- The registers X, Y, D and A are 16-bit unsigned.

Modelled as parameters or left abstract:

- The opcode table, the global `OP_CODE_TABLE`, is a constructor parameter. It maps the fetched byte and the CPU state to "continues" and a new state.

## Model

| member | source | states |
|---|---|---|
| `Binary.SplitThenCompose` | src/SystemBus.cpp:62-63 | `value & 0xFF` and `(value & 0xFF00) >> 8`, recomposed little-endian, give the word back |
| `Binary.ComposeThenSplit` | src/SystemBus.cpp:89 | the composed word `(msb << 8) \| lsb` has `lsb` as its low byte and `msb` as its high byte |
| `Addresses.IncrementThenDecrement` | src/Cpu65816.cpp:106-108 | moving the program address by n and then by -n returns to the same address |
| `Addresses.NextTwoAreDistinct` | src/SystemBus.cpp:96-108 | the decoded address d, d+1 and d+2 (16-bit wrap) are three different cells, and two +1 steps reach d+2 |
| `Bus.BusDevice.constructor` | src/SystemBus.cpp:51 | a new device has the given address decoder and holds no stored bytes |
| `Bus.BusDevice.StoreByte` | src/SystemBus.cpp:52 | the device's cells become the old cells with the byte stored at the local address; no other cell changes |
| `Bus.PeekAfterStore` | src/SystemBus.cpp:52-76 | plain memory: a read after a store gives the stored byte at that location and the earlier content everywhere else |
| `Bus.FirstClaim` | src/SystemBus.cpp:49-55 | the result is the lowest-position device whose decoder accepts the address, together with the local address it decoded; None exactly when no device accepts it |
| `Bus.RegisterKeepsPriority` | src/SystemBus.cpp:44-46 | after appending a device, every address an earlier device claimed still goes to that device at the same local address; only addresses nobody claimed can go to the new device |
| `Bus.WordRoundTrip` | src/SystemBus.cpp:58-94 | storing a word little-endian at d and d+1 and reading it back from the same device gives the word; every other cell is unchanged |
| `Bus.AddressFromBytes` | src/SystemBus.cpp:96-108 | bytes lsb, msb, bank at d, d+1, d+2 read back as the address (bank, msb * 256 + lsb) |
| `Bus.UnclaimedReadsZero` | src/SystemBus.cpp:72-111 | when no device claims an address, the byte, word and pointer reads give 0, 0 and (0x00, 0x0000) |
| `Bus.EarliestClaimantServes` | src/SystemBus.cpp:72-108 | the earliest device that claims an address serves all three reads, at its decoded address, even when later devices also claim it |
| `Bus.SystemBus.RegisterDevice` | src/SystemBus.cpp:44-46 | the device list becomes the old list with the device appended; the first claim of every already-claimed address is unchanged |
| `Bus.SystemBus.StoreByte` | src/SystemBus.cpp:48-56 | only the first claimant changes, only at its decoded address; no device changes when nobody claims the address; afterwards a read of the address gives the stored byte |
| `Bus.SystemBus.StoreTwoBytes` | src/SystemBus.cpp:58-70 | after one decode, the first claimant holds the low byte at d and the high byte at d+1; nothing else changes; afterwards a word read of the address gives the value |
| `Bus.SystemBus.ReadByte` | src/SystemBus.cpp:72-80 | returns the first claimant's byte at its decoded address, or 0 when no device claims the address |
| `Bus.SystemBus.ReadTwoBytes` | src/SystemBus.cpp:82-94 | returns (byte at d+1) * 256 + (byte at d) from the first claimant, or 0; the result is always below 0x10000 |
| `Bus.SystemBus.ReadAddressAt` | src/SystemBus.cpp:96-112 | returns Address(byte at d+2, byte at d+1 * 256 + byte at d) from the first claimant, or (0x00, 0x0000) when no device claims the address |
| `Cpu.AfterReset` | src/Cpu65816.cpp:40-50 | after a reset, E, M and X are set; X and Y keep only their low byte; D is 0; the program address is (0, emulation reset vector); RES is asserted; A, RDY and the cycle counter are unchanged |
| `Cpu.AfterSetRESPin` | src/Cpu65816.cpp:52-57 | releasing a held RES gives the post-reset state with RES released; any other call changes only the RES pin |
| `Cpu.ResetIsIdempotent` | src/Cpu65816.cpp:40-50 | two resets leave the same state as one |
| `Cpu.HoldThenRelease` | src/Cpu65816.cpp:52-57 | setRESPin(true) then setRESPin(false) gives the post-reset state with RES released; a second setRESPin(false) changes nothing |
| `Cpu.ResetThenRelease` | src/Cpu65816.cpp:40-57 | a direct reset leaves RES asserted; releasing the pin afterwards gives the same registers as a single reset, with RES released |
| `Cpu.Cpu65816.constructor` | src/Cpu65816.cpp:30-35 | the core is bound to its bus, to the emulation-mode vector table object and to the opcode table |
| `Cpu.Cpu65816.Reset` | src/Cpu65816.cpp:40-50 | the new state is `AfterReset` of the old one, using the vector table's `reset` entry as it is when the reset runs; the reset sequence ran once; accumulator and index are then 8 bits wide |
| `Cpu.Cpu65816.SetRESPin` | src/Cpu65816.cpp:52-57 | the new state is `AfterSetRESPin` of the old one; the reset sequence ran exactly once if RES went from held to released, otherwise not at all |
| `Cpu.Cpu65816.SetRDYPin` | src/Cpu65816.cpp:59-61 | only RDY changes |
| `Cpu.Cpu65816.ExecuteNextInstruction` | src/Cpu65816.cpp:63-74 | while RES is held it returns false and the state is unchanged; otherwise the result and new state are the opcode table's for the byte the bus holds at the program address |
| `Cpu.Cpu65816.AccumulatorIs8BitWide` | src/Cpu65816.cpp:76-81 | true whenever E is set; in native mode it equals M |
| `Cpu.Cpu65816.AccumulatorIs16BitWide` | src/Cpu65816.cpp:83-85 | true exactly when both E and M are clear, the negation of the 8-bit predicate |
| `Cpu.Cpu65816.IndexIs8BitWide` | src/Cpu65816.cpp:87-92 | true whenever E is set; in native mode it equals the X flag |
| `Cpu.Cpu65816.IndexIs16BitWide` | src/Cpu65816.cpp:94-96 | true exactly when both E and the X flag are clear, the negation of the 8-bit predicate |
| `Cpu.Cpu65816.AddToCycles` | src/Cpu65816.cpp:98-100 | the cycle counter grows by exactly c; nothing else changes |
| `Cpu.Cpu65816.SubtractFromCycles` | src/Cpu65816.cpp:102-104 | the cycle counter shrinks by exactly c, so it undoes AddToCycles(c); nothing else changes |
| `Cpu.Cpu65816.AddToProgramAddress` | src/Cpu65816.cpp:106-108 | the bank is unchanged and the offset moves by b modulo 0x10000; nothing else changes |
| `Cpu.Cpu65816.AddToProgramAddressAndCycles` | src/Cpu65816.cpp:110-113 | the combined effect of AddToCycles(c) followed by AddToProgramAddress(b) |
| `Cpu.Cpu65816.IndexWithXRegister` | src/Cpu65816.cpp:115-117 | X masked to its low byte (so below 0x100) when the index is 8 bits wide, the full X otherwise; the low byte always survives |
| `Cpu.Cpu65816.IndexWithYRegister` | src/Cpu65816.cpp:119-121 | Y masked to its low byte (so below 0x100) when the index is 8 bits wide, the full Y otherwise; the low byte always survives |
| `Cpu.Cpu65816.SetProgramAddress` | src/Cpu65816.cpp:123-125 | only the program address changes |

## Left out

- The opcode table's contents and `OpCode::execute` (src/Cpu65816.cpp:70-73). Execution is an abstract step over the CPU state. The bus reads and writes an opcode makes are not modelled, and neither are its calls back into the core.
- Cpu.Cpu65816.ExecuteNextInstruction: the contract cannot say that no bus read happens while RES is held, because a read of a plain-memory device leaves no trace. The method returns before the fetch. Its contract says that nothing changes.
- The `Stack` helper, which `reset()` rebuilds (src/Cpu65816.cpp:34, 48). It is a separate class that is not part of this model.
- The native-mode interrupt table. `Cpu65816` stores this pointer (src/Cpu65816.cpp:33), but none of its functions read it.
- The status bits other than E, M and X. CpuStatus is not part of this model, and the core does not consult the other bits.
- Cpu.Cpu65816.constructor: it fixes no register, flag or pin value. Their initial values are set in Cpu65816.hpp, which is not part of this model.
- Concrete bus devices (PPU/APU registers, joypad, DMA, cartridge RAM) and reads with side effects. Every device is modelled as plain memory. A cell that was never stored to reads as 0.
- The constructor and destructor of `SystemBus`, which allocate and free backing stores (src/SystemBus.cpp:26-42). The region size constants are also left out. The access logic does not use them.
- Logging, `LOG_TAG` and the `<cmath>` includes.
- Overflow of the C++ `int` cycle counter. The counter is an unbounded integer.
- Pointer lifetimes in the device list. Aliasing is kept: the same device object may appear more than once.

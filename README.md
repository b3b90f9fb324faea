# php-6502 in Dafny

A verified model of the core of php-6502, a MOS 6502 emulator written in PHP. The model covers:

- the status register;
- the 64 KiB memory, with its monitored variant that logs every bus access;
- the system bus and its memory-mapped peripherals (the 40x25 text display at 0xC000-0xC3EC and the four-channel sound controller at 0xC400-0xC40F);
- the opcode registry;
- the CPU: operand addressing, stack helpers, the two reset sequences, the clock tick and `execute`;
- the nine instruction handler families;
- the two-pass assembler and its disassembler.

## How the model is built

**Two layers for stateful code.** The source changes things in place: objects with fields, arrays updated in loops. Each such file is modelled twice.

- A specification layer of datatypes and functions: `Machine.State`, the `*Spec` modules, `Sound.Written`, `Display.Written`, `AssemblerSpec`.
- An imperative layer of classes whose fields are the source's fields: `Status.StatusRegister`, `Mem.Memory`, `Monitor.BusMonitor`, `Bus.SystemBus`, `Opcodes.InstructionRegistry`, `Cpu.CPU`, `Display.TextDisplay`, `Sound.SoundController`, `Assembler.Assembler`. Their methods, and the handler methods in `LoadStore`, `Transfer`, `Arithmetic`, `Logic`, `ShiftRotate`, `IncDec`, `FlowControl`, `Stack` and `Flags`, are proved to change those fields exactly as the specification functions say.

The properties the emulator promises are proved as lemmas about the specification functions. They include:

- flag formulas;
- round trips: push/pull, JSR/RTS, PHP/PLP, the assembler's operand text against the disassembler's;
- frame conditions;
- the first-claimant dispatch of the bus;
- the reset trace;
- the cycle countdown of `step`.

**Findings.** For each row under "## Findings", the rest of the model uses the corrected behaviour, and only the member in the 'as-written member' cell models the code as written:

- `FlowControlSpec.Rts` and `FlowControl.Rts` mask the new PC to 16 bits;
- `EngineSpec.Execute` and `Engine.Execute` look up the opcode under its full `0x`-prefixed key;
- `AssemblerSpec.DataBytes`, and through it `AssemblerSpec.Assemble` and `Assembler.Assembler.ProcessDataByte`, emit the `0` after a string.

The "## Model" rows describe these corrected members.

**Integer widths.** PHP integers are unbounded in this range. A mask `& 0xFF` or `& 0xFFFF` is written as the Euclidean remainder `% 256` or `% 0x1_0000`, which agrees with PHP on negative operands too.

**PHP arrays.** Arrays used as dictionaries, such as the opcode table and the assembled program, are ordered maps (`OrderedMaps.OMap`). They remember first-insertion order, because `disassemble` and `findOpcode` iterate in that order.

**The CPU class.** src/CPU.php elides the rest of its class at line 102. Operand addressing, the stack helpers, `reset`/`accurateReset` and `step` are therefore modelled from the behaviour tests/CPUTest.php, tests/BusMonitorTest.php and tests/FlowControlTest.php assert. The CPU reads and writes through the system bus, and every `step` ends with one bus `tick`, as src/EnhancedCPU.php:23-29 does. The constructor runs the deterministic reset, as src/CPU.php:16 does. Both resets install SP 0xFD whatever SP held, as tests/CPUTest.php:129-177 expect; the three discarded stack reads go below the old SP.

## Model

The assembler's specification functions `AssemblerSpec.Generate`, `DataBytes`, `WordList`, `ProcessInstruction`, `ProcessLine`, `SecondPass`, `Assemble`, `ListingLine`, `OperandText` and `Disassemble` have no contract of their own. Their rows are those of the `Assembler.Assembler` methods proved equal to them, and of the lemmas that state their properties:

- `Generate`: `AssemblerSpec.GenerateLayout`;
- `DataBytes`: `AssemblerSpec.StringBytes`, `DataBytesKeepsZero`, `DataBytesKeepsLabels`;
- `WordList`: `AssemblerSpec.WordListLayout`, `WordListPlaces`, `WordListKeepsBelow`;
- `ProcessInstruction` and `ProcessLine`: `AssemblerSpec.OriginSetsAddress`, `LabelBindsAddress`, `InstructionKeepsLabels`;
- `SecondPass`: `AssemblerSpec.SecondPassFails`;
- `Assemble`: `AssemblerSpec.AssembleFails`;
- `ListingLine`: `AssemblerSpec.ListingLineCases`, `DataByteListing`;
- `OperandText`: `AssemblerSpec.OperandRoundTrip`;
- `Disassemble`: `AssemblerSpec.ListingStep`.

| member | source | states |
|---|---|---|
| `Status.With` | src/StatusRegister.php:21-33 | after setting flag f to v, `get(f)` answers v and every other flag answers as before |
| `Status.FlagsDetermineWord` | src/StatusRegister.php:30-37 | two status words on which all eight `get` answers agree are the same word, so the flags determine `toInt` |
| `Status.WithIdempotent` | src/StatusRegister.php:21-28 | setting a flag twice to the same value is setting it once; setting it to the value it already has changes nothing |
| `Status.WithOverwrites` | src/StatusRegister.php:21-28 | of two sets of the same flag the second one wins |
| `Status.WithCommutes` | src/StatusRegister.php:21-28 | sets of two different flags commute |
| `Status.IntRoundTrip` | src/StatusRegister.php:35-43 | `fromInt(toInt())` gives back the same word, and every word is a byte |
| `Status.StatusRegister.constructor` | src/StatusRegister.php:19 | a new register holds 0b00100000: only the unused bit U is set |
| `Status.StatusRegister.Set` | src/StatusRegister.php:21-28 | the new word is the old one with flag f set to v (see `Status.With`) |
| `Status.StatusRegister.FromInt` | src/StatusRegister.php:40-43 | installs `value & 0xFF` whatever the integer |
| `OrderedMaps.Empty` | src/InstructionRegister.php:10 | the empty table is well formed |
| `OrderedMaps.Put` | src/InstructionRegister.php:37 | assigning a key replaces its value; a new key is appended to the iteration order, an existing one keeps its place |
| `OrderedMaps.PutWf` | src/InstructionRegister.php:37 | assignment keeps every key exactly once in the iteration order |
| `OrderedMaps.Values` | src/InstructionRegister.php:57 | iterating the table visits one value per key, in key order; how an assignment changes that sequence is stated by `OrderedMaps.ValuesPut` |
| `OrderedMaps.ValuesPut` | src/InstructionRegister.php:37 | after an assignment, iteration visits a new key's value last, or an existing key's new value in that key's old place, with every other value where it was |
| `Opcodes.Indexed` | src/InstructionRegister.php:26-38 | indexing records into the table keeps it well formed |
| `Opcodes.LastRecordWins` | src/InstructionRegister.php:37 | when several records share an opcode key, the last of them is the one stored |
| `Opcodes.Unmentioned` | src/InstructionRegister.php:26-38 | a key no record mentions keeps whatever entry (or absence) it had |
| `Opcodes.WithMnemonic` | src/InstructionRegister.php:46-53 | holds exactly the entries, among the given keys, whose mnemonic is the one asked for |
| `Opcodes.FirstMatchIsFirst` | src/InstructionRegister.php:55-66 | the search result is None iff no entry has both the mnemonic and the mode; otherwise it is the first such entry in table order |
| `Opcodes.InstructionRegistry.constructor` | src/InstructionRegister.php:12-15 | a new registry holds the empty table (loading is the separate `LoadOpcodes`) |
| `Opcodes.InstructionRegistry.LoadOpcodes` | src/InstructionRegister.php:17-39 | reports an error iff the decoded file has no `OPCODES` list and then leaves the table unchanged; otherwise the table becomes the records indexed by opcode |
| `Opcodes.InstructionRegistry.GetOpcode` | src/InstructionRegister.php:41-44 | returns the entry stored under the key, and None iff there is none |
| `Opcodes.InstructionRegistry.FindOpcodesByMnemonic` | src/InstructionRegister.php:46-53 | returns exactly the entries whose mnemonic is the one asked for |
| `Opcodes.InstructionRegistry.FindOpcode` | src/InstructionRegister.php:55-66 | returns None iff no entry matches both mnemonic and mode, else the first match in table order |
| `Mem.LoadedUntouched` | src/Memory.php:17-23 | `initialize` leaves every address the ROM does not mention as it was |
| `Mem.LoadedLastWins` | src/Memory.php:17-23 | after `initialize`, an address holds `value & 0xFF` of the last ROM entry for it |
| `Mem.ReadAfterWrite` | src/Memory.php:25-35 | reading an address just written gives `value & 0xFF`; every other 16-bit address reads as before |
| `Mem.WordRoundTrip` | src/Memory.php:37-46 | `readWord` after `writeWord` at the same address gives `value & 0xFFFF` |
| `Mem.ReplayReproducesMemory` | src/MonitoredMemory.php:17-28 | replaying the writes recorded in the bus log over the starting memory reproduces the memory after the whole sequence: the monitor only observes |
| `Mem.LoggedReadsAreValues` | src/MonitoredMemory.php:17-22 | the log entry for the i-th access, when it is a read, records the masked address, the value that read returned and `'R'` |
| `Mem.LogLength` | src/MonitoredMemory.php:17-28 | every access adds exactly one log entry |
| `Mem.Memory.constructor` | src/MonitoredMemory.php:11-15 | a new memory is empty and keeps the optional monitor it is given |
| `Mem.Memory.Initialize` | src/Memory.php:17-23 | the cells become the old cells loaded with the ROM pairs in order |
| `Mem.Memory.ReadByte` | src/MonitoredMemory.php:17-22 | returns the plain memory read (unwritten cells read 0), and with a monitor appends one `'R'` entry with that address and value |
| `Mem.Memory.WriteByte` | src/MonitoredMemory.php:24-28 | stores `value & 0xFF` at `addr & 0xFFFF`, and with a monitor appends one `'W'` entry |
| `Mem.Memory.ReadWord` | src/MonitoredMemory.php:30-36 | returns the little-endian word at addr, logging the read of addr and then of addr+1 |
| `Mem.Memory.WriteWord` | src/MonitoredMemory.php:38-43 | writes the low byte at addr and then the high byte at addr+1, logging both in that order |
| `Mem.Memory.Push` | src/Memory.php:49-52 | writes at 0x0100+sp and returns sp-1; the byte reads back above the new sp; an attached monitor logs one 'W' entry for that address and byte, at the current cycle |
| `Mem.Memory.Pop` | src/Memory.php:54-57 | returns sp+1 and the byte at 0x0100 plus the new sp; an attached monitor logs one 'R' entry for that address and byte, at the current cycle |
| `Monitor.BusMonitor.constructor` | src/BusMonitor.php:9-10 | a new monitor has an empty log and cycle 0 |
| `Monitor.BusMonitor.LogBusOperation` | src/BusMonitor.php:12-20 | appends exactly one entry stamped with the current cycle, `address & 0xFFFF`, `data & 0xFF` and the operation, and never changes the cycle |
| `Monitor.BusMonitor.IncrementCycle` | src/BusMonitor.php:22-25 | adds 1 to the cycle and leaves the log unchanged |
| `Monitor.BusMonitor.Reset` | src/BusMonitor.php:27-31 | empties the log and zeroes the cycle |
| `Monitor.BusMonitor.GetLastBusOperation` | src/BusMonitor.php:66-69 | None iff the log is empty, otherwise its last entry |
| `Bus.PWrite` | src/Bus/SystemBus.php:45-48 | writing to a peripheral never changes which addresses it claims |
| `Bus.PTick` | src/Bus/SystemBus.php:56-62 | a tick never changes which addresses a peripheral claims |
| `Bus.Claimant` | src/Bus/SystemBus.php:29-33 | the index of the first peripheral that claims the address, or the number of peripherals when none does |
| `Bus.TickAll` | src/Bus/SystemBus.php:56-62 | ticks every peripheral once, in order: a display advances by `Display.Ticked`, a sound controller is unchanged, and every peripheral claims the same addresses as before |
| `Bus.TickAllKeepsClaimant` | src/Bus/SystemBus.php:56-62 | after a tick every address has the same first claimant, so reads and writes are routed as before |
| `Bus.ClaimsStable` | src/Bus/SystemBus.php:39-54 | a bus write keeps the peripheral list's length and which peripheral claims each address |
| `Bus.SameClaims` | src/Bus/SystemBus.php:29-33 | peripherals that claim the same addresses give the same first claimant |
| `Bus.UnclaimedReadBack` | src/Bus/SystemBus.php:24-54 | at an address no peripheral claims, a write goes to memory: it reads back as `value & 0xFF` and every other address reads as before |
| `Bus.ClaimedShadowsMemory` | src/Bus/SystemBus.php:24-54 | at a claimed address, reads come from the first claimant and writes leave memory untouched |
| `Bus.EmptyBusIsMemory` | src/Bus/SystemBus.php:24-54 | a bus without peripherals reads and writes plain memory |
| `Bus.UnmappedUnclaimed` | src/Bus/SystemBus.php:29-33 | no peripheral claims an address outside the display and sound ranges |
| `Bus.ReadDispatch` | src/Bus/SystemBus.php:24-37 | a bus read answers from the first peripheral that claims the masked address, else from memory |
| `Bus.WriteDispatch` | src/Bus/SystemBus.php:39-54 | a bus write goes to the first peripheral that claims the masked address, with `value & 0xFF`, else to memory |
| `Bus.SystemBus.constructor` | src/Bus/SystemBus.php:14-17 | a new bus wraps the given memory and has no peripherals |
| `Bus.SystemBus.AddPeripheral` | src/Bus/SystemBus.php:19-22 | appends the peripheral to the end of the list |
| `Bus.SystemBus.Read` | src/Bus/SystemBus.php:24-37 | returns the dispatched read, logs an `'R'` entry exactly when memory answers, and keeps the cycle |
| `Bus.SystemBus.Write` | src/Bus/SystemBus.php:39-54 | the bus state becomes the dispatched write, logging a `'W'` entry exactly when memory takes it |
| `Bus.SystemBus.Tick` | src/Bus/SystemBus.php:56-62 | ticks every peripheral once, in order |
| `Machine.SetZN` | src/BaseInstruction.php:25-29 | Z answers whether the byte is 0 and N whether its bit 7 is set; no other flag changes |
| `Machine.WithKeeps` | src/StatusRegister.php:21-28 | setting one flag leaves all the others as they were |
| `Machine.WithReg` | src/CPU.php:72-95 | after storing v in a data register, that register reads v |
| `Machine.Resolve` | tests/CPUTest.php:179-350 | `getAddress` leaves PC just past the operand bytes (1 for zero-page, immediate and relative forms, 2 for absolute forms, 0 otherwise), zero-page forms and Relative resolve below 0x100, and Implied and Accumulator resolve to 0 |
| `Machine.ResolveAbsoluteIndirect` | tests/CPUTest.php:292-303 | Absolute Indirect reads a pointer word at PC and the target word through it, with PC advanced by 2 |
| `Machine.ResolveXIndirect` | tests/CPUTest.php:266-277 | (Indirect,X) reads its pointer at `(byte at PC + X) & 0xFF` and advances PC by 1; the pointer's high byte is read from within page 0, so pointer 0xFF pairs with 0x00 |
| `Machine.ResolveIndirectY` | tests/CPUTest.php:279-290 | (Indirect),Y adds Y to the word stored at the zero-page byte at PC, masked to 16 bits, and advances PC by 1; the pointer's high byte is read from within page 0, so pointer 0xFF pairs with 0x00 |
| `Machine.Past` | tests/CPUTest.php:179-264 | consuming an operand moves PC past its bytes and changes nothing else |
| `Machine.AbsoluteIsLittleEndian` | tests/CPUTest.php:179-240 | Absolute is the little-endian word at PC, low byte first; Immediate is PC itself |
| `Machine.IndirectPageBug` | tests/CPUTest.php:305-317 | a pointer ending in 0xFF takes its high byte from the start of the same page (0x30FF pairs with 0x3000); any other pointer is an ordinary word |
| `Machine.ZeroPageIndexWraps` | tests/CPUTest.php:210-218 | zero-page X and Y indexing wraps inside page 0: base plus index at or past 256 loses 256 |
| `Machine.Push` | tests/CPUTest.php:75-99 | a push leaves SP one lower, modulo 256 |
| `Machine.Pull` | tests/CPUTest.php:75-99 | a pull changes only SP, one higher modulo 256 |
| `Machine.PushWord` | tests/CPUTest.php:100-115 | a word push leaves SP two lower, modulo 256 |
| `Machine.PullWord` | tests/CPUTest.php:100-115 | a word pull changes only SP, two higher modulo 256 |
| `Machine.WriteReadBack` | src/Memory.php:31-35 | at an address no peripheral claims, a written byte reads back cut to 8 bits, other addresses keep their bytes and the peripherals are untouched |
| `Machine.StackCell` | src/Memory.php:49-57 | the stack page is plain memory: a byte written in one slot reads back and every other slot keeps its byte |
| `Machine.PushThenPull` | tests/CPUTest.php:75-99 | a pull right after a push returns the pushed byte (cut to 8 bits) and restores SP |
| `Machine.PushWordThenPullWord` | tests/CPUTest.php:100-115 | a word pull right after a word push returns the word (cut to 16 bits) and restores SP |
| `Machine.PullTwice` | tests/CPUTest.php:100-115 | a word pull is two byte pulls, low byte first |
| `Machine.ResetTraceEndsWithVector` | tests/BusMonitorTest.php:147-175 | the reset trace is exactly seven reads, the last two at 0xFFFC and 0xFFFD, and their bytes form the new PC |
| `Machine.Reset` | tests/CPUTest.php:129-177 | PC comes from 0xFFFC/0xFFFD and SP becomes 0xFD whatever it held. I and U are set. The deterministic reset zeroes A, X, Y and every other flag; the accurate one keeps them |
| `Machine.ResetTwice` | tests/CPUTest.php:129-156 | a second reset, like the one the reset tests run after the constructor's, ends in the state the first one left |
| `Cpu.CPU.constructor` | src/CPU.php:12-17 | a new CPU runs the deterministic reset: zero cycles, A, X and Y zero, SP 0xFD, PC from the reset vector and a status register holding only I and U |
| `Cpu.CPU.SetAccumulator` | src/CPU.php:72-75 | stores `value & 0xFF` in A and changes nothing else, so 0x100 reads back as 0 |
| `Cpu.CPU.SetRegisterX` | src/CPU.php:82-85 | stores `value & 0xFF` in X and changes nothing else |
| `Cpu.CPU.SetRegisterY` | src/CPU.php:92-95 | stores `value & 0xFF` in Y and changes nothing else |
| `Cpu.CPU.ReadByte` | src/EnhancedCPU.php:23-29 | a CPU read returns the byte the bus answers and changes no register |
| `Cpu.CPU.WriteByte` | src/EnhancedCPU.php:23-29 | a CPU write becomes a bus write and changes no register |
| `Cpu.CPU.ReadWord` | src/Memory.php:37-40 | returns the little-endian word at the address without changing state |
| `Cpu.CPU.ReadPageWord` | tests/CPUTest.php:305-317 | returns the word whose high byte comes from the same page as its pointer |
| `Cpu.CPU.GetAddress` | tests/CPUTest.php:179-350 | returns the effective address of the mode and moves PC past the operand, as `Machine.Resolve` specifies |
| `Cpu.CPU.ZeroPageAddress` | tests/CPUTest.php:189-229 | zero-page, zero-page indexed and relative operands: one byte at PC, with indexing wrapped in page 0 |
| `Cpu.CPU.AbsoluteAddress` | tests/CPUTest.php:231-264 | absolute and absolute indexed operands: the word at PC plus the index, masked to 16 bits |
| `Cpu.CPU.AbsoluteIndirectAddress` | tests/CPUTest.php:292-317 | the target word read through the indirect address at PC, with the page bug |
| `Cpu.CPU.XIndirectAddress` | tests/CPUTest.php:266-277 | the word at the zero-page pointer (byte at PC + X), its high byte read from within page 0 |
| `Cpu.CPU.IndirectYAddress` | tests/CPUTest.php:279-290 | the word at the zero-page pointer at PC, its high byte read from within page 0, plus Y |
| `Cpu.CPU.ReadOperand` | src/Instructions/LoadStore.php:17-19 | resolves the operand and returns the byte at the effective address (the operand itself for Immediate) |
| `Cpu.CPU.PushByte` | tests/CPUTest.php:75-99 | writes at 0x0100+SP and then lowers SP modulo 256 |
| `Cpu.CPU.PullByte` | tests/CPUTest.php:75-99 | raises SP modulo 256 and then reads 0x0100+SP |
| `Cpu.CPU.PushWord` | tests/CPUTest.php:100-115 | pushes the high byte, then the low byte |
| `Cpu.CPU.PullWord` | tests/CPUTest.php:100-127 | pulls the low byte, then the high byte; SP wraps from 0xFF to 0x00 |
| `Cpu.CPU.Reset` | tests/CPUTest.php:129-177 | reaches the state `Machine.Reset` specifies (PC from the vector, SP 0xFD, I and U set, registers cleared or kept) with zero cycles, and a monitored memory logs exactly the seven reset reads |
| `Cpu.CPU.LoadReset` | tests/CPUTest.php:129-177 | with the reset vector in hand, installs that PC, SP 0xFD, the I and U flags and the cleared or kept registers, as `Machine.Reset` specifies |
| `Cpu.CPU.LoggedRead` | tests/BusMonitorTest.php:147-175 | a read the bus hands to memory returns the byte and appends one `'R'` entry to the log |
| `Cpu.CPU.ResetPcReads` | tests/BusMonitorTest.php:147-175 | the first two reset reads, at PC and PC+1, are logged and discarded |
| `Cpu.CPU.ResetStackReads` | tests/BusMonitorTest.php:147-175 | the next three reset reads, of the stack slots at SP-1, SP-2 and SP-3 (modulo 256), are logged and discarded |
| `Cpu.CPU.PlainRead` | tests/BusMonitorTest.php:147-175 | a discarded read below the peripheral window logs one `'R'` entry and changes no register |
| `Cpu.CPU.ResetVectorRead` | tests/BusMonitorTest.php:147-175 | the last two reset reads fetch 0xFFFC and then 0xFFFD and return the vector |
| `Cpu.CPU.ResetSequence` | tests/BusMonitorTest.php:147-175 | performs the seven reads in order and returns the reset vector |
| `LoadStoreSpec.Load` | src/Instructions/LoadStore.php:15-57 | the register takes the byte at the effective address, Z and N describe it, every other flag and register is kept, PC moves past the operand, and the cost is the opcode's base cycles |
| `LoadStoreSpec.Store` | src/Instructions/LoadStore.php:27-73 | a store changes only the bus and PC (moved past the operand): no register and no flag; the cost is the base cycles |
| `LoadStoreSpec.StoreKeepsOthers` | src/Instructions/LoadStore.php:27-33 | a store into plain memory leaves every other address reading as before |
| `LoadStoreSpec.StoreReadsBack` | src/Instructions/LoadStore.php:27-33 | after a store into plain memory the effective address holds the stored register |
| `LoadStoreSpec.StoreThenLoad` | src/Instructions/LoadStore.php:27-45 | loading from the address just stored to gives back the stored register's value |
| `LoadStore.Lda` | src/Instructions/LoadStore.php:15-25 | the CPU ends in the state `LoadStoreSpec.Load` gives for A and returns the base cycles |
| `LoadStore.Ldx` | src/Instructions/LoadStore.php:35-45 | the CPU ends in the state `LoadStoreSpec.Load` gives for X and returns the base cycles |
| `LoadStore.Ldy` | src/Instructions/LoadStore.php:47-57 | the CPU ends in the state `LoadStoreSpec.Load` gives for Y and returns the base cycles |
| `LoadStore.Sta` | src/Instructions/LoadStore.php:27-33 | the CPU ends in the state `LoadStoreSpec.Store` gives for A and returns the base cycles |
| `LoadStore.Stx` | src/Instructions/LoadStore.php:59-65 | the CPU ends in the state `LoadStoreSpec.Store` gives for X and returns the base cycles |
| `LoadStore.Sty` | src/Instructions/LoadStore.php:67-73 | the CPU ends in the state `LoadStoreSpec.Store` gives for Y and returns the base cycles |
| `LoadStore.SetRegister` | src/Instructions/LoadStore.php:20-22 | the register setter followed by the Z and N updates |
| `TransferSpec.Move` | src/Instructions/Transfer.php:15-57 | the destination takes the source's value, the source keeps it, Z and N describe the value, and nothing else changes (no memory, C or V); the cost is the base cycles |
| `TransferSpec.Tsx` | src/Instructions/Transfer.php:59-68 | X takes SP, Z and N describe it, nothing else changes |
| `TransferSpec.Txs` | src/Instructions/Transfer.php:70-76 | SP takes X and nothing else changes, no flag included |
| `TransferSpec.MoveBack` | src/Instructions/Transfer.php:15-57 | transferring back right after a transfer (TAX then TXA, and the like) changes nothing further |
| `TransferSpec.TxsThenTsx` | src/Instructions/Transfer.php:59-76 | TXS then TSX leaves X as it was, SP equal to X, and Z and N describing X |
| `Transfer.Tax` | src/Instructions/Transfer.php:15-24 | the CPU ends in the state `TransferSpec.Move` gives from A to X and returns the base cycles |
| `Transfer.Tay` | src/Instructions/Transfer.php:26-35 | the CPU ends in the state `TransferSpec.Move` gives from A to Y |
| `Transfer.Txa` | src/Instructions/Transfer.php:37-46 | the CPU ends in the state `TransferSpec.Move` gives from X to A |
| `Transfer.Tya` | src/Instructions/Transfer.php:48-57 | the CPU ends in the state `TransferSpec.Move` gives from Y to A |
| `Transfer.Tsx` | src/Instructions/Transfer.php:59-68 | the CPU ends in the state `TransferSpec.Tsx` gives |
| `Transfer.Txs` | src/Instructions/Transfer.php:70-76 | the CPU ends in the state `TransferSpec.Txs` gives |
| `ArithmeticSpec.AddWithCarry` | src/Instructions/Arithmetic.php:22-31 | the result is `(A+M+C) & 0xFF`, C' says the unsigned sum passed 0xFF, and the XOR overflow test says exactly that the signed sum left -128..127 |
| `ArithmeticSpec.SubtractWithBorrow` | src/Instructions/Arithmetic.php:46-55 | the result is `(A-M-(1-C)) & 0xFF`, C' says the difference is not negative, and the XOR overflow test says exactly that the signed difference left -128..127 |
| `ArithmeticSpec.SubtractIsAddComplement` | src/Instructions/Arithmetic.php:15-60 | SBC of M is ADC of `0xFF - M`: same result, carry and overflow |
| `ArithmeticSpec.ArithFlags` | src/Instructions/Arithmetic.php:25-31 | C and V come from the sum, Z and N from its low byte, I, D, B and U are kept |
| `ArithmeticSpec.Adc` | src/Instructions/Arithmetic.php:15-36 | A takes the sum's low byte and C, V, Z, N follow `AddWithCarry`; nothing else changes but PC, which moves past the operand; the cost is the base cycles |
| `ArithmeticSpec.Sbc` | src/Instructions/Arithmetic.php:38-60 | A takes the difference's low byte and C, V, Z, N follow `SubtractWithBorrow`; nothing else changes but PC |
| `ArithmeticSpec.Compare` | src/Instructions/Arithmetic.php:62-108 | C says reg ≥ M, Z says reg = M, N is bit 7 of `(reg - M) & 0xFF`; no register, no memory and no other flag changes |
| `ArithmeticSpec.CompareFlags` | src/Instructions/Arithmetic.php:67-73 | the compare flags as above, every other flag kept |
| `ArithmeticSpec.CompareIsSubtraction` | src/Instructions/Arithmetic.php:62-76 | a compare sets C, Z and N as a subtraction with the carry set would |
| `Arithmetic.Adc` | src/Instructions/Arithmetic.php:15-36 | the CPU ends in the state `ArithmeticSpec.Adc` gives and returns the base cycles |
| `Arithmetic.Sbc` | src/Instructions/Arithmetic.php:38-60 | the CPU ends in the state `ArithmeticSpec.Sbc` gives |
| `Arithmetic.StoreSum` | src/Instructions/Arithmetic.php:25-33 | installs a sum's flags and its low byte in A |
| `Arithmetic.Cmp` | src/Instructions/Arithmetic.php:62-76 | the CPU ends in the state `ArithmeticSpec.Compare` gives for A |
| `Arithmetic.Cpx` | src/Instructions/Arithmetic.php:78-92 | the CPU ends in the state `ArithmeticSpec.Compare` gives for X |
| `Arithmetic.Cpy` | src/Instructions/Arithmetic.php:94-108 | the CPU ends in the state `ArithmeticSpec.Compare` gives for Y |
| `Arithmetic.SetCompareFlags` | src/Instructions/Arithmetic.php:69-73 | the status word becomes `ArithmeticSpec.CompareFlags` of the old one |
| `LogicSpec.Bitwise` | src/Instructions/Logic.php:15-58 | A takes `A & M`, `A OR M` or `A ^ M`, Z and N describe it, C and V and every other flag are kept, no memory is written |
| `LogicSpec.Bit` | src/Instructions/Logic.php:60-74 | Z says `A & M` is 0, N and V copy bits 7 and 6 of M; A, memory and the other flags are untouched |
| `LogicSpec.BitFlags` | src/Instructions/Logic.php:67-69 | the three BIT flags as above, every other flag kept |
| `LogicSpec.EorTwice` | src/Instructions/Logic.php:45-58 | EOR with the same byte twice gives back A |
| `LogicSpec.AndOnlyClears` | src/Instructions/Logic.php:15-28 | AND never yields more than either operand |
| `LogicSpec.BitIsAndWithoutStore` | src/Instructions/Logic.php:60-74 | BIT sets Z exactly as AND would, but leaves A alone |
| `Logic.And` | src/Instructions/Logic.php:15-28 | the CPU ends in the state `LogicSpec.Bitwise` gives for AND |
| `Logic.Ora` | src/Instructions/Logic.php:30-43 | the CPU ends in the state `LogicSpec.Bitwise` gives for OR |
| `Logic.Eor` | src/Instructions/Logic.php:45-58 | the CPU ends in the state `LogicSpec.Bitwise` gives for XOR |
| `Logic.Bit` | src/Instructions/Logic.php:60-74 | the CPU ends in the state `LogicSpec.Bit` gives |
| `Logic.SetBitFlags` | src/Instructions/Logic.php:67-69 | the status word becomes `LogicSpec.BitFlags` of the old one |
| `ShiftRotateSpec.Shift` | src/Instructions/ShiftRotate.php:15-119 | the nine bits (carry and byte) before and after agree: ASL doubles with bit 7 into C, LSR halves with bit 0 into C, ROL doubles adding the old C, ROR halves putting the old C in bit 7 |
| `ShiftRotateSpec.ShiftFlags` | src/Instructions/ShiftRotate.php:35-36 | C' is the bit shifted out, Z says the result is 0, N is bit 7 of the result (always clear for LSR), and V, I and D are kept |
| `ShiftRotateSpec.ShiftRotate` | src/Instructions/ShiftRotate.php:15-119 | in Accumulator mode only A and the flags change; otherwise A stays, the bus and PC change; C' is the shifted-out bit, Z is set iff the 8-bit result is 0 and N iff its bit 7 is set; only C, Z and N among the flags change; the cost is the base cycles |
| `ShiftRotateSpec.ShiftMemoryReadsBack` | src/Instructions/ShiftRotate.php:19-32 | in memory mode the effective address then holds the shifted byte and every other address reads as before |
| `ShiftRotateSpec.ShiftMemoryBus` | src/Instructions/ShiftRotate.php:19-32 | in memory mode the bus is the old bus with the shifted byte written at the effective address |
| `ShiftRotateSpec.RotateBack` | src/Instructions/ShiftRotate.php:67-119 | ROL then ROR, and ROR then ROL, give back both the byte and the carry |
| `ShiftRotateSpec.RolThenRor` | src/Instructions/ShiftRotate.php:67-119 | ROL A followed by ROR A restores A and C |
| `ShiftRotateSpec.ShiftSetsZN` | src/Instructions/ShiftRotate.php:35-36 | after any shift, Z and N describe the result byte |
| `ShiftRotate.Asl` | src/Instructions/ShiftRotate.php:15-39 | the CPU ends in the state `ShiftRotateSpec.ShiftRotate` gives for ASL and returns the base cycles |
| `ShiftRotate.Lsr` | src/Instructions/ShiftRotate.php:41-65 | the CPU ends in the state `ShiftRotateSpec.ShiftRotate` gives for LSR |
| `ShiftRotate.Rol` | src/Instructions/ShiftRotate.php:67-92 | the CPU ends in the state `ShiftRotateSpec.ShiftRotate` gives for ROL |
| `ShiftRotate.Ror` | src/Instructions/ShiftRotate.php:94-119 | the CPU ends in the state `ShiftRotateSpec.ShiftRotate` gives for ROR |
| `ShiftRotate.ShiftOperand` | src/Instructions/ShiftRotate.php:17-36 | reads A or the byte at the effective address, shifts it and writes it back where it came from |
| `ShiftRotate.StoreShiftedA` | src/Instructions/ShiftRotate.php:19-24 | A takes the shifted byte and the flags follow it |
| `ShiftRotate.StoreShiftedMemory` | src/Instructions/ShiftRotate.php:25-32 | the shifted byte is written at the address and the flags follow it |
| `ShiftRotate.SetShiftZN` | src/Instructions/ShiftRotate.php:35-36 | sets Z from the result being 0 and N from its bit 7 (clear for LSR) |
| `IncDecSpec.Bump` | src/Instructions/IncDec.php:15-91 | increment wraps 0xFF to 0 and decrement wraps 0 to 0xFF; otherwise the value moves by one |
| `IncDecSpec.Modify` | src/Instructions/IncDec.php:15-43 | INC and DEC change only the bus, PC and the flags; Z and N describe the new byte; C and V are kept; the cost is the base cycles |
| `IncDecSpec.Step` | src/Instructions/IncDec.php:45-91 | INX, DEX, INY and DEY move their register by one modulo 256, Z and N describe it, and nothing else changes (no memory, no other register) |
| `IncDecSpec.BumpBack` | src/Instructions/IncDec.php:15-91 | an increment and a decrement undo each other |
| `IncDecSpec.ModifyReadsBack` | src/Instructions/IncDec.php:15-43 | after INC or DEC the effective address holds the byte plus or minus one and every other address reads as before |
| `IncDecSpec.IncThenDec` | src/Instructions/IncDec.php:15-43 | INC then DEC at the same address restores the original byte |
| `IncDecSpec.StepBack` | src/Instructions/IncDec.php:45-91 | INX then DEX (and INY then DEY, and the reverse orders) restore the register |
| `IncDec.Inc` | src/Instructions/IncDec.php:15-28 | the CPU ends in the state `IncDecSpec.Modify` gives for an increment and returns the base cycles |
| `IncDec.Dec` | src/Instructions/IncDec.php:30-43 | the CPU ends in the state `IncDecSpec.Modify` gives for a decrement |
| `IncDec.StoreWithZN` | src/Instructions/IncDec.php:20-25 | writes the result at the address and sets Z and N from it |
| `IncDec.Inx` | src/Instructions/IncDec.php:45-55 | the CPU ends in the state `IncDecSpec.Step` gives for X up |
| `IncDec.Dex` | src/Instructions/IncDec.php:57-67 | the CPU ends in the state `IncDecSpec.Step` gives for X down |
| `IncDec.Iny` | src/Instructions/IncDec.php:69-79 | the CPU ends in the state `IncDecSpec.Step` gives for Y up |
| `IncDec.Dey` | src/Instructions/IncDec.php:81-91 | the CPU ends in the state `IncDecSpec.Step` gives for Y down |
| `FlowControlSpec.Displacement` | src/Instructions/FlowControl.php:126-130 | an offset byte reads as a signed value in -128..127 with the same low eight bits, and offsets below 0x80 read as themselves |
| `FlowControlSpec.Branch` | src/Instructions/FlowControl.php:120-145 | only PC changes. Not taken: PC is past the operand and the cost is the base cycles. Taken: PC is `(PC + signed offset) & 0xFFFF` from the PC after the operand, at base+1 cycles, or base+2 when the high byte of PC changes |
| `FlowControlSpec.BranchReach` | src/Instructions/FlowControl.php:120-133 | a taken relative branch lands within -128..+127 of the instruction after it |
| `FlowControlSpec.Jmp` | src/Instructions/FlowControl.php:57-63 | PC takes the resolved absolute or indirect address and nothing else changes |
| `FlowControlSpec.Jsr` | src/Instructions/FlowControl.php:65-76 | SP ends two lower and the cost is the base cycles |
| `FlowControlSpec.JsrShape` | src/Instructions/FlowControl.php:65-76 | after JSR, 0x0100+SP holds the high byte of PC+1 and the cell below it the low byte; every other address, A, X, Y and the flags are unchanged; PC is the operand address resolved after the push |
| `FlowControlSpec.RtsAsWrittenLeavesWordRange` | src/Instructions/FlowControl.php:78-85 | the PC RTS computes as written agrees with the wrapped PC exactly when the stacked word is not 0xFFFF; over 0xFFFF it is 0x10000, outside the address space, where the wrapped PC is 0 (see Findings) |
| `FlowControlSpec.Rts` | src/Instructions/FlowControl.php:78-85 | PC takes the pulled word plus one, cut to 16 bits; SP rises by two and nothing else changes |
| `FlowControlSpec.JsrThenRts` | src/Instructions/FlowControl.php:65-85 | JSR then RTS resumes right after the three-byte JSR with SP back where it was |
| `FlowControlSpec.RtsAfterPush` | src/Instructions/FlowControl.php:78-85 | RTS over a stack that a word push of w left returns to w+1 with SP restored |
| `FlowControlSpec.RtsRestoresSp` | src/Instructions/FlowControl.php:78-85 | RTS raises SP by two, undoing the two pushes of JSR |
| `FlowControlSpec.Brk` | src/Instructions/FlowControl.php:88-105 | SP ends three lower, I is set and no other live flag changes (B included), PC takes the word at 0xFFFE, and no register changes |
| `FlowControlSpec.Interrupted` | src/Instructions/FlowControl.php:88-99 | the three pushes of BRK and the I update: SP three lower, only I changed in the live status |
| `FlowControlSpec.InterruptedShape` | src/Instructions/FlowControl.php:88-99 | after BRK's pushes, 0x0100+SP holds the high byte of PC+1, the cell below it the low byte and the next one down the status with B set; every other address reads as before |
| `FlowControlSpec.VectorUntouched` | src/Instructions/FlowControl.php:88-104 | the stack pushes of BRK never change the word at 0xFFFE it then reads |
| `FlowControlSpec.SameBusSameWord` | src/Memory.php:37-40 | a word read depends only on the bus |
| `FlowControlSpec.StackWriteSparesVector` | src/Instructions/FlowControl.php:88-104 | a push never changes the bytes at 0xFFFE and 0xFFFF |
| `FlowControlSpec.Rti` | src/Instructions/FlowControl.php:107-117 | the status is pulled first and installed as it is, then PC is pulled; SP rises by three and nothing else changes |
| `FlowControlSpec.BrkThenRti` | src/Instructions/FlowControl.php:88-117 | RTI right after BRK resumes at PC+1 with SP back and every flag as before, except that B is now set (it was set in the pushed copy) |
| `FlowControlSpec.RtiAfterInterrupt` | src/Instructions/FlowControl.php:107-117 | RTI over the stack BRK left restores PC+1, SP and the flags with B set |
| `FlowControlSpec.RtiRestoresSp` | src/Instructions/FlowControl.php:107-117 | RTI raises SP by three, undoing the three pushes of BRK |
| `FlowControlSpec.StatusPulledBack` | src/Instructions/FlowControl.php:107-111 | the status byte pulled first is the one pushed last, and it converts back to the same status word |
| `FlowControl.Beq` | src/Instructions/FlowControl.php:16-19 | branches exactly when Z is set, as `FlowControlSpec.Branch` specifies |
| `FlowControl.Bne` | src/Instructions/FlowControl.php:21-24 | branches exactly when Z is clear |
| `FlowControl.Bcc` | src/Instructions/FlowControl.php:26-29 | branches exactly when C is clear |
| `FlowControl.Bcs` | src/Instructions/FlowControl.php:31-34 | branches exactly when C is set |
| `FlowControl.Bpl` | src/Instructions/FlowControl.php:36-39 | branches exactly when N is clear |
| `FlowControl.Bmi` | src/Instructions/FlowControl.php:41-44 | branches exactly when N is set |
| `FlowControl.Bvc` | src/Instructions/FlowControl.php:46-49 | branches exactly when V is clear |
| `FlowControl.Bvs` | src/Instructions/FlowControl.php:51-54 | branches exactly when V is set |
| `FlowControl.BranchIf` | src/Instructions/FlowControl.php:120-145 | the CPU ends in the state `FlowControlSpec.Branch` gives and returns its cycles |
| `FlowControl.Jmp` | src/Instructions/FlowControl.php:57-63 | the CPU ends in the state `FlowControlSpec.Jmp` gives |
| `FlowControl.Jsr` | src/Instructions/FlowControl.php:65-76 | the CPU ends in the state `FlowControlSpec.Jsr` gives |
| `FlowControl.Rts` | src/Instructions/FlowControl.php:78-85 | the CPU ends in the state `FlowControlSpec.Rts` gives |
| `FlowControl.Brk` | src/Instructions/FlowControl.php:88-105 | the CPU ends in the state `FlowControlSpec.Brk` gives |
| `FlowControl.Interrupt` | src/Instructions/FlowControl.php:88-99 | the CPU ends in the state `FlowControlSpec.Interrupted` gives |
| `FlowControl.DisableInterrupts` | src/Instructions/FlowControl.php:98-99 | sets I and changes nothing else |
| `FlowControl.PushReturn` | src/Instructions/FlowControl.php:88-95 | pushes PC+1 as a word, then the status with B set |
| `FlowControl.Rti` | src/Instructions/FlowControl.php:107-117 | the CPU ends in the state `FlowControlSpec.Rti` gives |
| `StackSpec.Pha` | src/Instructions/Stack.php:15-19 | the cell at 0x0100+SP then holds A and SP is one lower (wrapping); every other address, register and flag is unchanged |
| `StackSpec.Pla` | src/Instructions/Stack.php:21-31 | A takes the pulled byte, SP rises by one, Z and N describe A; nothing else changes |
| `StackSpec.PushedStatus` | src/Instructions/Stack.php:35-36 | the pushed status has B set and every other flag as the live one |
| `StackSpec.Php` | src/Instructions/Stack.php:33-39 | the cell at 0x0100+SP then holds the status word with B set and SP is one lower; the live status, the other registers and every other address are unchanged |
| `StackSpec.PulledStatus` | src/Instructions/Stack.php:41-49 | the installed status has B clear, U set, and every other flag as pulled |
| `StackSpec.Plp` | src/Instructions/Stack.php:41-49 | the status takes the pulled byte (B cleared, U set), SP rises by one, nothing else changes |
| `StackSpec.PhaThenPla` | tests/FlowControlTest.php:208-233 | PHA then PLA restores A and SP, with Z and N describing A |
| `StackSpec.StatusThroughStack` | src/Instructions/Stack.php:33-49 | the byte PHP pushes, read back by PLP, is the status with B cleared and U set |
| `StackSpec.PhpThenPlp` | tests/FlowControlTest.php:235-263 | PHP then PLP restores SP and C, Z, I, D, V and N; B ends clear and U set |
| `Stack.Pha` | src/Instructions/Stack.php:15-19 | the CPU ends in the state `StackSpec.Pha` gives |
| `Stack.Pla` | src/Instructions/Stack.php:21-31 | the CPU ends in the state `StackSpec.Pla` gives |
| `Stack.Php` | src/Instructions/Stack.php:33-39 | the CPU ends in the state `StackSpec.Php` gives |
| `Stack.Plp` | src/Instructions/Stack.php:41-49 | the CPU ends in the state `StackSpec.Plp` gives |
| `FlagsSpec.SetFlag` | src/Instructions/Flags.php:15-55 | the named flag takes the value, every other flag, register and memory is unchanged, and the cost is the base cycles |
| `FlagsSpec.SetFlagIdempotent` | src/Instructions/Flags.php:15-55 | a flag instruction applied twice is applied once |
| `FlagsSpec.LastFlagWins` | src/Instructions/Flags.php:15-55 | of two flag instructions on the same flag, the second decides |
| `Flags.Sec` | src/Instructions/Flags.php:15-19 | sets C only |
| `Flags.Clc` | src/Instructions/Flags.php:21-25 | clears C only |
| `Flags.Sei` | src/Instructions/Flags.php:27-31 | sets I only |
| `Flags.Cli` | src/Instructions/Flags.php:33-37 | clears I only |
| `Flags.Sed` | src/Instructions/Flags.php:39-43 | sets D only |
| `Flags.Cld` | src/Instructions/Flags.php:45-49 | clears D only |
| `Flags.Clv` | src/Instructions/Flags.php:51-55 | clears V only |
| `Display.Clamp` | src/Peripherals/TextDisplay.php:92-96 | `max(0, min(hi, v))`: always in 0..hi, and v itself when v is already in range |
| `Display.CellReadBack` | src/Peripherals/TextDisplay.php:116-122 | a write to display RAM reads back as `value & 0xFF` and leaves every other address reading as before |
| `Display.CursorClamped` | src/Peripherals/TextDisplay.php:91-98 | cursor writes clamp X to 0..39 and Y to 0..24 and keep in-range values |
| `Display.ColourMasked` | src/Peripherals/TextDisplay.php:99-106 | colour writes keep only the low nibble |
| `Display.ControlEffects` | src/Peripherals/TextDisplay.php:107-115 | CONTROL reads back the show-cursor bit. With bit 0 set the write blanks every cell to 0x20 and homes the cursor; without it the cells are untouched |
| `Display.ScrolledRows` | src/Peripherals/TextDisplay.php:212-230 | after a scroll each row holds the row below it, the last row is blank and cursor Y is 24 |
| `Display.PrintableStored` | src/Peripherals/TextDisplay.php:197-209 | a byte in 0x20..0x7E is stored at `y*40+x`. The cursor then moves right, or at the end of a row to column 0 of the next; a redraw is requested |
| `Display.UnprintableIgnored` | src/Peripherals/TextDisplay.php:189-210 | any other byte than newline and 0x20..0x7E only requests a redraw |
| `Display.NewlineAtBottomScrolls` | src/Peripherals/TextDisplay.php:191-196 | a newline on the last row scrolls: the old second row becomes the top row and the cursor is at column 0 of row 24 |
| `Display.TickRefresh` | src/Peripherals/TextDisplay.php:126-136 | each tick adds one to the counter and requests a redraw exactly on every 30000th tick |
| `Display.TextDisplay.constructor` | src/Peripherals/TextDisplay.php:57-60 | a new display is in the reset state: blank cells, cursor home, colours 7 on 0, cursor shown |
| `Display.TextDisplay.Write` | src/Peripherals/TextDisplay.php:88-124 | the display state becomes the one `Display.Written` specifies, with the cursor always kept within 0..39 and 0..24 |
| `Display.TextDisplay.Tick` | src/Peripherals/TextDisplay.php:126-136 | the display state becomes the one `Display.Ticked` specifies |
| `Display.TextDisplay.Reset` | src/Peripherals/TextDisplay.php:138-147 | every cell becomes 0x20, the cursor is homed, colours are 7 on 0, the cursor is shown and a redraw requested |
| `Display.TextDisplay.ClearScreen` | src/Peripherals/TextDisplay.php:181-187 | every cell becomes 0x20 and the cursor is homed; colours are kept |
| `Display.TextDisplay.Blank` | src/Peripherals/TextDisplay.php:183 | fills the display memory with 0x20 |
| `Display.TextDisplay.WriteChar` | src/Peripherals/TextDisplay.php:189-210 | the display state becomes the one `Display.AfterChar` specifies |
| `Display.TextDisplay.ScrollUp` | src/Peripherals/TextDisplay.php:212-230 | the display state becomes the one `Display.Scrolled` specifies: rows moved up by one, last row blank, cursor Y 24 |
| `Display.ShiftedScreen` | src/Peripherals/TextDisplay.php:215-227 | a screen whose first 24 rows are the old rows 1..24 and whose last row is blank is the old screen without its first row, followed by a blank row |
| `Sound.FrequencyRoundTrip` | src/Peripherals/SoundController.php:63-87 | writing a channel's low and then high frequency byte sets the frequency to `hi*256 + lo` (each cut to 8 bits), and both registers read back what was written |
| `Sound.FrequencyBytes` | src/Peripherals/SoundController.php:80-87 | the low frequency register replaces only the low byte of the frequency, the high register only the high byte |
| `Sound.VolumeAndControl` | src/Peripherals/SoundController.php:88-92 | a volume write reads back as `value & 0x0F`, a control write as `value & 0xFF` |
| `Sound.NoFifthChannel` | src/Peripherals/SoundController.php:57-77 | an address whose channel number is 4 or more reads 0 and ignores writes |
| `Sound.OtherChannelsUntouched` | src/Peripherals/SoundController.php:72-98 | a register write changes only the channel it addresses |
| `Sound.SilenceDisables` | src/Peripherals/SoundController.php:176-181 | after `silence` no channel has bit 0 of its control set, and frequency, volume and the other bits are untouched |
| `Sound.SoundController.constructor` | src/Peripherals/SoundController.php:45-48 | a new controller has four silent channels |
| `Sound.SoundController.Write` | src/Peripherals/SoundController.php:72-98 | the channels become the ones `Sound.Written` specifies |
| `Sound.SoundController.Tick` | src/Peripherals/SoundController.php:100-104 | a tick changes nothing |
| `Sound.SoundController.Reset` | src/Peripherals/SoundController.php:106-116 | frequency, volume, control and phase become 0 on all four channels |
| `Sound.SoundController.Silence` | src/Peripherals/SoundController.php:176-181 | the channels become the ones `Sound.Silenced` specifies: only bit 0 of each control is cleared |
| `EngineSpec.LoadStore` | src/Instructions/LoadStore.php:15-74 | the load/store family answers for exactly LDA, LDX, LDY, STA, STX and STY |
| `EngineSpec.Transfer` | src/Instructions/Transfer.php:15-77 | the transfer family answers for exactly TAX, TAY, TXA, TYA, TSX and TXS |
| `EngineSpec.Arithmetic` | src/Instructions/Arithmetic.php:15-109 | the arithmetic family answers for exactly ADC, SBC, CMP, CPX and CPY |
| `EngineSpec.Logic` | src/Instructions/Logic.php:15-75 | the logic family answers for exactly AND, ORA, EOR and BIT |
| `EngineSpec.ShiftRotate` | src/Instructions/ShiftRotate.php:15-119 | the shift/rotate family answers for exactly ASL, LSR, ROL and ROR |
| `EngineSpec.IncDec` | src/Instructions/IncDec.php:15-92 | the increment/decrement family answers for exactly INC, DEC, INX, DEX, INY and DEY |
| `EngineSpec.Branches` | src/Instructions/FlowControl.php:16-55 | the branch handlers answer for exactly the eight conditional branches |
| `EngineSpec.Jumps` | src/Instructions/FlowControl.php:57-85 | the jump handlers answer for exactly JMP, JSR and RTS |
| `EngineSpec.Interrupts` | src/Instructions/FlowControl.php:88-117 | the interrupt handlers answer for exactly BRK and RTI |
| `EngineSpec.Stack` | src/Instructions/Stack.php:15-50 | the stack family answers for exactly PHA, PLA, PHP and PLP |
| `EngineSpec.Flags` | src/Instructions/Flags.php:15-55 | the flag family answers for exactly SEC, CLC, SEI, CLI, SED, CLD and CLV |
| `EngineSpec.Exec` | tests/FlowControlTest.php:30-324 | a mnemonic has a handler exactly when it belongs to one of the nine families or is NOP |
| `EngineSpec.Step` | src/EnhancedCPU.php:23-29 | a tick with cycles left only counts down and leaves registers, flags and memory alone; at zero it fails with unknown-opcode when the key of the byte at PC is not in the table, fails with not-implemented when no handler takes the mnemonic, and otherwise leaves the handler's state with its cycle count less one |
| `EngineSpec.StepFailsExactly` | src/CPU.php:36-47 | with the CPU's handlers a tick fails exactly when it fetches and the byte's key is missing from the table or its mnemonic has no handler |
| `EngineSpec.CountDown` | tests/BasicInstructionsTest.php:23-28 | k ticks with at least k cycles left report no error, lower the counter by k and change no register, flag or memory cell |
| `EngineSpec.InstructionRetires` | src/MonitoredCPU.php:70-83 | after a successful fetch an instruction of n cycles retires after exactly n ticks with the counter positive before, leaving the state its handler computed |
| `EngineSpec.ExecuteKeyAsWrittenLosesZeroDigit` | src/CPU.php:33 | the key `execute` builds equals the table key of a byte exactly when the byte is 0x10 or above |
| `EngineSpec.ExecuteKeyAsWrittenExamples` | src/CPU.php:33 | "0x0A" becomes "0xA" and "0x00" becomes "0x" |
| `EngineSpec.ExecuteKeyFindsEveryByte` | src/CPU.php:33-36 | the corrected key finds every byte's entry, written with or without its 0x prefix |
| `EngineSpec.Execute` | src/CPU.php:31-64 | `execute` fails exactly when the key is missing or its mnemonic has no handler, with the unknown-opcode error in the first case and the not-implemented error in the second |
| `EngineSpec.ExecuteAgreesWithStep` | src/CPU.php:31-64 | when `execute` succeeds for a byte it computes what a fetch of that byte runs |
| `Engine.RunLoadStore` | src/Instructions/LoadStore.php:15-74 | the load/store handler methods leave the CPU in the state and with the cycle count of the family function |
| `Engine.RunTransfer` | src/Instructions/Transfer.php:15-77 | the transfer handler methods agree with the family function |
| `Engine.RunArithmetic` | src/Instructions/Arithmetic.php:15-109 | the arithmetic handler methods agree with the family function |
| `Engine.RunLogic` | src/Instructions/Logic.php:15-75 | the logic handler methods agree with the family function |
| `Engine.RunShiftRotate` | src/Instructions/ShiftRotate.php:15-119 | the shift/rotate handler methods agree with the family function |
| `Engine.RunIncDec` | src/Instructions/IncDec.php:15-92 | the increment/decrement handler methods agree with the family function |
| `Engine.RunBranch` | src/Instructions/FlowControl.php:16-55 | the branch handler methods agree with the family function |
| `Engine.RunJump` | src/Instructions/FlowControl.php:57-85 | the jump handler methods agree with the family function |
| `Engine.RunInterrupt` | src/Instructions/FlowControl.php:88-117 | the interrupt handler methods agree with the family function |
| `Engine.RunStack` | src/Instructions/Stack.php:15-50 | the stack handler methods agree with the family function |
| `Engine.RunFlags` | src/Instructions/Flags.php:15-55 | the flag handler methods agree with the family function |
| `Engine.Dispatch` | tests/BasicInstructionsTest.php:30-351 | the handler lookup reports whether the mnemonic has a handler and, if it has one, leaves the state and cycle count of `Exec`; if not, nothing changes |
| `Engine.FetchKey` | tests/BasicInstructionsTest.php:30-40 | the fetch reads the byte at PC, moves PC past it and returns the byte's table key |
| `Engine.Fetch` | src/CPU.php:31-47 | the fetch at cycle zero reaches the state, counter and error of the fetch function |
| `Engine.Step` | src/EnhancedCPU.php:23-29 | one tick of the CPU and then one of the bus reaches the state, counter and error of `EngineSpec.Step` |
| `Engine.Execute` | src/CPU.php:31-64 | `execute` reports the error of `EngineSpec.Execute` and leaves the state unchanged, or runs the handler to its state |
| `AssemblerSpec.Initial` | src/Assembler/Assembler.php:46-52 | a fresh pass starts with no program bytes, no labels, address 0 and no pending references |
| `AssemblerSpec.StripComment` | src/Assembler/Assembler.php:61 | removing a comment keeps a prefix of the line with no `;` in it, cut exactly at the first `;` |
| `AssemblerSpec.KeptSound` | src/Assembler/Assembler.php:54-79 | every kept line is the trimmed, comment-free text of a non-blank source line under its 1-based number, and kept lines stay in source order |
| `AssemblerSpec.KeptComplete` | src/Assembler/Assembler.php:54-79 | every source line that is not blank once its comment is gone is kept under its 1-based number |
| `AssemblerSpec.NoCommentSurvives` | src/Assembler/Assembler.php:61-64 | no preprocessed line contains `;` |
| `AssemblerSpec.LabelSplit` | src/Assembler/Assembler.php:106 | a label line splits into a non-empty run of word characters, a colon and the rest |
| `AssemblerSpec.FirstSpace` | src/Assembler/Assembler.php:125 | the mnemonic ends at the first white-space character or at the end of the line |
| `AssemblerSpec.AddressingMode` | src/Assembler/Assembler.php:158-220 | the mode is Implied exactly when the operand is empty, and Relative only for a branch mnemonic with an identifier operand |
| `AssemblerSpec.ParseOperand` | src/Assembler/Assembler.php:271-324 | a label operand yields 0 and records a reference at the byte after the opcode with the mode, the line and size 2 for Absolute modes (1 otherwise); anything unparsable fails |
| `AssemblerSpec.Emit` | src/Assembler/Assembler.php:262-268 | emitting bytes advances the address by their count and leaves labels and references alone |
| `AssemblerSpec.EmitWf` | src/Assembler/Assembler.php:262-268 | the program stays an ordered map with each address once |
| `AssemblerSpec.EmitKeeps` | src/Assembler/Assembler.php:262-268 | addresses outside the written range keep their bytes, and no address outside it appears |
| `AssemblerSpec.EmitPlaces` | src/Assembler/Assembler.php:262-268 | the i-th emitted byte lands at the start address plus i |
| `AssemblerSpec.EmitAppend` | src/Assembler/Assembler.php:262-268 | emitting two runs of bytes one after the other is emitting their concatenation |
| `AssemblerSpec.RemoveHexPrefixes` | src/Assembler/Assembler.php:241-243 | removing `0x` never lengthens the text |
| `AssemblerSpec.OpcodeValueOfKey` | src/Assembler/Assembler.php:239-243 | the number read back from a byte's `0x%02X` opcode text is that byte |
| `AssemblerSpec.OperandBytes` | src/Assembler/Assembler.php:250-259 | a 2-byte instruction carries the low byte of the operand and a 3-byte one its low and high bytes, little-endian |
| `AssemblerSpec.GenerateLayout` | src/Assembler/Assembler.php:237-269 | a generated instruction puts its opcode at the current address, its operand byte or little-endian word just after, and advances the address by its size |
| `AssemblerSpec.Quoted` | src/Assembler/Assembler.php:329 | a quoted operand splits into a quote-free text between the first two quotes and the rest |
| `AssemblerSpec.Codes` | src/Assembler/Assembler.php:334-337 | a string contributes one byte per character, the character's code |
| `AssemblerSpec.Number` | src/Assembler/Assembler.php:353-359 | a data value parses exactly when it is `$` followed by hex digits or a run of decimal digits |
| `AssemblerSpec.StringBytes` | src/Assembler/Assembler.php:329-337 | a quoted string alone emits its characters at consecutive addresses |
| `AssemblerSpec.DataBytesAsWrittenDropsZero` | src/Assembler/Assembler.php:340-345 | as written, a string followed by `,0` emits no terminating zero: the address stops right after the text and the byte there stays as it was |
| `AssemblerSpec.StringThenZeroAsWritten` | src/Assembler/Assembler.php:340-345 | as written, a string followed by `,0` emits only the string |
| `AssemblerSpec.StringThenMore` | src/Assembler/Assembler.php:340-345 | after a quoted string, a comma and more values, the values are processed as their own directive after the string |
| `AssemblerSpec.DataBytesKeepsZero` | src/Assembler/Assembler.php:340-345 | corrected, a string followed by `,0` emits the string and then a zero byte |
| `AssemblerSpec.StringThenZero` | src/Assembler/Assembler.php:340-345 | corrected, the `0` after the string is processed as a value of its own |
| `AssemblerSpec.ZeroDirective` | src/Assembler/Assembler.php:349-361 | the value list `0` emits a single zero byte |
| `AssemblerSpec.WordValue` | src/Assembler/Assembler.php:371-384 | a label in a word list yields 0 and records an Absolute size-2 reference at the word's own address with line 0 |
| `AssemblerSpec.WordListLayout` | src/Assembler/Assembler.php:365-394 | a word list advances the address by two per value, keeps labels and stores the first value little-endian at the start |
| `AssemblerSpec.WordListPlaces` | src/Assembler/Assembler.php:365-394 | every value of a word list, the i-th at the start address plus 2·i, is stored little-endian: low byte there, high byte after it |
| `AssemblerSpec.WordListKeepsBelow` | src/Assembler/Assembler.php:365-394 | a word list leaves every byte below its start address as it was |
| `AssemblerSpec.OriginSetsAddress` | src/Assembler/Assembler.php:100-103 | `* = $hhhh`, with any run of white space (or none) on either side of the `=`, sets the address to the hex value and changes nothing else |
| `AssemblerSpec.LabelBindsAddress` | src/Assembler/Assembler.php:106-116 | a label binds its name to the current address; with nothing after the colon that is the only change |
| `AssemblerSpec.InstructionKeepsLabels` | src/Assembler/Assembler.php:122-150 | an instruction or data line leaves the labels unchanged |
| `AssemblerSpec.DataBytesKeepsLabels` | src/Assembler/Assembler.php:326-363 | a byte directive leaves the labels unchanged |
| `AssemblerSpec.ByteListKeepsLabels` | src/Assembler/Assembler.php:349-362 | a byte list keeps the labels and advances the address by one per value |
| `AssemblerSpec.FirstPass` | src/Assembler/Assembler.php:81-95 | a failing first pass reports the number and text of one of its lines |
| `AssemblerSpec.Patch` | src/Assembler/Assembler.php:398-423 | patching a reference fails exactly when its label is undefined or a relative target is outside -128 to 127 |
| `AssemblerSpec.PatchPlaces` | src/Assembler/Assembler.php:405-421 | a resolved branch reference stores a byte that sign-extends, from the byte after it, back onto the label; other references store the label's low byte, or its low and high bytes |
| `AssemblerSpec.SecondPassFails` | src/Assembler/Assembler.php:396-424 | the second pass fails exactly when some pending reference cannot be resolved |
| `AssemblerSpec.AssembleFails` | src/Assembler/Assembler.php:22-34 | after a first pass that succeeds, assembling fails exactly when one of its references cannot be resolved, and otherwise yields the patched program |
| `AssemblerSpec.ListingLineCases` | src/Assembler/Assembler.php:439-465 | a known opcode lists as address, mnemonic and operand and moves on by its size; an unknown byte lists as `.BYTE $hh` and moves on by one |
| `AssemblerSpec.ListingStep` | src/Assembler/Assembler.php:436-466 | an address below the cursor is skipped; any other contributes its line, and listing goes on from where that line ends |
| `AssemblerSpec.DataByteListing` | src/Assembler/Assembler.php:463 | an unknown byte's line reads back as its address in hex, `: .BYTE $` and the byte in hex |
| `AssemblerSpec.RelativeListing` | src/Assembler/Assembler.php:494-496 | a relative operand prints as `*`, a sign and the decimal magnitude of the signed displacement |
| `AssemblerSpec.DollarForm` | src/Assembler/Assembler.php:209-219 | `$hh..` is Zero Page when its value is at most 0xFF and Absolute otherwise, and parses to its hex value |
| `AssemblerSpec.ImmediateForm` | src/Assembler/Assembler.php:165-166 | `#$hh` is Immediate and parses to its hex value |
| `AssemblerSpec.IndexedForm` | src/Assembler/Assembler.php:190-206 | `$hh..,X` and `$hh..,Y` are the indexed zero-page or absolute mode by value, and parse to the base value |
| `AssemblerSpec.IndirectForm` | src/Assembler/Assembler.php:175-177 | `($hhhh)` is Absolute Indirect and parses to its address |
| `AssemblerSpec.IndexedIndirectForm` | src/Assembler/Assembler.php:180-182 | `($hh,X)` is X-Indexed Zero Page Indirect and parses to the zero-page address |
| `AssemblerSpec.IndirectIndexedForm` | src/Assembler/Assembler.php:185-187 | `($hh),Y` is Zero Page Indirect Y-Indexed and parses to the zero-page address |
| `AssemblerSpec.OperandDigitsValue` | src/Assembler/Assembler.php:471-493 | the printed operand digits are hex and read back as the operand's value |
| `AssemblerSpec.OperandRoundTrip` | src/Assembler/Assembler.php:471-500 | the disassembler's operand text, read back by the assembler, classifies as the same mode and parses to the same value (absolute forms need a value of at least 0x100) |
| `AssemblerSpec.FramedOperand` | src/Assembler/Assembler.php:471-500 | any hex digits framed as a mode's operand classify as that mode and parse to their value |
| `Assembler.Assembler.constructor` | src/Assembler/Assembler.php:17-20 | a new assembler has the initial state over the given registry |
| `Assembler.Assembler.Reset` | src/Assembler/Assembler.php:46-52 | reset returns to the initial state |
| `Assembler.Assembler.PreprocessSource` | src/Assembler/Assembler.php:54-79 | the loop yields the preprocessed lines of the specification |
| `Assembler.Assembler.Write` | src/Assembler/Assembler.php:262-268 | writing bytes leaves the state `Emit` describes |
| `Assembler.Assembler.ParseOperand` | src/Assembler/Assembler.php:271-324 | parsing an operand returns the value or failure of `AssemblerSpec.ParseOperand` and appends its reference, changing nothing else |
| `Assembler.Assembler.GenerateInstruction` | src/Assembler/Assembler.php:237-269 | generating an instruction fails or reaches the state exactly as `AssemblerSpec.Generate` does |
| `Assembler.Assembler.ProcessDataByte` | src/Assembler/Assembler.php:326-363 | a byte directive fails or reaches the state exactly as `AssemblerSpec.DataBytes` does |
| `Assembler.Assembler.ProcessDataWord` | src/Assembler/Assembler.php:365-394 | a word directive fails or reaches the state exactly as `AssemblerSpec.WordList` does on the comma-separated values |
| `Assembler.Assembler.ProcessInstruction` | src/Assembler/Assembler.php:122-150 | an instruction line fails or reaches the state exactly as `AssemblerSpec.ProcessInstruction` does |
| `Assembler.Assembler.ProcessLine` | src/Assembler/Assembler.php:97-120 | a line fails or reaches the state exactly as `AssemblerSpec.ProcessLine` does |
| `Assembler.Assembler.FirstPass` | src/Assembler/Assembler.php:81-95 | the first pass fails or reaches the state exactly as `AssemblerSpec.FirstPass` does |
| `Assembler.Assembler.PatchReference` | src/Assembler/Assembler.php:399-422 | patching one reference changes only the program, exactly as `AssemblerSpec.Patch` does |
| `Assembler.Assembler.SecondPass` | src/Assembler/Assembler.php:396-424 | the second pass changes only the program, exactly as `AssemblerSpec.SecondPass` does |
| `Assembler.Assembler.Assemble` | src/Assembler/Assembler.php:22-34 | `assemble` returns the program or error of `AssemblerSpec.Assemble` |
| `Assembler.Assembler.GetLabels` | src/Assembler/Assembler.php:426-429 | returns the label table |
| `Assembler.Assembler.OperandBytesAt` | src/Assembler/Assembler.php:447-452 | collects the operand bytes present after the opcode |
| `Assembler.Assembler.ListingLine` | src/Assembler/Assembler.php:439-465 | produces the text and next address of `AssemblerSpec.ListingLine` |
| `Assembler.Assembler.OperandText` | src/Assembler/Assembler.php:455-458 | produces the operand suffix of `AssemblerSpec.OperandText` |
| `Assembler.Assembler.ListAt` | src/Assembler/Assembler.php:436-466 | one loop iteration contributes the lines the listing function puts before the rest |
| `Assembler.Assembler.Disassemble` | src/Assembler/Assembler.php:431-469 | `disassemble` returns the text of `AssemblerSpec.Disassemble` |
| `Hex.DigitValue` | src/Assembler/Assembler.php:228-229 | a character has a value exactly when it is a hex digit, and the value is below 16 |
| `Hex.Digit` | src/Assembler/Assembler.php:439 | the printed digit for d reads back as d and is upper case |
| `Hex.Hex2` | src/Assembler/Assembler.php:439 | `%02X` prints two hex digits that read back as the byte |
| `Hex.Hex4` | src/Assembler/Assembler.php:443 | `%04X` prints four hex digits that read back as the word |
| `Hex.OpcodeKey` | src/Assembler/Assembler.php:439 | a table key is `0x` followed by the byte's two digits and reads back as the byte |
| `Hex.OpcodeKeyInjective` | src/Assembler/Assembler.php:439-440 | two bytes share a table key exactly when they are equal |
| `Hex.Digits` | src/Assembler/Assembler.php:463 | `%X` prints upper-case digits that read back as the number, at most two for a byte and four for a word |
| `Hex.HexDecLeadingZeros` | src/Assembler/Assembler.php:229 | leading zeros do not change the value `hexdec` reads |
| `Hex.HexPad` | src/Assembler/Assembler.php:463 | zero-padded printing gives at least the width in upper-case digits that read back as the number |
| `Hex.HexPadByte` | src/Assembler/Assembler.php:439 | `%02X` of a byte is its two-digit form |
| `Text.TrimLeftKeepsSuffix` | src/Assembler/Assembler.php:225 | `ltrim` removes exactly the longest prefix of trimmed characters |
| `Text.TrimRightKeepsPrefix` | src/Assembler/Assembler.php:64 | right trimming removes exactly the longest suffix of trimmed characters |
| `Text.TrimIdempotent` | src/Assembler/Assembler.php:64 | trimming twice is trimming once |
| `Text.Upper` | src/Assembler/Assembler.php:126 | `strtoupper` changes exactly the lower-case ASCII letters to upper case |
| `Text.ExplodeJoin` | src/Assembler/Assembler.php:56 | joining the pieces of `explode` with the separator gives back the text, and no piece contains the separator |
| `Text.Decimal` | src/Assembler/Assembler.php:290 | printed decimal digits read back with `intval` as the number |
| `Text.SignedDecimal` | src/Assembler/Assembler.php:496 | `%+d` prints a sign that is `+` exactly for non-negative numbers, followed by digits that read back as the magnitude |

## Left out

- Demo and command-line scripts, console input and output, src/ConsoleIO.php, src/IOMemory.php and src/Peripherals/EnhancedConsole.php: these are terminal I/O.
- The `printf` and `echo` output of `execute`, src/MonitoredCPU.php and the reset demos: it is output only.
- The loop in src/MonitoredCPU.php:77-79 ends on `pc == startingPC`, which spins on a branch to itself. Only the retirement rule (the counter back at zero after a fetch) is modelled, in `EngineSpec.InstructionRetires`.
- `TextDisplay::refresh` draws ANSI escapes on the terminal and is left out. The display's redraw request flag and its tick counter are modelled.
- The tick counter in `TextDisplay::tick` is a function-static variable shared by every display. It is modelled as one counter per display, which `reset` keeps.
- `playTone`, `generateBeep` and `playNote` in the sound controller shell out to audio tools or use floating point. A control write is modelled as a register update only.
- The JSON file read of `InstructionRegistry::loadOpcodes` is outside the model. `Opcodes.InstructionRegistry.LoadOpcodes` takes the decoded file as a value.
- `Assembler::assembleFile` reads a file. `assemble` is modelled on the source text.
- Decimal (BCD) mode is not modelled. ADC and SBC compute in binary whatever D holds, as the handlers do.
- Peripherals are held by value in the bus, and the display and sound classes are proved against the same functions. Two references to one peripheral object, one registered on the bus and one kept by the caller, are not modelled.
- `Bus.SystemBus.Read` and `Bus.SystemBus.Write` test first whether an address lies outside both peripheral ranges. `Bus.ReadDispatch` and `Bus.WriteDispatch` prove this equal to the source's first-claimant loop.
- `execute` in src/CPU.php:31-64 also takes an operand string and builds an addressing mode from it through code that src/CPU.php elides. `EngineSpec.Execute` runs the handler on the operand at PC instead, and prints nothing.
- After an error, `step` leaves PC past the fetched byte and the counter at zero. What a caller does next (halt, reset) is not modelled.
- PHP's `hexdec` turns into a float above the integer range, and `intval` saturates. `Hex.HexDec` and `Text.IntVal` read digits of any length exactly.
- PHP's `ord` yields one byte per byte of a UTF-8 string. `AssemblerSpec.Codes` takes one code per character, so it agrees only on ASCII text.
- The assembler's regular expressions are written as character-class predicates over whole strings. PHP's `$` also matching before a final line feed is not modelled; lines never contain one after `explode`.
- `generateInstruction` keeps an opcode text not starting with `0x` as a string. `AssemblerSpec.OpcodeValue` reads every opcode text as hex, which agrees with the table, whose texts all start with `0x`.
- The `Assembler.Assembler` class invariant does not repeat that the program is a well-formed ordered map. That fact is proved on the specification side by `OrderedMaps.PutWf` and `AssemblerSpec.EmitWf`.
- FlowControlSpec.Jsr: its own contract states only SP and the cycle count. The full new state is stated by `FlowControlSpec.JsrShape`, and the return by `FlowControlSpec.JsrThenRts`.
- EngineSpec.Exec: src/CPU.php:19-29 registers a handler for LDA only and elides the rest of the class. The handler set of `step` (every mnemonic of the nine families, and NOP) is taken from what tests/BasicInstructionsTest.php, tests/ArithmeticInstructionsTest.php, tests/FlowControlTest.php and tests/MonitoredCPUTest.php:57-70 step through. `Engine.Dispatch` uses the same set.
- Bus.Peripheral: the bus admits two kinds of peripheral, the text display and the sound controller, where `SystemBus::addPeripheral` accepts any implementation of src/Bus/PeripheralInterface.php. `Bus.ReadDispatch`, `Bus.WriteDispatch`, the out-of-range shortcut of `Bus.SystemBus.Read` and `Bus.SystemBus.Write`, and `Bus.UnmappedUnclaimed` hold for these two kinds only. src/Peripherals/EnhancedConsole.php, a third kind, is terminal I/O.
- Assembler.Assembler.GetLabels: returns the label table as a map, without the order in which labels were defined. Only the demo scripts read that table.
- Mem.Memory.ReadByte, Mem.Memory.WriteByte, Bus.SystemBus.Read and Bus.SystemBus.Write: the source names the byte accessor two ways. src/Memory.php:25,31, src/MonitoredMemory.php:17,24 and src/BusMemoryBridge.php:19,24 define only `readByte`/`writeByte`. src/Bus/SystemBus.php:36,53 and the Arithmetic, Logic, ShiftRotate and IncDec handlers call `read_byte`/`write_byte`, and src/Instructions/LoadStore.php:18,30 calls `readByte`/`writeByte`. The inline bridge of src/EnhancedCPU.php:48-56 overrides only `read_byte`/`write_byte`. As written, a `read_byte` call on a plain `Memory` has no method to reach, and under `EnhancedCPU` the load and store handlers would read the bridge's own array instead of the bus. The model identifies the two names as one access, and every handler's access goes through the bus. It does not model either failure.
- Machine.ResolveXIndirect, Machine.ResolveIndirectY, Cpu.CPU.XIndirectAddress and Cpu.CPU.IndirectYAddress: the zero-page pointer's high byte is read from within page 0, so pointer 0xFF pairs with 0x00, as on the 6502. The code that resolves these modes is in the part of src/CPU.php that is elided (line 102), and tests/CPUTest.php:266-290 use pointers that do not reach 0xFF. This wrap is a modelling choice, not taken from the source.
- FlowControlSpec.Brk, FlowControl.Brk: BRK fetches its vector with `getMemory()->read_word(0xFFFE)` (src/Instructions/FlowControl.php:101), but the memory classes define only `readWord` (src/Memory.php:37, src/MonitoredMemory.php:30). As written, BRK has no method to reach. The model identifies `read_word` with `readWord` and reads the little-endian word at 0xFFFE; it does not model the failure.
- EngineSpec.Step: its contract compares registers, flags and memory but not peripherals. Peripheral state after a tick is stated by `EngineSpec.Ticked` and `Bus.TickAll`.

## Findings

| source | as written | input that shows it | evidently intended | confidence | as-written member | corrected member |
|---|---|---|---|---|---|---|
| src/Instructions/FlowControl.php:78-85 | `rts` sets PC to the pulled word plus one with no 16-bit mask | a stack holding the return address 0xFFFF: PC becomes 0x10000 | PC wraps to 0x0000, as every other PC update in the CPU does | not executed | `FlowControlSpec.RtsAsWrittenLeavesWordRange` | `FlowControlSpec.Rts` (with `FlowControlSpec.JsrThenRts`) |
| src/CPU.php:33 | `execute` builds its key with `ltrim($opcode, '0x')`, which strips every leading `0` and `x` character, not the prefix | the text "0x0A" (ASL A) becomes "0xA", and "0x00" (BRK) becomes "0x"; neither is a table key | the `0x` prefix added once, so every byte's key is found | not executed | `EngineSpec.ExecuteKeyAsWrittenLosesZeroDigit` | `EngineSpec.ExecuteKeyFindsEveryByte` |
| src/Assembler/Assembler.php:340-345 | after a quoted string, the rest of a `.BYTE` line is processed only if it is not `empty()`, and PHP's `empty("0")` is true | `.BYTE "HI",0` emits H and I but no terminating zero | the zero after the string is emitted | not executed | `AssemblerSpec.DataBytesAsWrittenDropsZero` | `AssemblerSpec.DataBytesKeepsZero` |

/** The CPU object: its registers are fields, the status register is an
    object of its own, and every memory access goes through the system bus.
    Each method is proved to change the fields exactly as the corresponding
    function on `Machine.State` says. */
module Cpu {
  import opened Bits
  import opened Status
  import opened Mem
  import opened Monitor
  import opened Bus
  import opened Opcodes
  import M = Machine

  class CPU {
    var a: Byte
    var x: Byte
    var y: Byte
    var sp: Byte
    var pc: Word
    /** Cycles left of the instruction in flight. */
    var cycles: int
    const status: StatusRegister
    const bus: SystemBus
    const registry: InstructionRegistry

    ghost predicate Valid()
      reads this, bus, bus.memory, bus.memory.monitor, registry
    {
      bus.Valid() && registry.Valid()
    }

    /** Registers, flags and bus contents as one value. */
    function State(): M.State
      reads this, status, bus, bus.memory
    {
      M.State(a, x, y, sp, pc, status.flags, bus.Data())
    }

    /** A new CPU starts from zeroed registers and a fresh status register
        and runs the deterministic reset at once, so it comes up with PC
        taken from the reset vector, SP at 0xFD, A, X and Y cleared and only
        I and U set in the status register. */
    constructor(bus: SystemBus, registry: InstructionRegistry)
      requires bus.Valid() && registry.Valid()
      modifies bus.memory.monitor
      ensures Valid() && fresh(status)
      ensures this.bus == bus && this.registry == registry
      ensures State() == M.Reset(M.State(0, 0, 0, 0, 0, 0x20, old(bus.Data())), false)
      ensures a == 0 && x == 0 && y == 0 && sp == 0xFD && cycles == 0
      ensures pc == M.ReadWord(State(), M.RESET_VECTOR)
      ensures status.flags == 0x24
    {
      a, x, y, sp, pc, cycles := 0, 0, 0, 0, 0, 0;
      status := new StatusRegister();
      this.bus := bus;
      this.registry := registry;
      new;
      Reset(false);
    }

    /** The register setters keep the low eight bits: 0x100 is stored as 0. */
    method SetAccumulator(value: int)
      modifies this
      ensures State() == old(State()).(a := Lo8(value)) && cycles == old(cycles)
    {
      a := Lo8(value);
    }

    method SetRegisterX(value: int)
      modifies this
      ensures State() == old(State()).(x := Lo8(value)) && cycles == old(cycles)
    {
      x := Lo8(value);
    }

    method SetRegisterY(value: int)
      modifies this
      ensures State() == old(State()).(y := Lo8(value)) && cycles == old(cycles)
    {
      y := Lo8(value);
    }

    method ReadByte(address: int) returns (v: Byte)
      requires Valid()
      modifies bus.memory.monitor
      ensures Valid()
      ensures v == M.Read(old(State()), address)
      ensures State() == old(State())
    {
      v := bus.Read(address);
    }

    method WriteByte(address: int, value: int)
      requires Valid()
      modifies bus, bus.memory, bus.memory.monitor
      ensures Valid()
      ensures State() == M.Write(old(State()), address, value)
    {
      bus.Write(address, value);
    }

    method ReadWord(address: int) returns (w: Word)
      requires Valid()
      modifies bus.memory.monitor
      ensures Valid()
      ensures w == M.ReadWord(old(State()), address)
      ensures State() == old(State())
    {
      var low := ReadByte(address);
      var high := ReadByte(address + 1);
      w := (high as int) * 256 + low;
    }

    method ReadPageWord(ptr: Word) returns (w: Word)
      requires Valid()
      modifies bus.memory.monitor
      ensures Valid()
      ensures w == M.PageWord(old(State()), ptr)
      ensures State() == old(State())
    {
      var low := ReadByte(ptr);
      var high := ReadByte((ptr / 256) * 256 + Lo8(ptr as int + 1));
      w := (high as int) * 256 + low;
    }

    /** `getAddress`: consumes the operand bytes at PC and returns the
        effective address. */
    method GetAddress(mode: Mode) returns (address: Word)
      requires Valid()
      modifies this, bus.memory.monitor
      ensures Valid()
      ensures address == M.Resolve(old(State()), mode).address
      ensures State() == old(State()).(pc := M.Resolve(old(State()), mode).next)
      ensures cycles == old(cycles)
    {
      match mode
      case Immediate =>
        address := pc;
        pc := Lo16(pc + 1);
      case ZeroPage | XIndexedZeroPage | YIndexedZeroPage | Relative =>
        address := ZeroPageAddress(mode);
      case Absolute | XIndexedAbsolute | YIndexedAbsolute =>
        address := AbsoluteAddress(mode);
      case AbsoluteIndirect =>
        address := AbsoluteIndirectAddress();
      case XIndexedZeroPageIndirect =>
        address := XIndirectAddress();
      case ZeroPageIndirectYIndexed =>
        address := IndirectYAddress();
      case Implied | Accumulator | Unknown =>
        address := 0;
    }

    method ZeroPageAddress(mode: Mode) returns (address: Word)
      requires Valid() && mode in {ZeroPage, XIndexedZeroPage, YIndexedZeroPage, Relative}
      modifies this, bus.memory.monitor
      ensures Valid()
      ensures address == M.Resolve(old(State()), mode).address
      ensures State() == old(State()).(pc := M.Resolve(old(State()), mode).next)
      ensures cycles == old(cycles)
    {
      var base := ReadByte(pc);
      address := if mode == XIndexedZeroPage then Lo8(base as int + x)
        else if mode == YIndexedZeroPage then Lo8(base as int + y)
        else base;
      pc := Lo16(pc + 1);
    }

    method AbsoluteAddress(mode: Mode) returns (address: Word)
      requires Valid() && mode in {Absolute, XIndexedAbsolute, YIndexedAbsolute}
      modifies this, bus.memory.monitor
      ensures Valid()
      ensures address == M.Resolve(old(State()), mode).address
      ensures State() == old(State()).(pc := M.Resolve(old(State()), mode).next)
      ensures cycles == old(cycles)
    {
      var base := ReadWord(pc);
      address := if mode == XIndexedAbsolute then Lo16(base as int + x)
        else if mode == YIndexedAbsolute then Lo16(base as int + y)
        else base;
      pc := Lo16(pc + 2);
    }

    /** Absolute Indirect: the indirect address is the word at PC; the target is read
        from it without carrying into the next page. */
    method AbsoluteIndirectAddress() returns (address: Word)
      requires Valid()
      modifies this, bus.memory.monitor
      ensures Valid()
      ensures address == M.Resolve(old(State()), AbsoluteIndirect).address
      ensures State() == old(State()).(pc := M.Resolve(old(State()), AbsoluteIndirect).next)
      ensures cycles == old(cycles)
    {
      M.ResolveAbsoluteIndirect(State());
      var ptr := ReadWord(pc);
      address := ReadPageWord(ptr);
      pc := Lo16(pc + 2);
    }

    /** (Indirect,X): the zero-page pointer is the byte at PC plus X, within
        page 0. */
    method XIndirectAddress() returns (address: Word)
      requires Valid()
      modifies this, bus.memory.monitor
      ensures Valid()
      ensures address == M.Resolve(old(State()), XIndexedZeroPageIndirect).address
      ensures State() == old(State()).(pc := M.Resolve(old(State()), XIndexedZeroPageIndirect).next)
      ensures cycles == old(cycles)
    {
      ghost var s := State();
      var zp := ReadByte(pc);
      assert zp == M.Read(s, s.pc);
      assert x == s.x;
      var ptr := Lo8(zp as int + x);
      assert ptr == Lo8(M.Read(s, s.pc) + s.x);
      address := ReadPageWord(ptr);
      assert address == M.PageWord(s, ptr);
      pc := Lo16(pc + 1);
      M.ResolveXIndirect(s);
    }

    /** (Indirect),Y: the word at the zero-page byte at PC, plus Y. */
    method IndirectYAddress() returns (address: Word)
      requires Valid()
      modifies this, bus.memory.monitor
      ensures Valid()
      ensures address == M.Resolve(old(State()), ZeroPageIndirectYIndexed).address
      ensures State() == old(State()).(pc := M.Resolve(old(State()), ZeroPageIndirectYIndexed).next)
      ensures cycles == old(cycles)
    {
      M.ResolveIndirectY(State());
      var zp := ReadByte(pc);
      var base := ReadPageWord(zp);
      address := Lo16(base as int + y);
      pc := Lo16(pc + 1);
    }

    /** `getAddress` followed by a read of the byte there, as every handler
        with a memory operand begins. */
    method ReadOperand(mode: Mode) returns (value: Byte)
      requires Valid()
      modifies this, bus.memory.monitor
      ensures Valid()
      ensures value == M.Fetched(old(State()), mode)
      ensures State() == M.Past(old(State()), mode) && cycles == old(cycles)
    {
      var address := GetAddress(mode);
      value := ReadByte(address);
    }

    method PushByte(value: int)
      requires Valid()
      modifies this, bus, bus.memory, bus.memory.monitor
      ensures Valid()
      ensures State() == M.Push(old(State()), value) && cycles == old(cycles)
    {
      bus.Write(STACK_START + sp, value);
      sp := Lo8(sp - 1);
    }

    method PullByte() returns (v: Byte)
      requires Valid()
      modifies this, bus.memory.monitor
      ensures Valid()
      ensures (v, State()) == M.Pull(old(State())) && cycles == old(cycles)
    {
      sp := Lo8(sp + 1);
      v := ReadByte(STACK_START + sp);
    }

    method PushWord(value: int)
      requires Valid()
      modifies this, bus, bus.memory, bus.memory.monitor
      ensures Valid()
      ensures State() == M.PushWord(old(State()), value) && cycles == old(cycles)
    {
      PushByte(HighByte(value));
      PushByte(Lo8(value));
    }

    method PullWord() returns (w: Word)
      requires Valid()
      modifies this, bus.memory.monitor
      ensures Valid()
      ensures (w, State()) == M.PullWord(old(State())) && cycles == old(cycles)
    {
      var low := PullByte();
      var high := PullByte();
      w := (high as int) * 256 + low;
    }

    /** `reset` (deterministic) and `accurateReset`: seven bus reads, then
        the new PC, SP and flags. When memory is monitored and no peripheral
        serves PC or PC+1, the log gains exactly the seven reads in order. */
    method Reset(accurate: bool)
      requires Valid()
      modifies this, status, bus.memory.monitor
      ensures Valid()
      ensures State() == M.Reset(old(State()), accurate)
      ensures cycles == 0
      ensures (bus.memory.monitor != null &&
        M.Unclaimed(old(State()), old(pc)) && M.Unclaimed(old(State()), old(pc) + 1)) ==>
        bus.memory.monitor.busActivity ==
          old(bus.memory.monitor.busActivity) + M.ResetTrace(old(State()), old(bus.memory.monitor.cycleCount))
    {
      var vector := ResetSequence();
      LoadReset(vector, accurate);
    }

    /** The register half of reset, once the vector has been read. */
    method LoadReset(vector: Word, accurate: bool)
      requires Valid()
      requires vector == M.ReadWord(State(), M.RESET_VECTOR)
      modifies this, status
      ensures Valid()
      ensures State() == M.Reset(old(State()), accurate)
      ensures cycles == 0
    {
      sp := M.RESET_SP;
      pc := vector;
      cycles := 0;
      if !accurate {
        a, x, y := 0, 0, 0;
        status.FromInt(0);
      }
      status.Set(INTERRUPT_DISABLE, true);
      status.Set(UNUSED, true);
    }

    /** A bus read seen from the CPU: the byte the model reads, and the
        entry a monitored memory appends when no peripheral claims the address. */
    method LoggedRead(address: int) returns (v: Byte)
      requires Valid()
      modifies bus.memory.monitor
      ensures Valid()
      ensures v == M.Read(old(State()), address)
      ensures State() == old(State())
      ensures bus.memory.monitor != null ==> bus.memory.monitor.cycleCount == old(bus.memory.monitor.cycleCount)
      ensures (bus.memory.monitor != null && M.Unclaimed(State(), address)) ==>
        bus.memory.monitor.busActivity ==
          old(bus.memory.monitor.busActivity) + [M.ReadEntry(State(), bus.memory.monitor.cycleCount, address)]
    {
      v := bus.Read(address);
    }

    /** The first two discarded reads of the reset sequence, at PC and PC + 1. */
    method ResetPcReads(ghost s: M.State, ghost c: int)
      requires Valid() && State() == s
      requires bus.memory.monitor != null ==> bus.memory.monitor.cycleCount == c
      modifies bus.memory.monitor
      ensures Valid() && State() == s
      ensures bus.memory.monitor != null ==> bus.memory.monitor.cycleCount == c
      ensures (bus.memory.monitor != null && M.Unclaimed(s, s.pc) && M.Unclaimed(s, s.pc + 1)) ==>
        bus.memory.monitor.busActivity == old(bus.memory.monitor.busActivity) + M.PcTrace(s, c)
    {
      var _ := LoggedRead(pc);
      var _ := LoggedRead(pc + 1);
    }

    /** The three discarded stack reads of the reset sequence, below SP. */
    method ResetStackReads(ghost s: M.State, ghost c: int)
      requires Valid() && State() == s
      requires bus.memory.monitor != null ==> bus.memory.monitor.cycleCount == c
      modifies bus.memory.monitor
      ensures Valid() && State() == s
      ensures bus.memory.monitor != null ==> bus.memory.monitor.cycleCount == c
      ensures bus.memory.monitor != null ==>
        bus.memory.monitor.busActivity == old(bus.memory.monitor.busActivity) + M.StackTrace(s, c)
    {
      ghost var mon := bus.memory.monitor;
      ghost var log := if mon != null then mon.busActivity else [];
      var a1, a2, a3 := STACK_START + Lo8(sp - 1), STACK_START + Lo8(sp - 2), STACK_START + Lo8(sp - 3);
      ghost var e1, e2, e3 := M.ReadEntry(s, c, a1), M.ReadEntry(s, c, a2), M.ReadEntry(s, c, a3);
      PlainRead(s, c, a1);
      PlainRead(s, c, a2);
      assert mon != null ==> mon.busActivity == log + [e1, e2];
      PlainRead(s, c, a3);
      assert mon != null ==> mon.busActivity == log + [e1, e2, e3];
    }

    /** A discarded read of an address below the peripheral window: the log
        gains its entry and nothing else changes. */
    method PlainRead(ghost s: M.State, ghost c: int, address: int)
      requires Valid() && State() == s && 0 <= address < Display.DISPLAY_BASE
      requires bus.memory.monitor != null ==> bus.memory.monitor.cycleCount == c
      modifies bus.memory.monitor
      ensures Valid() && State() == s
      ensures bus.memory.monitor != null ==> bus.memory.monitor.cycleCount == c
      ensures bus.memory.monitor != null ==>
        bus.memory.monitor.busActivity == old(bus.memory.monitor.busActivity) + [M.ReadEntry(s, c, address)]
    {
      UnmappedUnclaimed(s.bus.devices, Lo16(address));
      var _ := LoggedRead(address);
    }

    /** The last two reads of the reset sequence fetch the reset vector. */
    method ResetVectorRead(ghost s: M.State, ghost c: int) returns (vector: Word)
      requires Valid() && State() == s
      requires bus.memory.monitor != null ==> bus.memory.monitor.cycleCount == c
      modifies bus.memory.monitor
      ensures Valid() && State() == s
      ensures vector == M.ReadWord(s, M.RESET_VECTOR)
      ensures bus.memory.monitor != null ==> bus.memory.monitor.cycleCount == c
      ensures bus.memory.monitor != null ==>
        bus.memory.monitor.busActivity == old(bus.memory.monitor.busActivity) + M.VectorTrace(s, c)
    {
      assert M.Unclaimed(s, M.RESET_VECTOR) && M.Unclaimed(s, M.RESET_VECTOR + 1) by {
        UnmappedUnclaimed(s.bus.devices, M.RESET_VECTOR);
        UnmappedUnclaimed(s.bus.devices, M.RESET_VECTOR + 1);
      }
      var low := LoggedRead(M.RESET_VECTOR);
      var high := LoggedRead(M.RESET_VECTOR + 1);
      vector := (high as int) * 256 + low;
    }

    /** The seven reads of the reset sequence; returns the reset vector. */
    method ResetSequence() returns (vector: Word)
      requires Valid()
      modifies bus.memory.monitor
      ensures Valid()
      ensures vector == M.ReadWord(State(), M.RESET_VECTOR)
      ensures (bus.memory.monitor != null &&
        M.Unclaimed(State(), pc) && M.Unclaimed(State(), pc + 1)) ==>
        bus.memory.monitor.busActivity ==
          old(bus.memory.monitor.busActivity) + M.ResetTrace(State(), old(bus.memory.monitor.cycleCount))
    {
      ghost var s := State();
      ghost var c := if bus.memory.monitor != null then bus.memory.monitor.cycleCount else 0;
      ResetPcReads(s, c);
      ResetStackReads(s, c);
      vector := ResetVectorRead(s, c);
    }
  }
}

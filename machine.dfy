/** The processor as a value: registers, status word and the bus it runs
    on. Every instruction is specified as a function from one such value to
    the next; the CPU class and the instruction handlers are proved to
    change their fields exactly as these functions say. */
module Machine {
  import opened Bits
  import opened Status
  import opened Mem
  import opened Bus
  import opened Opcodes
  import opened Monitor

  const RESET_VECTOR := 0xFFFC
  const IRQ_VECTOR := 0xFFFE
  /** The stack pointer every reset installs. */
  const RESET_SP: Byte := 0xFD

  /** Accumulator, index registers, stack pointer, program counter, status
      word and the bus (memory contents plus peripheral states). */
  datatype State = State(a: Byte, x: Byte, y: Byte, sp: Byte, pc: Word, p: bv8, bus: BusState)

  /** What an instruction leaves behind: the new state and the cycles it
      reports. */
  datatype Outcome = Outcome(m: State, cycles: int)

  function Read(m: State, address: int): Byte
  {
    Peek(m.bus, address)
  }

  function Write(m: State, address: int, value: int): State
  {
    m.(bus := Poke(m.bus, address, value))
  }

  /** A little-endian word; the high byte's address wraps past 0xFFFF. */
  function ReadWord(m: State, address: int): Word
  {
    (Read(m, address + 1) as int) * 256 + Read(m, address)
  }

  /** A little-endian word whose high byte is fetched from the same page
      as its low byte: `(ptr & 0xFF00) | ((ptr + 1) & 0xFF)`. */
  function PageWord(m: State, ptr: Word): Word
  {
    var high := (ptr / 256) * 256 + Lo8(ptr + 1);
    (Read(m, high) as int) * 256 + Read(m, ptr)
  }

  /** Zero and Negative from a result byte, every other flag kept. */
  function SetZN(p: bv8, v: Byte): (r: bv8)
    ensures ZN(r, v) && Keeps(p, r, {ZERO, NEGATIVE})
  {
    With(With(p, ZERO, v == 0), NEGATIVE, Bit7(v))
  }

  /** Zero and Negative describe the byte `v`. */
  predicate ZN(p: bv8, v: Byte)
  {
    (Has(p, ZERO) <==> v == 0) && (Has(p, NEGATIVE) <==> Bit7(v))
  }

  /** Every flag outside `fs` has the same value in `p` and `q`. */
  predicate Keeps(p: bv8, q: bv8, fs: set<Flag>)
  {
    forall f: Flag :: f !in fs ==> Has(q, f) == Has(p, f)
  }

  /** Setting one flag keeps every other. */
  lemma WithKeeps(p: bv8, f: Flag, v: bool)
    ensures Has(With(p, f, v), f) == v && Keeps(p, With(p, f, v), {f})
  {
  }

  /** The three data registers, as the handlers name them. */
  datatype Reg = A | X | Y

  function RegValue(m: State, r: Reg): Byte
  {
    match r
    case A => m.a
    case X => m.x
    case Y => m.y
  }

  function WithReg(m: State, r: Reg, v: Byte): (n: State)
    ensures RegValue(n, r) == v
  {
    match r
    case A => m.(a := v)
    case X => m.(x := v)
    case Y => m.(y := v)
  }

  /** How many operand bytes follow the opcode in each mode. */
  function OperandBytes(mode: Mode): nat
  {
    match mode
    case Absolute | XIndexedAbsolute | YIndexedAbsolute | AbsoluteIndirect => 2
    case Immediate | ZeroPage | XIndexedZeroPage | YIndexedZeroPage => 1
    case XIndexedZeroPageIndirect | ZeroPageIndirectYIndexed | Relative => 1
    case Implied | Accumulator | Unknown => 0
  }

  /** An operand location and the program counter after the operand. */
  datatype Operand = Operand(address: Word, next: Word)

  /** `getAddress`: the effective address an addressing mode designates,
      with the program counter moved past the operand bytes. Relative mode
      yields the raw offset byte; modes without an operand yield 0. */
  function Resolve(m: State, mode: Mode): (r: Operand)
    ensures r.next == Lo16(m.pc + OperandBytes(mode))
    ensures mode in {ZeroPage, XIndexedZeroPage, YIndexedZeroPage, Relative} ==> r.address < 256
    ensures mode in {Implied, Accumulator, Unknown} ==> r.address == 0
  {
    var pc := m.pc;
    match mode
    case Immediate => Operand(pc, Lo16(pc + 1))
    case ZeroPage => Operand(Read(m, pc), Lo16(pc + 1))
    case XIndexedZeroPage => Operand(Lo8(Read(m, pc) + m.x), Lo16(pc + 1))
    case YIndexedZeroPage => Operand(Lo8(Read(m, pc) + m.y), Lo16(pc + 1))
    case Absolute => Operand(ReadWord(m, pc), Lo16(pc + 2))
    case XIndexedAbsolute => Operand(Lo16(ReadWord(m, pc) + m.x), Lo16(pc + 2))
    case YIndexedAbsolute => Operand(Lo16(ReadWord(m, pc) + m.y), Lo16(pc + 2))
    case AbsoluteIndirect => Operand(PageWord(m, ReadWord(m, pc)), Lo16(pc + 2))
    case XIndexedZeroPageIndirect => Operand(PageWord(m, Lo8(Read(m, pc) + m.x)), Lo16(pc + 1))
    case ZeroPageIndirectYIndexed => Operand(Lo16(PageWord(m, Read(m, pc)) + m.y), Lo16(pc + 1))
    case Relative => Operand(Read(m, pc), Lo16(pc + 1))
    case Implied | Accumulator | Unknown => Operand(0, pc)
  }

  /** The indirect modes one by one, as the CPU resolves them. */
  lemma ResolveAbsoluteIndirect(m: State)
    ensures Resolve(m, AbsoluteIndirect) == Operand(PageWord(m, ReadWord(m, m.pc)), Lo16(m.pc as int + 2))
  {
  }

  lemma ResolveXIndirect(m: State)
    ensures Resolve(m, XIndexedZeroPageIndirect) == Operand(PageWord(m, Lo8(Read(m, m.pc) + m.x)), Lo16(m.pc as int + 1))
  {
  }

  lemma ResolveIndirectY(m: State)
    ensures Resolve(m, ZeroPageIndirectYIndexed) == Operand(Lo16(PageWord(m, Read(m, m.pc)) + m.y), Lo16(m.pc as int + 1))
  {
  }

  /** The effective address of the operand. */
  function Target(m: State, mode: Mode): Word
  {
    Resolve(m, mode).address
  }

  /** The byte at the effective address. */
  function Fetched(m: State, mode: Mode): Byte
  {
    Read(m, Target(m, mode))
  }

  /** The state with PC moved past the operand bytes. */
  function Past(m: State, mode: Mode): (r: State)
    ensures r == m.(pc := Lo16(m.pc + OperandBytes(mode)))
  {
    m.(pc := Resolve(m, mode).next)
  }

  /** Absolute addressing reads the operand little-endian: low byte first. */
  lemma AbsoluteIsLittleEndian(m: State)
    ensures Resolve(m, Absolute).address == Read(m, m.pc) + 256 * Read(m, m.pc + 1)
    ensures Resolve(m, Immediate).address == m.pc
  {
  }

  /** The indirect-jump page bug: a pointer at the last byte of a page takes
      its high byte from the first byte of that same page. Away from a page
      end, a pointer is an ordinary little-endian word. */
  lemma IndirectPageBug(m: State)
    ensures var ptr := ReadWord(m, m.pc);
      Lo8(ptr) == 0xFF ==>
        Resolve(m, AbsoluteIndirect).address == Read(m, ptr) + 256 * Read(m, ptr - 0xFF)
    ensures var ptr := ReadWord(m, m.pc);
      Lo8(ptr) != 0xFF ==>
        Resolve(m, AbsoluteIndirect).address == Read(m, ptr) + 256 * Read(m, ptr + 1)
  {
    var ptr := ReadWord(m, m.pc);
    assert Resolve(m, AbsoluteIndirect).address == PageWord(m, ptr);
    PageHigh(ptr);
  }

  /** Where `PageWord` fetches its high byte from. */
  lemma PageHigh(ptr: Word)
    ensures Lo8(ptr) == 0xFF ==> (ptr / 256) * 256 + Lo8(ptr + 1) == ptr - 0xFF
    ensures Lo8(ptr) != 0xFF ==> (ptr / 256) * 256 + Lo8(ptr + 1) == ptr + 1
  {
    var q := ptr / 256;
    var r := ptr % 256;
    assert ptr == q * 256 + r;
    assert (ptr + 1) % 256 == (if r == 255 then 0 else r + 1);
  }

  /** Indexed zero-page addressing wraps inside page 0 and never reaches
      page 1: base 0xFF plus index 0x10 is 0x0F. */
  lemma ZeroPageIndexWraps(m: State)
    ensures Read(m, m.pc) + m.x >= 256 ==>
      Resolve(m, XIndexedZeroPage).address == Read(m, m.pc) + m.x - 256
    ensures Read(m, m.pc) + m.y >= 256 ==>
      Resolve(m, YIndexedZeroPage).address == Read(m, m.pc) + m.y - 256
  {
  }

  /** `pushByte`: store at 0x0100 + SP, then SP decreases, wrapping in 8 bits. */
  function Push(m: State, value: int): (r: State)
    ensures r.sp == Lo8(m.sp - 1)
  {
    Write(m, STACK_START + m.sp, value).(sp := Lo8(m.sp - 1))
  }

  /** `pullByte`: SP increases, wrapping in 8 bits, then 0x0100 + SP is read. */
  function Pull(m: State): (r: (Byte, State))
    ensures r.1 == m.(sp := Lo8(m.sp + 1))
  {
    var sp := Lo8(m.sp + 1);
    (Read(m, STACK_START + sp), m.(sp := sp))
  }

  /** `pushWord`: the high byte first, then the low byte. */
  function PushWord(m: State, value: int): (r: State)
    ensures r.sp == Lo8(m.sp - 2)
  {
    Push(Push(m, HighByte(value)), Lo8(value))
  }

  /** `pullWord`: the low byte first, then the high byte. */
  function PullWord(m: State): (r: (Word, State))
    ensures r.1 == m.(sp := Lo8(m.sp + 2))
  {
    var low := Pull(m);
    var high := Pull(low.1);
    ((high.0 as int) * 256 + low.0, high.1)
  }

  /** Plain memory reads back what was written, cut to 8 bits, and a write
      there leaves every other address and every peripheral alone. */
  lemma WriteReadBack(m: State, address: int, v: int, other: int)
    requires Unclaimed(m, address)
    ensures Read(Write(m, address, v), address) == Lo8(v)
    ensures Lo16(other) != Lo16(address) ==> Read(Write(m, address, v), other) == Read(m, other)
    ensures Write(m, address, v).bus.devices == m.bus.devices
  {
    UnclaimedReadBack(m.bus, address, v, other);
  }

  /** A byte written into plain memory, seen from any state that carries
      the written bus: it reads back, every other address reads as it did
      in `m` (which shares the bus the write started from), and the address
      stays unclaimed. */
  lemma WriteOver(m: State, n: State, r: State, address: Word, v: Byte, other: int)
    requires n.bus == m.bus && r.bus == Write(n, address, v).bus && Unclaimed(m, address)
    ensures Read(r, address) == v
    ensures Lo16(other) != address ==> Read(r, other) == Read(m, other)
    ensures Unclaimed(r, address)
  {
    assert Lo16(address) == address;
    assert Lo8(v) == v;
    WriteReadBack(n, address, v, other);
  }

  /** The stack page is plain memory: no peripheral claims it, so a byte
      written there reads back cut to 8 bits and the other stack cells keep
      their contents. */
  lemma StackCell(m: State, sp: Byte, v: int, other: Byte)
    ensures Read(Write(m, STACK_START + sp, v), STACK_START + sp) == Lo8(v)
    ensures other != sp ==> Read(Write(m, STACK_START + sp, v), STACK_START + other) == Read(m, STACK_START + other)
  {
    UnmappedUnclaimed(m.bus.devices, STACK_START + sp);
    UnclaimedReadBack(m.bus, STACK_START + sp, v, STACK_START + other);
  }

  /** A pull returns the byte the last push stored (cut to 8 bits) and puts
      SP back; of the whole state only that stack cell has changed. */
  lemma PushThenPull(m: State, v: int)
    ensures Pull(Push(m, v)).0 == Lo8(v)
    ensures Pull(Push(m, v)).1 == Write(m, STACK_START + m.sp, v)
  {
    SpRoundTrip(m.sp);
    StackCell(m, m.sp, v, m.sp);
  }

  /** Words are last in, first out too: `pullWord` after `pushWord` gives
      the word back (cut to 16 bits) and puts SP back, and the rest of the
      state other than the two stack cells is untouched. */
  lemma PushWordThenPullWord(m: State, v: int)
    ensures PullWord(PushWord(m, v)).0 == Lo16(v)
    ensures PullWord(PushWord(m, v)).1 ==
      Write(Write(m, STACK_START + m.sp, HighByte(v)), STACK_START + Lo8(m.sp - 1), Lo8(v))
  {
    var m1 := Push(m, HighByte(v));
    var m2 := PushWord(m, v);
    var w := Write(m1, STACK_START + Lo8(m.sp - 1), Lo8(v));
    assert m2 == Push(m1, Lo8(v));
    assert m1.sp == Lo8(m.sp - 1);
    assert Lo8(Lo8(v)) == Lo8(v);
    PushThenPull(m1, Lo8(v));
    assert Pull(m2) == (Lo8(v), w);
    assert Pull(w) == (HighByte(v), w.(sp := m.sp)) by {
      assert w.sp == Lo8(m.sp - 1);
      PullReads(w, m.sp);
      PullSecond(m, v);
    }
    PullTwice(m2);
    WordSplit(v);
  }

  /** `pullWord` is two pulls, the second from where the first left SP. */
  lemma PullTwice(m: State)
    ensures PullWord(m) == ((Pull(Pull(m).1).0 as int) * 256 + Pull(m).0, Pull(Pull(m).1).1)
  {
  }

  /** A pull depends on nothing but the bus and SP. */
  lemma PullFrame(m: State, n: State)
    requires m.bus == n.bus && m.sp == n.sp
    ensures Pull(n).0 == Pull(m).0 && Pull(n).1.sp == Pull(m).1.sp && Pull(n).1.bus == Pull(m).1.bus
  {
  }

  lemma PullWordFrame(m: State, n: State)
    requires m.bus == n.bus && m.sp == n.sp
    ensures PullWord(n).0 == PullWord(m).0 && PullWord(n).1.sp == PullWord(m).1.sp
  {
    PullFrame(m, n);
    PullFrame(Pull(m).1, Pull(n).1);
  }

  /** The word part of `PushWordThenPullWord`. */
  lemma PushWordPullWord(m: State, v: int)
    ensures PullWord(PushWord(m, v)).0 == Lo16(v)
  {
    PushWordThenPullWord(m, v);
  }

  /** `pullWord` reads the two slots above SP, low byte first. */
  lemma PullWordReads(m: State)
    ensures var s1 := Lo8(m.sp as int + 1);
      PullWord(m).0 == Read(m, STACK_START + Lo8(s1 as int + 1)) as int * 256 + Read(m, STACK_START + s1)
  {
    var s1 := Lo8(m.sp as int + 1);
    assert Pull(m) == (Read(m, STACK_START + s1), m.(sp := s1));
    assert Pull(m.(sp := s1)).0 == Read(m, STACK_START + Lo8(s1 as int + 1));
    PullTwice(m);
  }

  /** A byte written at the free slot (0x0100 + SP) is below the word a
      pull of two bytes reads. */
  lemma PullWordSkipsFreeSlot(n: State, v: int)
    ensures PullWord(Write(n, STACK_START + n.sp, v)).0 == PullWord(n).0
  {
    var s1 := Lo8(n.sp as int + 1);
    AboveIsElsewhere(n.sp);
    CellsKept(n, v, s1, Lo8(s1 as int + 1));
    PullWordSame(n, Write(n, STACK_START + n.sp, v));
  }

  /** Two slots other than SP keep their bytes when the free slot is written. */
  lemma CellsKept(n: State, v: int, s1: Byte, s2: Byte)
    requires s1 != n.sp && s2 != n.sp
    ensures var w := Write(n, STACK_START + n.sp, v);
      w.sp == n.sp &&
      Read(w, STACK_START + s1) == Read(n, STACK_START + s1) &&
      Read(w, STACK_START + s2) == Read(n, STACK_START + s2)
  {
    StackCell(n, n.sp, v, s1);
    StackCell(n, n.sp, v, s2);
  }

  /** One and two slots above SP are not SP itself. */
  lemma AboveIsElsewhere(sp: Byte)
    ensures Lo8(sp as int + 1) != sp && Lo8(Lo8(sp as int + 1) as int + 1) != sp
  {
    Lo8Add(sp as int + 1, 1);
  }

  /** Two states with the same SP and the same two bytes above it pull the
      same word. */
  lemma PullWordSame(m: State, n: State)
    requires m.sp == n.sp
    requires var s1 := Lo8(m.sp as int + 1);
      Read(m, STACK_START + s1) == Read(n, STACK_START + s1) &&
      Read(m, STACK_START + Lo8(s1 as int + 1)) == Read(n, STACK_START + Lo8(s1 as int + 1))
    ensures PullWord(m).0 == PullWord(n).0
  {
    PullWordReads(m);
    PullWordReads(n);
  }

  /** The second pull of a word finds the high byte the first push stored. */
  lemma PullSecond(m: State, v: int)
    ensures Pull(Write(Push(m, HighByte(v)), STACK_START + Lo8(m.sp - 1), Lo8(v))).0 == HighByte(v)
  {
    var m1 := Push(m, HighByte(v));
    var w := Write(m1, STACK_START + Lo8(m.sp - 1), Lo8(v));
    var s := STACK_START + m.sp;
    LowerWriteKeeps(m1, m.sp, Lo8(v));
    PushedReadsBack(m, HighByte(v));
    assert Read(w, s) == HighByte(v);
    assert w.sp == Lo8(m.sp - 1);
    PullReads(w, m.sp);
  }

  /** A pull with SP one below `sp` reads slot `sp`. */
  lemma PullReads(w: State, sp: Byte)
    requires w.sp == Lo8(sp - 1)
    ensures Pull(w).0 == Read(w, STACK_START + sp)
    ensures Pull(w).1 == w.(sp := sp)
  {
    SpRoundTrip(sp);
  }

  /** A push fills the free stack cell 0x0100 + SP with the byte (cut to
      8 bits); every other address reads as before, the peripherals stay
      the same, and of the rest of the state only SP changes. */
  lemma PushContents(m: State, v: int)
    ensures Read(Push(m, v), STACK_START + m.sp) == Lo8(v)
    ensures forall other :: Lo16(other) != STACK_START + m.sp ==> Read(Push(m, v), other) == Read(m, other)
    ensures Push(m, v).(sp := m.sp, bus := m.bus) == m && Push(m, v).bus.devices == m.bus.devices
  {
    var address := STACK_START + m.sp;
    UnmappedUnclaimed(m.bus.devices, address);
    assert Lo16(address) == address;
    forall other | Lo16(other) != address
      ensures Read(Push(m, v), other) == Read(m, other)
    {
      PushKeeps(m, v, other);
    }
    UnclaimedReadBack(m.bus, address, v, address);
  }

  /** A push leaves any address other than the free stack cell alone. */
  lemma PushKeeps(m: State, v: int, other: int)
    requires Lo16(other) != STACK_START + m.sp
    ensures Read(Push(m, v), other) == Read(m, other)
    ensures Push(m, v).bus.devices == m.bus.devices
  {
    var address := STACK_START + m.sp;
    UnmappedUnclaimed(m.bus.devices, address);
    assert Lo16(address) == address;
    UnclaimedReadBack(m.bus, address, v, other);
  }

  lemma PushedReadsBack(m: State, v: Byte)
    ensures Read(Push(m, v), STACK_START + m.sp) == v
  {
    StackCell(m, m.sp, v, m.sp);
  }

  lemma LowerWriteKeeps(m1: State, sp: Byte, lo: Byte)
    ensures Read(Write(m1, STACK_START + Lo8(sp - 1), lo), STACK_START + sp) == Read(m1, STACK_START + sp)
  {
    SpRoundTrip(sp);
    StackCell(m1, Lo8(sp - 1), lo, sp);
  }

  /** Stepping SP down and back up returns to the same slot, and the slot
      below is a different one. */
  lemma SpRoundTrip(sp: Byte)
    ensures Lo8(Lo8(sp - 1) + 1) == sp
    ensures Lo8(sp + 1) != sp && Lo8(sp - 1) != sp
  {
  }

  /** No peripheral claims the address, so the bus hands it to memory. */
  predicate Unclaimed(m: State, address: int)
  {
    Claimant(m.bus.devices, Lo16(address)) == |m.bus.devices|
  }

  /** The log a monitored memory keeps of the reset sequence, all seven
      reads stamped with the cycle the monitor is at. */
  function ResetTrace(m: State, cycle: int): seq<Entry>
  {
    PcTrace(m, cycle) + StackTrace(m, cycle) + VectorTrace(m, cycle)
  }

  /** The two discarded reads at PC and PC + 1. */
  function PcTrace(m: State, cycle: int): seq<Entry>
  {
    [ReadEntry(m, cycle, m.pc), ReadEntry(m, cycle, m.pc + 1)]
  }

  /** The three discarded reads of the stack slots below SP. */
  function StackTrace(m: State, cycle: int): seq<Entry>
  {
    [ReadEntry(m, cycle, STACK_START + Lo8(m.sp - 1)),
     ReadEntry(m, cycle, STACK_START + Lo8(m.sp - 2)),
     ReadEntry(m, cycle, STACK_START + Lo8(m.sp - 3))]
  }

  /** The two reads of the reset vector. */
  function VectorTrace(m: State, cycle: int): seq<Entry>
  {
    [ReadEntry(m, cycle, RESET_VECTOR), ReadEntry(m, cycle, RESET_VECTOR + 1)]
  }

  /** The entry a monitored memory logs for a read of `address`. */
  function ReadEntry(m: State, cycle: int, address: int): Entry
  {
    Entry(cycle, Lo16(address), Read(m, address), "R")
  }

  /** The reset trace is seven reads, the last two of the reset vector,
      whose bytes make up the program counter reset installs. */
  lemma ResetTraceEndsWithVector(m: State, cycle: int, accurate: bool)
    ensures |ResetTrace(m, cycle)| == 7
    ensures forall i :: 0 <= i < 7 ==> ResetTrace(m, cycle)[i].operation == "R"
    ensures ResetTrace(m, cycle)[5].address == 0xFFFC && ResetTrace(m, cycle)[6].address == 0xFFFD
    ensures ResetTrace(m, cycle)[5].data + 256 * ResetTrace(m, cycle)[6].data == Reset(m, accurate).pc
  {
  }

  /** Resetting twice is resetting once: reset reads nothing it writes, and
      the SP, flags and registers it installs do not depend on the values
      a second reset finds. */
  lemma ResetTwice(m: State, accurate: bool)
    ensures Reset(Reset(m, accurate), accurate) == Reset(m, accurate)
  {
  }

  /** `reset` and `accurateReset` as one sequence with a switch. Both load PC
      from the reset vector, set SP to 0xFD whatever it held (the three
      discarded stack reads go below the old SP) and set the Interrupt
      Disable and Unused flags. The deterministic variant clears A, X, Y and
      every other flag; the accurate one keeps them. */
  function Reset(m: State, accurate: bool): (r: State)
    ensures r.pc == Read(m, RESET_VECTOR) + 256 * Read(m, RESET_VECTOR + 1)
    ensures r.sp == RESET_SP
    ensures Has(r.p, INTERRUPT_DISABLE) && Has(r.p, UNUSED)
    ensures r.bus == m.bus
    ensures accurate ==> r.a == m.a && r.x == m.x && r.y == m.y
    ensures accurate ==> forall f: Flag :: f != INTERRUPT_DISABLE && f != UNUSED ==> Has(r.p, f) == Has(m.p, f)
    ensures !accurate ==> r.a == 0 && r.x == 0 && r.y == 0
    ensures !accurate ==> forall f: Flag :: f != INTERRUPT_DISABLE && f != UNUSED ==> !Has(r.p, f)
  {
    var pc := ReadWord(m, RESET_VECTOR);
    var sp := RESET_SP;
    if accurate then
      m.(sp := sp, pc := pc, p := With(With(m.p, INTERRUPT_DISABLE, true), UNUSED, true))
    else
      m.(a := 0, x := 0, y := 0, sp := sp, pc := pc, p := 0x24)
  }
}

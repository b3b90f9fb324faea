/** The eight conditional branches, JMP, JSR and RTS, BRK and RTI. */
module FlowControlSpec {
  import opened Bits
  import opened Status
  import opened Mem
  import opened Bus
  import opened Opcodes
  import opened Machine
  import StackSpec

  /** The branch offset with bit 7 read as a sign (`$offset & 0x80`, then
      `$offset -= 256`). A relative operand is one byte, and for it this is
      the two's-complement value of that byte. */
  function Displacement(offset: Word): (d: int)
    ensures offset < 256 ==> -128 <= d <= 127 && Lo8(d) == offset
    ensures offset < 128 ==> d == offset
  {
    if Bit7(offset) then offset as int - 256 else offset as int
  }

  /** `$address & 0xFF00` taken as a page number. */
  function PageOf(address: Word): int
  {
    address / 256
  }

  /** `branch`: the operand is resolved, which moves PC past it. When the
      condition holds, PC moves by the signed offset (wrapping in 16 bits),
      at one extra cycle, and one more when the new PC is on another page
      than the PC after the operand. */
  function Branch(m: State, op: Opcode, condition: bool): (o: Outcome)
    ensures o.m.(pc := m.pc) == m
    ensures !condition ==> o.m == Past(m, op.mode) && o.cycles == op.cycles
    ensures condition ==>
      var next := Past(m, op.mode).pc;
      Lo16(next as int + Displacement(Target(m, op.mode))) == o.m.pc &&
      o.cycles == op.cycles + (if PageOf(next) == PageOf(o.m.pc) then 1 else 2)
  {
    var past := Past(m, op.mode);
    if condition then
      Outcome(past.(pc := Lo16(past.pc as int + Displacement(Target(m, op.mode)))), BranchCycles(op.cycles, past.pc, Lo16(past.pc as int + Displacement(Target(m, op.mode)))))
    else
      Outcome(past, op.cycles)
  }

  /** A taken branch's cycles: one extra, and one more across a page. */
  function BranchCycles(base: int, from: Word, to: Word): int
  {
    if PageOf(from) != PageOf(to) then base + 2 else base + 1
  }

  /** A taken relative branch lands within -128..+127 bytes of the
      instruction that follows it: the operand byte is a signed offset. */
  lemma BranchReach(m: State, op: Opcode)
    requires op.mode == Relative
    ensures var d := Displacement(Read(m, m.pc));
      -128 <= d <= 127 && Branch(m, op, true).m.pc == Lo16(Lo16(m.pc as int + 1) as int + d)
  {
    assert Target(m, op.mode) == Read(m, m.pc);
  }

  /** `jmp`: PC takes the resolved address; nothing else changes. */
  function Jmp(m: State, op: Opcode): (o: Outcome)
    ensures o.m == m.(pc := Target(m, op.mode))
    ensures o.cycles == op.cycles
  {
    Outcome(Past(m, op.mode).(pc := Target(m, op.mode)), op.cycles)
  }

  /** `jsr`: the address of its own last byte (PC + 1, PC being just past
      the opcode) goes to the stack, high byte first; then the operand is
      resolved and PC takes it. */
  function Jsr(m: State, op: Opcode): (o: Outcome)
    ensures o.m.sp == Lo8(m.sp - 2) && o.cycles == op.cycles
  {
    var returnAddress := m.pc as int + 2;
    var pushed := PushWord(m, returnAddress - 1);
    Outcome(Past(pushed, op.mode).(pc := Target(pushed, op.mode)), op.cycles)
  }

  /** After JSR the cell at 0x0100 + SP holds the high byte of PC + 1 and
      the cell below it the low byte; every other address reads as before;
      PC is the operand address, resolved after the push; A, X, Y and the
      flags are unchanged. */
  lemma JsrShape(m: State, op: Opcode)
    ensures var o := Jsr(m, op).m; var ret := m.pc as int + 1;
      Read(o, STACK_START + m.sp) == HighByte(ret) &&
      Read(o, STACK_START + Lo8(m.sp - 1)) == Lo8(ret) &&
      o.pc == Target(PushWord(m, ret), op.mode) &&
      o.(pc := m.pc, sp := m.sp, bus := m.bus) == m
    ensures forall other :: Lo16(other) != STACK_START + m.sp && Lo16(other) != STACK_START + Lo8(m.sp - 1) ==>
      Read(Jsr(m, op).m, other) == Read(m, other)
  {
    var ret := m.pc as int + 1;
    var pushed := PushWord(m, ret);
    var o := Jsr(m, op).m;
    assert o == pushed.(pc := Target(pushed, op.mode));
    TwoPushes(m, HighByte(ret), Lo8(ret));
    forall other | Lo16(other) != STACK_START + m.sp && Lo16(other) != STACK_START + Lo8(m.sp - 1)
      ensures Read(o, other) == Read(m, other)
    {
      assert Read(o, other) == Read(pushed, other);
    }
  }

  /** Two pushes fill SP and the cell below it, in that order, and leave
      every other address alone. */
  lemma TwoPushes(m: State, hi: Byte, lo: Byte)
    ensures var r := Push(Push(m, hi), lo);
      Read(r, STACK_START + m.sp) == hi && Read(r, STACK_START + Lo8(m.sp - 1)) == lo &&
      r.(sp := m.sp, bus := m.bus) == m && r.bus.devices == m.bus.devices
    ensures forall other :: Lo16(other) != STACK_START + m.sp && Lo16(other) != STACK_START + Lo8(m.sp - 1) ==>
      Read(Push(Push(m, hi), lo), other) == Read(m, other)
  {
    var m1 := Push(m, hi);
    var r := Push(m1, lo);
    var s0 := STACK_START + m.sp;
    var s1 := STACK_START + m1.sp;
    SpRoundTrip(m.sp);
    assert s1 == STACK_START + Lo8(m.sp - 1) && s0 != s1;
    assert Lo16(s0) == s0;
    PushedReadsBack(m, hi);
    PushedReadsBack(m1, lo);
    PushKeeps(m1, lo, s0);
    forall other | Lo16(other) != s0 && Lo16(other) != s1
      ensures Read(r, other) == Read(m, other)
    {
      PushKeeps(m1, lo, other);
      PushKeeps(m, hi, other);
    }
  }

  /** `rts` as the source writes it: the pulled word plus one, without a
      16-bit mask. */
  function RtsTargetAsWritten(m: State): int
  {
    PullWord(m).0 as int + 1
  }

  /** The unmasked sum and the wrapped PC agree exactly when the stacked
      return address is not 0xFFFF; for 0xFFFF the source sends PC to
      0x10000, which is not a 16-bit address, where the wrapped PC is 0. */
  lemma RtsAsWrittenLeavesWordRange(m: State, op: Opcode)
    ensures RtsTargetAsWritten(m) == Rts(m, op).m.pc as int <==> PullWord(m).0 != 0xFFFF
    ensures PullWord(m).0 == 0xFFFF ==> RtsTargetAsWritten(m) == 0x1_0000 && Rts(m, op).m.pc == 0
  {
  }

  /** `rts`, with the sum cut to 16 bits as everywhere else in the CPU: PC
      takes the pulled word plus one, wrapping 0xFFFF to 0x0000. */
  function Rts(m: State, op: Opcode): (o: Outcome)
    ensures o.m.pc == Lo16(RtsTargetAsWritten(m))
    ensures o.m.(pc := m.pc) == PullWord(m).1 && o.cycles == op.cycles
  {
    var pulled := PullWord(m);
    Outcome(pulled.1.(pc := Lo16(pulled.0 as int + 1)), op.cycles)
  }

  /** JSR then RTS resumes right after the three-byte JSR (PC + 2) with SP
      back where it was, wherever the subroutine address came from. */
  lemma JsrThenRts(m: State, jsr: Opcode, rts: Opcode)
    ensures var n := Rts(Jsr(m, jsr).m, rts).m;
      n.pc == Lo16(m.pc as int + 2) && n.sp == m.sp
  {
    var j := Jsr(m, jsr).m;
    assert j.bus == PushWord(m, m.pc as int + 1).bus && j.sp == Lo8(m.sp as int - 2);
    RtsAfterPush(m, j, rts, m.pc as int + 1);
  }

  /** RTS on any state whose stack is the one a word push left returns to
      that word plus one, with SP back. */
  lemma RtsAfterPush(m: State, j: State, rts: Opcode, w: int)
    requires j.bus == PushWord(m, w).bus && j.sp == Lo8(m.sp as int - 2)
    ensures Rts(j, rts).m.pc == Lo16(w + 1) && Rts(j, rts).m.sp == m.sp
  {
    PullWordFrame(PushWord(m, w), j);
    PushWordPullWord(m, w);
    Lo16Add(w, 1);
    RtsRestoresSp(m, j, rts);
  }

  /** RTS's two pulls undo a word push on SP. */
  lemma RtsRestoresSp(m: State, j: State, rts: Opcode)
    requires j.sp == Lo8(m.sp as int - 2)
    ensures Rts(j, rts).m.sp == m.sp
  {
    Lo8Undo(m.sp, 2);
  }

  /** `brk`: PC + 1 goes to the stack, then the status word with Break set
      (the live Break flag is not changed), then Interrupt Disable is set
      and PC takes the word at 0xFFFE. */
  function Brk(m: State, op: Opcode): (o: Outcome)
    ensures o.m.sp == Lo8(m.sp - 3) && o.m.(pc := m.pc, sp := m.sp, p := m.p, bus := m.bus) == m
    ensures Has(o.m.p, INTERRUPT_DISABLE) && Keeps(m.p, o.m.p, {INTERRUPT_DISABLE})
    ensures o.m.pc == ReadWord(m, IRQ_VECTOR)
    ensures o.cycles == op.cycles
  {
    var entered := Interrupted(m);
    VectorUntouched(m);
    WithKeeps(m.p, INTERRUPT_DISABLE, true);
    Outcome(entered.(pc := ReadWord(entered, IRQ_VECTOR)), op.cycles)
  }

  /** The three pushes of BRK and the Interrupt Disable update. */
  function Interrupted(m: State): (r: State)
    ensures r.sp == Lo8(m.sp - 3) && r.(sp := m.sp, p := m.p, bus := m.bus) == m
    ensures r.p == With(m.p, INTERRUPT_DISABLE, true)
  {
    var saved := Push(PushWord(m, m.pc as int + 1), StackSpec.PushedStatus(m.p) as int);
    Lo8Add(m.sp as int - 2, -1);
    saved.(p := With(m.p, INTERRUPT_DISABLE, true))
  }

  /** BRK's stack frame: 0x0100 + SP holds the high byte of PC + 1, the
      cell below it the low byte, and the one below that the status word
      with Break set; every other address reads as before. */
  lemma InterruptedShape(m: State)
    ensures var r := Interrupted(m); var ret := m.pc as int + 1;
      Read(r, STACK_START + m.sp) == HighByte(ret) &&
      Read(r, STACK_START + Lo8(m.sp - 1)) == Lo8(ret) &&
      Read(r, STACK_START + Lo8(m.sp - 2)) == StackSpec.PushedStatus(m.p) as int
    ensures forall other ::
      Lo16(other) != STACK_START + m.sp && Lo16(other) != STACK_START + Lo8(m.sp - 1) &&
      Lo16(other) != STACK_START + Lo8(m.sp - 2) ==>
      Read(Interrupted(m), other) == Read(m, other)
  {
    var ret := m.pc as int + 1;
    var q := StackSpec.PushedStatus(m.p);
    IntRoundTrip(q);
    var r := Push(Push(Push(m, HighByte(ret)), Lo8(ret)), q as int);
    assert Interrupted(m).bus == r.bus;
    ThreePushes(m, HighByte(ret), Lo8(ret), q as int);
  }

  /** SP and the two slots below it are three different slots of the stack
      page, each its own 16-bit address. */
  lemma ThreeSlots(sp: Byte)
    ensures Lo8(Lo8(sp - 1) - 1) == Lo8(sp - 2)
    ensures Lo8(sp - 2) != Lo8(sp - 1) && Lo8(sp - 2) != sp && Lo8(sp - 1) != sp
    ensures Lo16(STACK_START + sp) == STACK_START + sp
    ensures Lo16(STACK_START + Lo8(sp - 1)) == STACK_START + Lo8(sp - 1)
    ensures Lo16(STACK_START + Lo8(sp - 2)) == STACK_START + Lo8(sp - 2)
  {
    Lo8Add(sp as int - 1, -1);
  }

  /** Three pushes fill SP and the two cells below it, in that order, and
      leave every other address alone. */
  lemma ThreePushes(m: State, hi: Byte, lo: Byte, st: Byte)
    ensures var r := Push(Push(Push(m, hi), lo), st);
      Read(r, STACK_START + m.sp) == hi && Read(r, STACK_START + Lo8(m.sp - 1)) == lo &&
      Read(r, STACK_START + Lo8(m.sp - 2)) == st
    ensures forall other ::
      Lo16(other) != STACK_START + m.sp && Lo16(other) != STACK_START + Lo8(m.sp - 1) &&
      Lo16(other) != STACK_START + Lo8(m.sp - 2) ==>
      Read(Push(Push(Push(m, hi), lo), st), other) == Read(m, other)
  {
    var m2 := Push(Push(m, hi), lo);
    var r := Push(m2, st);
    var s0 := STACK_START + m.sp;
    var s1 := STACK_START + Lo8(m.sp - 1);
    var s2 := STACK_START + Lo8(m.sp - 2);
    ThreeSlots(m.sp);
    assert m2.sp == Lo8(m.sp - 2);
    assert Read(r, s2) == st by {
      PushedReadsBack(m2, st);
    }
    assert Read(r, s0) == hi && Read(r, s1) == lo by {
      TwoPushes(m, hi, lo);
      PushKeeps(m2, st, s0);
      PushKeeps(m2, st, s1);
    }
    forall other | Lo16(other) != s0 && Lo16(other) != s1 && Lo16(other) != s2
      ensures Read(r, other) == Read(m, other)
    {
      TwoPushes(m, hi, lo);
      PushKeeps(m2, st, other);
    }
  }

  /** The stack page is apart from the interrupt vector: the pushes of BRK
      leave the vector as it was. */
  lemma VectorUntouched(m: State)
    ensures ReadWord(Interrupted(m), IRQ_VECTOR) == ReadWord(m, IRQ_VECTOR)
  {
    var m1 := Push(m, HighByte(m.pc as int + 1));
    var m2 := Push(m1, Lo8(m.pc as int + 1));
    var m3 := Push(m2, StackSpec.PushedStatus(m.p) as int);
    StackWriteSparesVector(m, HighByte(m.pc as int + 1));
    StackWriteSparesVector(m1, Lo8(m.pc as int + 1));
    StackWriteSparesVector(m2, StackSpec.PushedStatus(m.p) as int);
    assert Interrupted(m).bus == m3.bus;
    SameBusSameWord(m3, Interrupted(m), IRQ_VECTOR);
  }

  lemma SameBusSameWord(m: State, n: State, address: int)
    requires m.bus == n.bus
    ensures ReadWord(m, address) == ReadWord(n, address)
  {
  }

  /** A push never touches 0xFFFE or 0xFFFF. */
  lemma StackWriteSparesVector(m: State, v: int)
    ensures Read(Push(m, v), IRQ_VECTOR) == Read(m, IRQ_VECTOR)
    ensures Read(Push(m, v), IRQ_VECTOR + 1) == Read(m, IRQ_VECTOR + 1)
  {
    UnmappedUnclaimed(m.bus.devices, STACK_START + m.sp);
    WriteReadBack(m, STACK_START + m.sp, v, IRQ_VECTOR);
    WriteReadBack(m, STACK_START + m.sp, v, IRQ_VECTOR + 1);
  }

  /** `rti`: the status word is pulled first and installed as it is, then
      PC is pulled. */
  function Rti(m: State, op: Opcode): (o: Outcome)
    ensures o.m.p == Bv(Pull(m).0)
    ensures o.m.pc == PullWord(Pull(m).1).0 && o.m.sp == Lo8(m.sp + 3)
    ensures o.m.(pc := m.pc, sp := m.sp, p := m.p) == m
    ensures o.cycles == op.cycles
  {
    var status := Pull(m);
    var restored := status.1.(p := Bv(status.0));
    var pulled := PullWord(restored);
    Lo8Add(m.sp as int + 1, 2);
    Outcome(pulled.1.(pc := pulled.0), op.cycles)
  }

  /** RTI right after BRK resumes two bytes past the BRK opcode with SP
      back, every flag as it was before BRK, and Break set (it is set in
      the pushed copy of the status word). */
  lemma BrkThenRti(m: State, brk: Opcode, rti: Opcode)
    ensures var n := Rti(Brk(m, brk).m, rti).m;
      n.pc == Lo16(m.pc as int + 1) && n.sp == m.sp && n.p == With(m.p, BREAK_COMMAND, true)
  {
    var e := Brk(m, brk).m;
    assert e.bus == Interrupted(m).bus && e.sp == Lo8(m.sp as int - 3);
    RtiAfterInterrupt(m, e, rti);
  }

  /** RTI on any state whose stack is the one BRK's three pushes left. */
  lemma RtiAfterInterrupt(m: State, e: State, rti: Opcode)
    requires e.bus == Interrupted(m).bus && e.sp == Lo8(m.sp as int - 3)
    ensures var n := Rti(e, rti).m;
      n.pc == Lo16(m.pc as int + 1) && n.sp == m.sp && n.p == With(m.p, BREAK_COMMAND, true)
  {
    var w := m.pc as int + 1;
    var words := PushWord(m, w);
    var b := StackSpec.PushedStatus(m.p);
    Lo8Add(m.sp as int - 2, -1);
    assert e.sp == Lo8(words.sp as int - 1) && e.bus == Push(words, b as int).bus;
    StatusPulledBack(words, b, e);
    var below := Write(words, STACK_START + words.sp, b as int);
    PullWordFrame(below, Pull(e).1);
    PullWordSkipsFreeSlot(words, b as int);
    PushWordPullWord(m, w);
    RtiRestoresSp(m, e, rti);
  }

  /** RTI's three pulls undo BRK's three pushes on SP. */
  lemma RtiRestoresSp(m: State, e: State, rti: Opcode)
    requires e.sp == Lo8(m.sp as int - 3)
    ensures Rti(e, rti).m.sp == m.sp
  {
    Lo8Undo(m.sp, 3);
  }

  /** BRK's status byte is the first thing RTI pulls. */
  lemma StatusPulledBack(words: State, b: bv8, e: State)
    requires e.sp == Lo8(words.sp - 1) && e.bus == Push(words, b as int).bus
    ensures Pull(e).0 == b as int && Bv(Pull(e).0) == b
    ensures Pull(e).1.sp == words.sp
    ensures Pull(e).1.bus == Write(words, STACK_START + words.sp, b as int).bus
  {
    var pushed := Push(words, b as int);
    PullFrame(pushed, e);
    PushThenPull(words, b as int);
    IntRoundTrip(b);
  }
}

/** The FlowControl handler class. */
module FlowControl {
  import opened Bits
  import opened Status
  import opened Opcodes
  import opened Cpu
  import opened Machine
  import StackSpec
  import S = FlowControlSpec

  method Beq(cpu: CPU, op: Opcode) returns (cycles: int)
    requires cpu.Valid()
    modifies cpu, cpu.bus.memory.monitor
    ensures cpu.Valid()
    ensures var o := S.Branch(old(cpu.State()), op, Has(old(cpu.status.flags), ZERO));
      cpu.State() == o.m && cycles == o.cycles && cpu.cycles == old(cpu.cycles)
  {
    cycles := BranchIf(cpu, op, cpu.status.Get(ZERO));
  }

  method Bne(cpu: CPU, op: Opcode) returns (cycles: int)
    requires cpu.Valid()
    modifies cpu, cpu.bus.memory.monitor
    ensures cpu.Valid()
    ensures var o := S.Branch(old(cpu.State()), op, !Has(old(cpu.status.flags), ZERO));
      cpu.State() == o.m && cycles == o.cycles && cpu.cycles == old(cpu.cycles)
  {
    cycles := BranchIf(cpu, op, !cpu.status.Get(ZERO));
  }

  method Bcc(cpu: CPU, op: Opcode) returns (cycles: int)
    requires cpu.Valid()
    modifies cpu, cpu.bus.memory.monitor
    ensures cpu.Valid()
    ensures var o := S.Branch(old(cpu.State()), op, !Has(old(cpu.status.flags), CARRY));
      cpu.State() == o.m && cycles == o.cycles && cpu.cycles == old(cpu.cycles)
  {
    cycles := BranchIf(cpu, op, !cpu.status.Get(CARRY));
  }

  method Bcs(cpu: CPU, op: Opcode) returns (cycles: int)
    requires cpu.Valid()
    modifies cpu, cpu.bus.memory.monitor
    ensures cpu.Valid()
    ensures var o := S.Branch(old(cpu.State()), op, Has(old(cpu.status.flags), CARRY));
      cpu.State() == o.m && cycles == o.cycles && cpu.cycles == old(cpu.cycles)
  {
    cycles := BranchIf(cpu, op, cpu.status.Get(CARRY));
  }

  method Bpl(cpu: CPU, op: Opcode) returns (cycles: int)
    requires cpu.Valid()
    modifies cpu, cpu.bus.memory.monitor
    ensures cpu.Valid()
    ensures var o := S.Branch(old(cpu.State()), op, !Has(old(cpu.status.flags), NEGATIVE));
      cpu.State() == o.m && cycles == o.cycles && cpu.cycles == old(cpu.cycles)
  {
    cycles := BranchIf(cpu, op, !cpu.status.Get(NEGATIVE));
  }

  method Bmi(cpu: CPU, op: Opcode) returns (cycles: int)
    requires cpu.Valid()
    modifies cpu, cpu.bus.memory.monitor
    ensures cpu.Valid()
    ensures var o := S.Branch(old(cpu.State()), op, Has(old(cpu.status.flags), NEGATIVE));
      cpu.State() == o.m && cycles == o.cycles && cpu.cycles == old(cpu.cycles)
  {
    cycles := BranchIf(cpu, op, cpu.status.Get(NEGATIVE));
  }

  method Bvc(cpu: CPU, op: Opcode) returns (cycles: int)
    requires cpu.Valid()
    modifies cpu, cpu.bus.memory.monitor
    ensures cpu.Valid()
    ensures var o := S.Branch(old(cpu.State()), op, !Has(old(cpu.status.flags), OVERFLOW));
      cpu.State() == o.m && cycles == o.cycles && cpu.cycles == old(cpu.cycles)
  {
    cycles := BranchIf(cpu, op, !cpu.status.Get(OVERFLOW));
  }

  method Bvs(cpu: CPU, op: Opcode) returns (cycles: int)
    requires cpu.Valid()
    modifies cpu, cpu.bus.memory.monitor
    ensures cpu.Valid()
    ensures var o := S.Branch(old(cpu.State()), op, Has(old(cpu.status.flags), OVERFLOW));
      cpu.State() == o.m && cycles == o.cycles && cpu.cycles == old(cpu.cycles)
  {
    cycles := BranchIf(cpu, op, cpu.status.Get(OVERFLOW));
  }

  /** `branch`: resolve the offset, and when the condition holds move PC
      and count the extra cycles. */
  method BranchIf(cpu: CPU, op: Opcode, condition: bool) returns (cycles: int)
    requires cpu.Valid()
    modifies cpu, cpu.bus.memory.monitor
    ensures cpu.Valid()
    ensures var o := S.Branch(old(cpu.State()), op, condition);
      cpu.State() == o.m && cycles == o.cycles && cpu.cycles == old(cpu.cycles)
  {
    ghost var s := cpu.State();
    cycles := op.cycles;
    var offset := cpu.GetAddress(op.mode);
    assert offset == Target(s, op.mode);
    assert cpu.State() == Past(s, op.mode);
    if condition {
      var oldPC := cpu.pc;
      var displacement := if Bit7(offset) then offset as int - 256 else offset as int;
      assert displacement == S.Displacement(Target(s, op.mode));
      cpu.pc := Lo16(oldPC as int + displacement);
      assert cpu.State() == S.Branch(s, op, true).m;
      cycles := cycles + 1;
      if S.PageOf(oldPC) != S.PageOf(cpu.pc) {
        cycles := cycles + 1;
      }
    }
  }

  method Jmp(cpu: CPU, op: Opcode) returns (cycles: int)
    requires cpu.Valid()
    modifies cpu, cpu.bus.memory.monitor
    ensures cpu.Valid()
    ensures cpu.State() == S.Jmp(old(cpu.State()), op).m
    ensures cycles == op.cycles && cpu.cycles == old(cpu.cycles)
  {
    var address := cpu.GetAddress(op.mode);
    cpu.pc := address;
    cycles := op.cycles;
  }

  method Jsr(cpu: CPU, op: Opcode) returns (cycles: int)
    requires cpu.Valid()
    modifies cpu, cpu.bus, cpu.bus.memory, cpu.bus.memory.monitor
    ensures cpu.Valid()
    ensures cpu.State() == S.Jsr(old(cpu.State()), op).m
    ensures cycles == op.cycles && cpu.cycles == old(cpu.cycles)
  {
    ghost var s := cpu.State();
    var returnAddress := cpu.pc as int + 2;
    cpu.PushWord(returnAddress - 1);
    ghost var pushed := cpu.State();
    assert pushed == PushWord(s, s.pc as int + 1);
    var address := cpu.GetAddress(op.mode);
    assert address == Target(pushed, op.mode);
    cpu.pc := address;
    assert cpu.State() == pushed.(pc := address);
    cycles := op.cycles;
  }

  method Rts(cpu: CPU, op: Opcode) returns (cycles: int)
    requires cpu.Valid()
    modifies cpu, cpu.bus.memory.monitor
    ensures cpu.Valid()
    ensures cpu.State() == S.Rts(old(cpu.State()), op).m
    ensures cycles == op.cycles && cpu.cycles == old(cpu.cycles)
  {
    var returnAddress := cpu.PullWord();
    cpu.pc := Lo16(returnAddress as int + 1);
    cycles := op.cycles;
  }

  method Brk(cpu: CPU, op: Opcode) returns (cycles: int)
    requires cpu.Valid()
    modifies cpu, cpu.status, cpu.bus, cpu.bus.memory, cpu.bus.memory.monitor
    ensures cpu.Valid()
    ensures cpu.State() == S.Brk(old(cpu.State()), op).m
    ensures cycles == op.cycles && cpu.cycles == old(cpu.cycles)
  {
    Interrupt(cpu);
    var interruptVector := cpu.ReadWord(IRQ_VECTOR);
    cpu.pc := interruptVector;
    cycles := op.cycles;
  }

  /** The pushes of BRK and the Interrupt Disable update. */
  method Interrupt(cpu: CPU)
    requires cpu.Valid()
    modifies cpu, cpu.status, cpu.bus, cpu.bus.memory, cpu.bus.memory.monitor
    ensures cpu.Valid()
    ensures cpu.State() == S.Interrupted(old(cpu.State())) && cpu.cycles == old(cpu.cycles)
  {
    ghost var s := cpu.State();
    PushReturn(cpu);
    ghost var saved := cpu.State();
    assert saved == Push(PushWord(s, s.pc as int + 1), StackSpec.PushedStatus(s.p) as int);
    DisableInterrupts(cpu);
  }

  /** Sets Interrupt Disable and changes nothing else. */
  method DisableInterrupts(cpu: CPU)
    modifies cpu.status
    ensures cpu.State() == old(cpu.State()).(p := With(old(cpu.status.flags), INTERRUPT_DISABLE, true))
  {
    cpu.status.Set(INTERRUPT_DISABLE, true);
  }

  /** The pushes of BRK: the return address, then the status with Break
      set. */
  method PushReturn(cpu: CPU)
    requires cpu.Valid()
    modifies cpu, cpu.bus, cpu.bus.memory, cpu.bus.memory.monitor
    ensures cpu.Valid() && cpu.cycles == old(cpu.cycles)
    ensures cpu.State() == Push(PushWord(old(cpu.State()), old(cpu.pc) as int + 1), StackSpec.PushedStatus(old(cpu.State()).p) as int)
  {
    ghost var s := cpu.State();
    cpu.PushWord(cpu.pc as int + 1);
    ghost var words := cpu.State();
    assert words == PushWord(s, s.pc as int + 1);
    var status := (cpu.status.flags | Mask(BREAK_COMMAND)) as int;
    assert status == StackSpec.PushedStatus(s.p) as int;
    cpu.PushByte(status);
  }

  method Rti(cpu: CPU, op: Opcode) returns (cycles: int)
    requires cpu.Valid()
    modifies cpu, cpu.status, cpu.bus.memory.monitor
    ensures cpu.Valid()
    ensures cpu.State() == S.Rti(old(cpu.State()), op).m
    ensures cycles == op.cycles && cpu.cycles == old(cpu.cycles)
  {
    var status := cpu.PullByte();
    cpu.status.FromInt(status);
    cpu.pc := cpu.PullWord();
    cycles := op.cycles;
  }
}

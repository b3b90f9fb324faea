/** PHA, PLA, PHP and PLP: A and the status word to and from the stack page. */
module StackSpec {
  import opened Bits
  import opened Status
  import opened Mem
  import opened Opcodes
  import opened Machine
  import L = LoadStoreSpec

  /** `pha`: A goes to the free stack cell 0x0100 + SP and SP steps down;
      every other address, register and flag is as it was. */
  function Pha(m: State, op: Opcode): (o: Outcome)
    ensures Read(o.m, STACK_START + m.sp) == m.a && o.m.sp == Lo8(m.sp - 1)
    ensures forall other :: Lo16(other) != STACK_START + m.sp ==> Read(o.m, other) == Read(m, other)
    ensures o.m.(sp := m.sp, bus := m.bus) == m
    ensures o.cycles == op.cycles
  {
    assert Lo8(m.a) == m.a;
    PushContents(m, m.a);
    Outcome(Push(m, m.a), op.cycles)
  }

  /** `pla`: A takes the pulled byte, Z and N describe it. */
  function Pla(m: State, op: Opcode): (o: Outcome)
    ensures o.m.a == Pull(m).0 && o.m.sp == Lo8(m.sp + 1)
    ensures ZN(o.m.p, o.m.a) && Keeps(m.p, o.m.p, {ZERO, NEGATIVE})
    ensures o.m.(a := m.a, sp := m.sp, p := m.p) == m
    ensures o.cycles == op.cycles
  {
    var pulled := Pull(m);
    Outcome(L.LoadInto(pulled.1, A, pulled.0), op.cycles)
  }

  /** The status word PHP pushes: Break set, `toInt() | (1 << 4)`. */
  function PushedStatus(p: bv8): (q: bv8)
    ensures Has(q, BREAK_COMMAND) && Keeps(p, q, {BREAK_COMMAND})
  {
    With(p, BREAK_COMMAND, true)
  }


  /** `php`: the status word, with Break set, goes to the free stack cell
      and SP steps down; the status register itself and every other
      address are unchanged. */
  function Php(m: State, op: Opcode): (o: Outcome)
    ensures Read(o.m, STACK_START + m.sp) == PushedStatus(m.p) as int && o.m.sp == Lo8(m.sp - 1)
    ensures forall other :: Lo16(other) != STACK_START + m.sp ==> Read(o.m, other) == Read(m, other)
    ensures o.m.(sp := m.sp, bus := m.bus) == m
    ensures o.cycles == op.cycles
  {
    var b := PushedStatus(m.p) as int;
    assert 0 <= b < 256;
    assert Lo8(b) == b;
    PushContents(m, b);
    Outcome(Push(m, b), op.cycles)
  }

  /** The status word PLP loads from a pulled byte: Break cleared, the
      unused bit set, every other flag as pulled. */
  function PulledStatus(b: Byte): (q: bv8)
    ensures !Has(q, BREAK_COMMAND) && Has(q, UNUSED)
    ensures Keeps(Bv(b), q, {BREAK_COMMAND, UNUSED})
  {
    With(With(Bv(b), BREAK_COMMAND, false), UNUSED, true)
  }

  /** `plp`: the status register is loaded from the pulled byte. */
  function Plp(m: State, op: Opcode): (o: Outcome)
    ensures o.m.p == PulledStatus(Pull(m).0) && o.m.(p := m.p) == Pull(m).1
    ensures o.cycles == op.cycles
  {
    var pulled := Pull(m);
    Outcome(pulled.1.(p := PulledStatus(pulled.0)), op.cycles)
  }

  /** PHA then PLA gives A back and puts SP back; Z and N then describe A. */
  lemma PhaThenPla(m: State, pha: Opcode, pla: Opcode)
    ensures var n := Pla(Pha(m, pha).m, pla).m;
      n.a == m.a && n.sp == m.sp && n.p == SetZN(m.p, m.a)
  {
    PushThenPull(m, m.a);
  }

  /** The byte PHP pushes, read back by PLP, gives the status word with
      Break cleared and the unused bit set. */
  lemma StatusThroughStack(p: bv8)
    ensures PulledStatus(Lo8(PushedStatus(p) as int)) == With(With(p, BREAK_COMMAND, false), UNUSED, true)
  {
    var q := PushedStatus(p);
    assert Lo8(q as int) == q as int;
    IntRoundTrip(q);
    WithOverwrites(p, BREAK_COMMAND, true, false);
  }

  /** PHP then PLP restores every flag except Break, which PLP clears, and
      the unused bit, which it sets. */
  lemma PhpThenPlp(m: State, php: Opcode, plp: Opcode)
    ensures var n := Plp(Php(m, php).m, plp).m;
      n.sp == m.sp && n.p == With(With(m.p, BREAK_COMMAND, false), UNUSED, true)
  {
    PushThenPull(m, PushedStatus(m.p) as int);
    StatusThroughStack(m.p);
  }

}

/** The Stack handler class. */
module Stack {
  import opened Bits
  import opened Status
  import opened Opcodes
  import opened Cpu
  import opened Machine
  import S = StackSpec
  import LoadStore

  method Pha(cpu: CPU, op: Opcode) returns (cycles: int)
    requires cpu.Valid()
    modifies cpu, cpu.bus, cpu.bus.memory, cpu.bus.memory.monitor
    ensures cpu.Valid()
    ensures cpu.State() == S.Pha(old(cpu.State()), op).m
    ensures cycles == op.cycles && cpu.cycles == old(cpu.cycles)
  {
    cpu.PushByte(cpu.a);
    cycles := op.cycles;
  }

  method Pla(cpu: CPU, op: Opcode) returns (cycles: int)
    requires cpu.Valid()
    modifies cpu, cpu.status, cpu.bus.memory.monitor
    ensures cpu.Valid()
    ensures cpu.State() == S.Pla(old(cpu.State()), op).m
    ensures cycles == op.cycles && cpu.cycles == old(cpu.cycles)
  {
    var value := cpu.PullByte();
    LoadStore.SetRegister(cpu, A, value);
    cycles := op.cycles;
  }

  method Php(cpu: CPU, op: Opcode) returns (cycles: int)
    requires cpu.Valid()
    modifies cpu, cpu.bus, cpu.bus.memory, cpu.bus.memory.monitor
    ensures cpu.Valid()
    ensures cpu.State() == S.Php(old(cpu.State()), op).m
    ensures cycles == op.cycles && cpu.cycles == old(cpu.cycles)
  {
    var status := (cpu.status.flags | Mask(BREAK_COMMAND)) as int;
    cpu.PushByte(status);
    cycles := op.cycles;
  }

  method Plp(cpu: CPU, op: Opcode) returns (cycles: int)
    requires cpu.Valid()
    modifies cpu, cpu.status, cpu.bus.memory.monitor
    ensures cpu.Valid()
    ensures cpu.State() == S.Plp(old(cpu.State()), op).m
    ensures cycles == op.cycles && cpu.cycles == old(cpu.cycles)
  {
    var pulled := cpu.PullByte();
    var status := (Bv(pulled) & !Mask(BREAK_COMMAND)) | Mask(UNUSED);
    IntRoundTrip(status);
    cpu.status.FromInt(status as int);
    cycles := op.cycles;
  }
}

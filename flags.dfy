/** SEC, CLC, SEI, CLI, SED, CLD and CLV: each sets or clears one status
    flag and does nothing else. */
module FlagsSpec {
  import opened Status
  import opened Opcodes
  import opened Machine

  /** Sets flag `f` to `v`; every other flag, every register and memory are
      unchanged, and PC stays (these instructions have no operand). */
  function SetFlag(m: State, op: Opcode, f: Flag, v: bool): (o: Outcome)
    ensures Has(o.m.p, f) == v && Keeps(m.p, o.m.p, {f})
    ensures o.m.(p := m.p) == m
    ensures o.cycles == op.cycles
  {
    Outcome(m.(p := With(m.p, f, v)), op.cycles)
  }

  /** Running a flag instruction twice leaves the state the first run left. */
  lemma SetFlagIdempotent(m: State, op: Opcode, again: Opcode, f: Flag, v: bool)
    ensures SetFlag(SetFlag(m, op, f, v).m, again, f, v).m == SetFlag(m, op, f, v).m
  {
    WithIdempotent(m.p, f, v);
  }

  /** Of two instructions on the same flag (SEC then CLC, say) only the
      second one counts. */
  lemma LastFlagWins(m: State, op: Opcode, next: Opcode, f: Flag, v: bool, u: bool)
    ensures SetFlag(SetFlag(m, op, f, v).m, next, f, u).m == SetFlag(m, next, f, u).m
  {
    WithOverwrites(m.p, f, v, u);
  }
}

/** The Flags handler class. */
module Flags {
  import opened Status
  import opened Opcodes
  import opened Cpu
  import S = FlagsSpec

  method Sec(cpu: CPU, op: Opcode) returns (cycles: int)
    modifies cpu.status
    ensures cpu.State() == S.SetFlag(old(cpu.State()), op, CARRY, true).m
    ensures cycles == op.cycles
  {
    cpu.status.Set(CARRY, true);
    cycles := op.cycles;
  }

  method Clc(cpu: CPU, op: Opcode) returns (cycles: int)
    modifies cpu.status
    ensures cpu.State() == S.SetFlag(old(cpu.State()), op, CARRY, false).m
    ensures cycles == op.cycles
  {
    cpu.status.Set(CARRY, false);
    cycles := op.cycles;
  }

  method Sei(cpu: CPU, op: Opcode) returns (cycles: int)
    modifies cpu.status
    ensures cpu.State() == S.SetFlag(old(cpu.State()), op, INTERRUPT_DISABLE, true).m
    ensures cycles == op.cycles
  {
    cpu.status.Set(INTERRUPT_DISABLE, true);
    cycles := op.cycles;
  }

  method Cli(cpu: CPU, op: Opcode) returns (cycles: int)
    modifies cpu.status
    ensures cpu.State() == S.SetFlag(old(cpu.State()), op, INTERRUPT_DISABLE, false).m
    ensures cycles == op.cycles
  {
    cpu.status.Set(INTERRUPT_DISABLE, false);
    cycles := op.cycles;
  }

  method Sed(cpu: CPU, op: Opcode) returns (cycles: int)
    modifies cpu.status
    ensures cpu.State() == S.SetFlag(old(cpu.State()), op, DECIMAL_MODE, true).m
    ensures cycles == op.cycles
  {
    cpu.status.Set(DECIMAL_MODE, true);
    cycles := op.cycles;
  }

  method Cld(cpu: CPU, op: Opcode) returns (cycles: int)
    modifies cpu.status
    ensures cpu.State() == S.SetFlag(old(cpu.State()), op, DECIMAL_MODE, false).m
    ensures cycles == op.cycles
  {
    cpu.status.Set(DECIMAL_MODE, false);
    cycles := op.cycles;
  }

  method Clv(cpu: CPU, op: Opcode) returns (cycles: int)
    modifies cpu.status
    ensures cpu.State() == S.SetFlag(old(cpu.State()), op, OVERFLOW, false).m
    ensures cycles == op.cycles
  {
    cpu.status.Set(OVERFLOW, false);
    cycles := op.cycles;
  }
}

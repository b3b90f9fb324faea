/** Register transfers: no operand, no memory access; every transfer but
    TXS sets Zero and Negative from the value moved. */
module TransferSpec {
  import opened Bits
  import opened Status
  import opened Opcodes
  import opened Machine

  /** `tax`, `tay`, `txa`, `tya`: the destination takes the source's value,
      the source keeps it, Z and N describe it; nothing else changes. */
  function Move(m: State, op: Opcode, from: Reg, to: Reg): (o: Outcome)
    ensures RegValue(o.m, to) == RegValue(m, from) && RegValue(o.m, from) == RegValue(m, from)
    ensures ZN(o.m.p, RegValue(m, from)) && Keeps(m.p, o.m.p, {ZERO, NEGATIVE})
    ensures WithReg(o.m, to, RegValue(m, to)).(p := m.p) == m
    ensures o.cycles == op.cycles
  {
    var v := RegValue(m, from);
    Outcome(WithReg(m, to, v).(p := SetZN(m.p, v)), op.cycles)
  }

  /** `tsx`: X takes the stack pointer, Z and N describe it. */
  function Tsx(m: State, op: Opcode): (o: Outcome)
    ensures o.m.x == m.sp && ZN(o.m.p, m.sp) && Keeps(m.p, o.m.p, {ZERO, NEGATIVE})
    ensures o.m.(x := m.x, p := m.p) == m
    ensures o.cycles == op.cycles
  {
    Outcome(m.(x := m.sp, p := SetZN(m.p, m.sp)), op.cycles)
  }

  /** `txs`: the stack pointer takes X; no flag changes. */
  function Txs(m: State, op: Opcode): (o: Outcome)
    ensures o.m.sp == m.x && o.m.(sp := m.sp) == m
    ensures o.cycles == op.cycles
  {
    Outcome(m.(sp := m.x), op.cycles)
  }

  /** Transferring back right after a transfer changes nothing further:
      TAX then TXA (and the other pairs) leaves the state TAX left. */
  lemma MoveBack(m: State, op: Opcode, back: Opcode, from: Reg, to: Reg)
    requires from != to
    ensures Move(Move(m, op, from, to).m, back, to, from).m == Move(m, op, from, to).m
  {
    var n := Move(m, op, from, to).m;
    var k := Move(n, back, to, from).m;
    assert RegValue(k, from) == RegValue(m, from);
    assert k.p == n.p by {
      FlagsDetermineWord(k.p, n.p);
    }
  }

  /** TXS then TSX: X is unchanged, SP equals X, and Z and N describe X. */
  lemma TxsThenTsx(m: State, op: Opcode, back: Opcode)
    ensures Tsx(Txs(m, op).m, back).m == m.(sp := m.x, p := SetZN(m.p, m.x))
  {
  }
}

/** The Transfer handler class. */
module Transfer {
  import opened Bits
  import opened Status
  import opened Opcodes
  import opened Cpu
  import opened Machine
  import S = TransferSpec

  method Tax(cpu: CPU, op: Opcode) returns (cycles: int)
    requires cpu.Valid()
    modifies cpu, cpu.status
    ensures cpu.Valid()
    ensures cpu.State() == S.Move(old(cpu.State()), op, A, X).m
    ensures cycles == op.cycles && cpu.cycles == old(cpu.cycles)
  {
    var value := cpu.a;
    cpu.SetRegisterX(value);
    cpu.status.Set(ZERO, value == 0);
    cpu.status.Set(NEGATIVE, Bit7(value));
    cycles := op.cycles;
  }

  method Tay(cpu: CPU, op: Opcode) returns (cycles: int)
    requires cpu.Valid()
    modifies cpu, cpu.status
    ensures cpu.Valid()
    ensures cpu.State() == S.Move(old(cpu.State()), op, A, Y).m
    ensures cycles == op.cycles && cpu.cycles == old(cpu.cycles)
  {
    var value := cpu.a;
    cpu.SetRegisterY(value);
    cpu.status.Set(ZERO, value == 0);
    cpu.status.Set(NEGATIVE, Bit7(value));
    cycles := op.cycles;
  }

  method Txa(cpu: CPU, op: Opcode) returns (cycles: int)
    requires cpu.Valid()
    modifies cpu, cpu.status
    ensures cpu.Valid()
    ensures cpu.State() == S.Move(old(cpu.State()), op, X, A).m
    ensures cycles == op.cycles && cpu.cycles == old(cpu.cycles)
  {
    var value := cpu.x;
    cpu.SetAccumulator(value);
    cpu.status.Set(ZERO, value == 0);
    cpu.status.Set(NEGATIVE, Bit7(value));
    cycles := op.cycles;
  }

  method Tya(cpu: CPU, op: Opcode) returns (cycles: int)
    requires cpu.Valid()
    modifies cpu, cpu.status
    ensures cpu.Valid()
    ensures cpu.State() == S.Move(old(cpu.State()), op, Y, A).m
    ensures cycles == op.cycles && cpu.cycles == old(cpu.cycles)
  {
    var value := cpu.y;
    cpu.SetAccumulator(value);
    cpu.status.Set(ZERO, value == 0);
    cpu.status.Set(NEGATIVE, Bit7(value));
    cycles := op.cycles;
  }

  method Tsx(cpu: CPU, op: Opcode) returns (cycles: int)
    requires cpu.Valid()
    modifies cpu, cpu.status
    ensures cpu.Valid()
    ensures cpu.State() == S.Tsx(old(cpu.State()), op).m
    ensures cycles == op.cycles && cpu.cycles == old(cpu.cycles)
  {
    var value := cpu.sp;
    cpu.SetRegisterX(value);
    cpu.status.Set(ZERO, value == 0);
    cpu.status.Set(NEGATIVE, Bit7(value));
    cycles := op.cycles;
  }

  method Txs(cpu: CPU, op: Opcode) returns (cycles: int)
    requires cpu.Valid()
    modifies cpu
    ensures cpu.Valid()
    ensures cpu.State() == S.Txs(old(cpu.State()), op).m
    ensures cycles == op.cycles && cpu.cycles == old(cpu.cycles)
  {
    cpu.sp := cpu.x;
    cycles := op.cycles;
  }
}

/** AND, ORA and EOR combine A with the operand byte bit by bit; BIT tests
    the operand against A without storing anything. */
module LogicSpec {
  import opened Bits
  import opened Status
  import opened Opcodes
  import opened Machine
  import L = LoadStoreSpec

  /** The three bitwise operators the handlers apply to A. */
  datatype BitOp = AndOp | OrOp | XorOp

  function Combine(k: BitOp, a: Byte, v: Byte): Byte
  {
    match k
    case AndOp => And8(a, v)
    case OrOp => Or8(a, v)
    case XorOp => Xor8(a, v)
  }

  /** `and`, `ora`, `eor`: A takes `A op M`, Z and N describe it, and apart
      from PC moving past the operand nothing else changes. */
  function Bitwise(m: State, op: Opcode, k: BitOp): (o: Outcome)
    ensures o.m.a == Combine(k, m.a, Fetched(m, op.mode))
    ensures ZN(o.m.p, o.m.a) && Keeps(m.p, o.m.p, {ZERO, NEGATIVE})
    ensures o.m.(a := m.a, p := m.p) == Past(m, op.mode)
    ensures o.cycles == op.cycles
  {
    Outcome(L.LoadInto(Past(m, op.mode), A, Combine(k, m.a, Fetched(m, op.mode))), op.cycles)
  }

  /** `bit`: Z when `A & M` is zero, N and V copied from bits 7 and 6 of M;
      A and memory are untouched. */
  function Bit(m: State, op: Opcode): (o: Outcome)
    ensures var v := Fetched(m, op.mode);
      (Has(o.m.p, ZERO) <==> And8(m.a, v) == 0) &&
      (Has(o.m.p, NEGATIVE) <==> Bit7(v)) && (Has(o.m.p, OVERFLOW) <==> Bit6(v))
    ensures Keeps(m.p, o.m.p, {ZERO, NEGATIVE, OVERFLOW})
    ensures o.m.(p := m.p) == Past(m, op.mode)
    ensures o.cycles == op.cycles
  {
    Outcome(Past(m, op.mode).(p := BitFlags(m.p, m.a, Fetched(m, op.mode))), op.cycles)
  }

  function BitFlags(p: bv8, a: Byte, v: Byte): (q: bv8)
    ensures (Has(q, ZERO) <==> And8(a, v) == 0) && (Has(q, NEGATIVE) <==> Bit7(v)) && (Has(q, OVERFLOW) <==> Bit6(v))
    ensures Keeps(p, q, {ZERO, NEGATIVE, OVERFLOW})
  {
    With(With(With(p, ZERO, And8(a, v) == 0), NEGATIVE, Bit7(v)), OVERFLOW, Bit6(v))
  }

  /** EOR with the same operand byte twice gives A back. */
  lemma EorTwice(m: State, op: Opcode, again: Opcode)
    requires Fetched(Bitwise(m, op, XorOp).m, again.mode) == Fetched(m, op.mode)
    ensures Bitwise(Bitwise(m, op, XorOp).m, again, XorOp).m.a == m.a
  {
    XorInvolutive(m.a, Fetched(m, op.mode));
  }

  /** AND can only clear bits of A: the result never exceeds A or M. */
  lemma AndOnlyClears(m: State, op: Opcode)
    ensures Bitwise(m, op, AndOp).m.a <= m.a
    ensures Bitwise(m, op, AndOp).m.a <= Fetched(m, op.mode)
  {
    AndBelow(m.a, Fetched(m, op.mode));
  }

  /** BIT sets Z exactly as AND would, but leaves A alone. */
  lemma BitIsAndWithoutStore(m: State, op: Opcode)
    ensures Has(Bit(m, op).m.p, ZERO) == Has(Bitwise(m, op, AndOp).m.p, ZERO)
    ensures Bit(m, op).m.a == m.a
  {
  }
}

/** The Logic handler class. */
module Logic {
  import opened Bits
  import opened Status
  import opened Opcodes
  import opened Cpu
  import opened Machine
  import S = LogicSpec
  import LoadStore

  method And(cpu: CPU, op: Opcode) returns (cycles: int)
    requires cpu.Valid()
    modifies cpu, cpu.status, cpu.bus.memory.monitor
    ensures cpu.Valid()
    ensures cpu.State() == S.Bitwise(old(cpu.State()), op, S.AndOp).m
    ensures cycles == op.cycles && cpu.cycles == old(cpu.cycles)
  {
    var address := cpu.GetAddress(op.mode);
    var value := cpu.ReadByte(address);
    var result := And8(cpu.a, value);
    LoadStore.SetRegister(cpu, A, result);
    cycles := op.cycles;
  }

  method Ora(cpu: CPU, op: Opcode) returns (cycles: int)
    requires cpu.Valid()
    modifies cpu, cpu.status, cpu.bus.memory.monitor
    ensures cpu.Valid()
    ensures cpu.State() == S.Bitwise(old(cpu.State()), op, S.OrOp).m
    ensures cycles == op.cycles && cpu.cycles == old(cpu.cycles)
  {
    var address := cpu.GetAddress(op.mode);
    var value := cpu.ReadByte(address);
    var result := Or8(cpu.a, value);
    LoadStore.SetRegister(cpu, A, result);
    cycles := op.cycles;
  }

  method Eor(cpu: CPU, op: Opcode) returns (cycles: int)
    requires cpu.Valid()
    modifies cpu, cpu.status, cpu.bus.memory.monitor
    ensures cpu.Valid()
    ensures cpu.State() == S.Bitwise(old(cpu.State()), op, S.XorOp).m
    ensures cycles == op.cycles && cpu.cycles == old(cpu.cycles)
  {
    var address := cpu.GetAddress(op.mode);
    var value := cpu.ReadByte(address);
    var result := Xor8(cpu.a, value);
    LoadStore.SetRegister(cpu, A, result);
    cycles := op.cycles;
  }

  method Bit(cpu: CPU, op: Opcode) returns (cycles: int)
    requires cpu.Valid()
    modifies cpu, cpu.status, cpu.bus.memory.monitor
    ensures cpu.Valid()
    ensures cpu.State() == S.Bit(old(cpu.State()), op).m
    ensures cycles == op.cycles && cpu.cycles == old(cpu.cycles)
  {
    var address := cpu.GetAddress(op.mode);
    var value := cpu.ReadByte(address);
    SetBitFlags(cpu, cpu.a, value);
    cycles := op.cycles;
  }

  /** The three status updates of BIT. */
  method SetBitFlags(cpu: CPU, a: Byte, value: Byte)
    modifies cpu.status
    ensures cpu.status.flags == S.BitFlags(old(cpu.status.flags), a, value)
  {
    var result := And8(a, value);
    cpu.status.Set(ZERO, result == 0);
    cpu.status.Set(NEGATIVE, Bit7(value));
    cpu.status.Set(OVERFLOW, Bit6(value));
  }
}

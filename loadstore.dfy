/** Loads and stores: the byte at the operand address goes into A, X or Y
    with Zero and Negative describing it, or a register goes to the operand
    address with no flag changed. */
module LoadStoreSpec {
  import opened Bits
  import opened Status
  import opened Bus
  import opened Opcodes
  import opened Machine

  /** `lda`, `ldx`, `ldy`: the register takes the operand byte, Z and N
      describe it, and apart from PC moving past the operand nothing else
      changes. */
  function Load(m: State, op: Opcode, r: Reg): (o: Outcome)
    ensures RegValue(o.m, r) == Fetched(m, op.mode)
    ensures ZN(o.m.p, RegValue(o.m, r)) && Keeps(m.p, o.m.p, {ZERO, NEGATIVE})
    ensures WithReg(o.m, r, RegValue(m, r)).(p := m.p) == Past(m, op.mode)
    ensures o.cycles == op.cycles
  {
    Outcome(LoadInto(Past(m, op.mode), r, Fetched(m, op.mode)), op.cycles)
  }

  /** The register takes `v`; Zero and Negative describe it. */
  function LoadInto(m: State, r: Reg, v: Byte): State
  {
    WithReg(m, r, v).(p := SetZN(m.p, v))
  }

  /** `sta`, `stx`, `sty`: the register goes to the operand address; no
      register and no flag changes. */
  function Store(m: State, op: Opcode, r: Reg): (o: Outcome)
    ensures o.m.(bus := m.bus) == Past(m, op.mode)
    ensures o.cycles == op.cycles
  {
    Outcome(Write(Past(m, op.mode), Target(m, op.mode), RegValue(m, r)), op.cycles)
  }

  /** A store into plain memory leaves every other address reading as before. */
  lemma StoreKeepsOthers(m: State, op: Opcode, r: Reg, other: int)
    requires Unclaimed(m, Target(m, op.mode))
    requires Lo16(other) != Target(m, op.mode)
    ensures Read(Store(m, op, r).m, other) == Read(m, other)
  {
    var past := Past(m, op.mode);
    WriteOver(m, past, Store(m, op, r).m, Target(m, op.mode), RegValue(m, r), other);
  }

  /** A store into plain memory reads back as the stored register. */
  lemma StoreReadsBack(m: State, op: Opcode, r: Reg)
    requires Unclaimed(m, Target(m, op.mode))
    ensures Read(Store(m, op, r).m, Target(m, op.mode)) == RegValue(m, r)
  {
    var past := Past(m, op.mode);
    WriteOver(m, past, Store(m, op, r).m, Target(m, op.mode), RegValue(m, r), 0);
  }

  /** Storing a register into plain memory and loading any register back
      from the same address yields the stored value. */
  lemma StoreThenLoad(m: State, st: Opcode, from: Reg, ld: Opcode, into: Reg)
    requires Unclaimed(m, Target(m, st.mode))
    requires Target(Store(m, st, from).m, ld.mode) == Target(m, st.mode)
    ensures RegValue(Load(Store(m, st, from).m, ld, into).m, into) == RegValue(m, from)
  {
    var w := Store(m, st, from).m;
    assert Fetched(w, ld.mode) == RegValue(m, from) by {
      StoreReadsBack(m, st, from);
    }
  }
}

/** The LoadStore handler class: each handler resolves its operand through
    the CPU, then updates a register and the status register, or writes the
    bus. */
module LoadStore {
  import opened Bits
  import opened Status
  import opened Opcodes
  import opened Cpu
  import opened Machine
  import S = LoadStoreSpec

  method Lda(cpu: CPU, op: Opcode) returns (cycles: int)
    requires cpu.Valid()
    modifies cpu, cpu.status, cpu.bus.memory.monitor
    ensures cpu.Valid()
    ensures cpu.State() == S.Load(old(cpu.State()), op, A).m
    ensures cycles == op.cycles && cpu.cycles == old(cpu.cycles)
  {
    var address := cpu.GetAddress(op.mode);
    var value := cpu.ReadByte(address);
    SetRegister(cpu, A, value);
    cycles := op.cycles;
  }

  method Ldx(cpu: CPU, op: Opcode) returns (cycles: int)
    requires cpu.Valid()
    modifies cpu, cpu.status, cpu.bus.memory.monitor
    ensures cpu.Valid()
    ensures cpu.State() == S.Load(old(cpu.State()), op, X).m
    ensures cycles == op.cycles && cpu.cycles == old(cpu.cycles)
  {
    var address := cpu.GetAddress(op.mode);
    var value := cpu.ReadByte(address);
    SetRegister(cpu, X, value);
    cycles := op.cycles;
  }

  method Ldy(cpu: CPU, op: Opcode) returns (cycles: int)
    requires cpu.Valid()
    modifies cpu, cpu.status, cpu.bus.memory.monitor
    ensures cpu.Valid()
    ensures cpu.State() == S.Load(old(cpu.State()), op, Y).m
    ensures cycles == op.cycles && cpu.cycles == old(cpu.cycles)
  {
    var address := cpu.GetAddress(op.mode);
    var value := cpu.ReadByte(address);
    SetRegister(cpu, Y, value);
    cycles := op.cycles;
  }

  method Sta(cpu: CPU, op: Opcode) returns (cycles: int)
    requires cpu.Valid()
    modifies cpu, cpu.bus, cpu.bus.memory, cpu.bus.memory.monitor
    ensures cpu.Valid()
    ensures cpu.State() == S.Store(old(cpu.State()), op, A).m
    ensures cycles == op.cycles && cpu.cycles == old(cpu.cycles)
  {
    var address := cpu.GetAddress(op.mode);
    cpu.WriteByte(address, cpu.a);
    cycles := op.cycles;
  }

  method Stx(cpu: CPU, op: Opcode) returns (cycles: int)
    requires cpu.Valid()
    modifies cpu, cpu.bus, cpu.bus.memory, cpu.bus.memory.monitor
    ensures cpu.Valid()
    ensures cpu.State() == S.Store(old(cpu.State()), op, X).m
    ensures cycles == op.cycles && cpu.cycles == old(cpu.cycles)
  {
    var address := cpu.GetAddress(op.mode);
    cpu.WriteByte(address, cpu.x);
    cycles := op.cycles;
  }

  method Sty(cpu: CPU, op: Opcode) returns (cycles: int)
    requires cpu.Valid()
    modifies cpu, cpu.bus, cpu.bus.memory, cpu.bus.memory.monitor
    ensures cpu.Valid()
    ensures cpu.State() == S.Store(old(cpu.State()), op, Y).m
    ensures cycles == op.cycles && cpu.cycles == old(cpu.cycles)
  {
    var address := cpu.GetAddress(op.mode);
    cpu.WriteByte(address, cpu.y);
    cycles := op.cycles;
  }

  /** A register setter followed by the Zero and Negative updates, as the
      load and transfer handlers write them. */
  method SetRegister(cpu: CPU, r: Reg, value: Byte)
    modifies cpu, cpu.status
    ensures cpu.State() == S.LoadInto(old(cpu.State()), r, value) && cpu.cycles == old(cpu.cycles)
  {
    match r {
      case A => cpu.SetAccumulator(value);
      case X => cpu.SetRegisterX(value);
      case Y => cpu.SetRegisterY(value);
    }
    cpu.status.Set(ZERO, value == 0);
    cpu.status.Set(NEGATIVE, Bit7(value));
  }
}

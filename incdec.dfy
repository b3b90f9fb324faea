/** INC and DEC change a memory byte by one; INX, DEX, INY and DEY change an
    index register by one. All wrap in eight bits and set Zero and Negative
    from the result. */
module IncDecSpec {
  import opened Bits
  import opened Status
  import opened Opcodes
  import opened Machine
  import L = LoadStoreSpec

  /** `(value + 1) & 0xFF` or `(value - 1) & 0xFF`: one up or down, with
      0xFF + 1 wrapping to 0 and 0 - 1 to 0xFF. */
  function Bump(v: Byte, up: bool): (r: Byte)
    ensures up ==> (if v == 255 then r == 0 else r == v + 1)
    ensures !up ==> (if v == 0 then r == 255 else r == v - 1)
  {
    if up then Lo8(v + 1) else Lo8(v - 1)
  }

  /** The byte goes back to `address`, Z and N describe it. */
  function StoreInto(m: State, address: Word, r: Byte): State
  {
    Write(m, address, r).(p := SetZN(m.p, r))
  }

  /** `inc`, `dec`: the operand byte one up or down is written back; no
      register changes. */
  function Modify(m: State, op: Opcode, up: bool): (o: Outcome)
    ensures o.m.(bus := m.bus, p := m.p) == Past(m, op.mode)
    ensures ZN(o.m.p, Bump(Fetched(m, op.mode), up)) && Keeps(m.p, o.m.p, {ZERO, NEGATIVE})
    ensures o.cycles == op.cycles
  {
    Outcome(StoreInto(Past(m, op.mode), Target(m, op.mode), Bump(Fetched(m, op.mode), up)), op.cycles)
  }

  /** `inx`, `dex`, `iny`, `dey`: the register one up or down; no operand. */
  function Step(m: State, op: Opcode, r: Reg, up: bool): (o: Outcome)
    ensures RegValue(o.m, r) == Bump(RegValue(m, r), up)
    ensures ZN(o.m.p, RegValue(o.m, r)) && Keeps(m.p, o.m.p, {ZERO, NEGATIVE})
    ensures WithReg(o.m, r, RegValue(m, r)).(p := m.p) == m
    ensures o.cycles == op.cycles
  {
    Outcome(L.LoadInto(m, r, Bump(RegValue(m, r), up)), op.cycles)
  }

  /** One step down undoes one step up, and the other way round. */
  lemma BumpBack(v: Byte, up: bool)
    ensures Bump(Bump(v, up), !up) == v
  {
  }

  /** In plain memory INC writes the byte one up at the operand address and
      leaves every other address alone. */
  lemma ModifyReadsBack(m: State, op: Opcode, up: bool, other: int)
    requires Unclaimed(m, Target(m, op.mode))
    ensures Read(Modify(m, op, up).m, Target(m, op.mode)) == Bump(Fetched(m, op.mode), up)
    ensures Lo16(other) != Target(m, op.mode) ==> Read(Modify(m, op, up).m, other) == Read(m, other)
    ensures Unclaimed(Modify(m, op, up).m, Target(m, op.mode))
  {
    var past, target, b := Past(m, op.mode), Target(m, op.mode), Bump(Fetched(m, op.mode), up);
    var n := Modify(m, op, up).m;
    assert n.bus == Write(past, target, b).bus;
    WriteOver(m, past, n, target, b, other);
  }

  /** INC then DEC of the same plain-memory byte restores it. */
  lemma IncThenDec(m: State, inc: Opcode, dec: Opcode)
    requires Unclaimed(m, Target(m, inc.mode))
    requires Target(Modify(m, inc, true).m, dec.mode) == Target(m, inc.mode)
    ensures Read(Modify(Modify(m, inc, true).m, dec, false).m, Target(m, inc.mode)) == Fetched(m, inc.mode)
  {
    var n := Modify(m, inc, true).m;
    var target := Target(m, inc.mode);
    ModifyReadsBack(m, inc, true, target);
    ModifyReadsBack(n, dec, false, target);
    BumpBack(Fetched(m, inc.mode), true);
  }

  /** INX then DEX (or INY then DEY, or the reverse) restores the register. */
  lemma StepBack(m: State, op: Opcode, back: Opcode, r: Reg, up: bool)
    ensures RegValue(Step(Step(m, op, r, up).m, back, r, !up).m, r) == RegValue(m, r)
  {
    BumpBack(RegValue(m, r), up);
  }
}

/** The IncDec handler class. */
module IncDec {
  import opened Bits
  import opened Status
  import opened Opcodes
  import opened Cpu
  import opened Machine
  import S = IncDecSpec
  import LoadStore

  method Inc(cpu: CPU, op: Opcode) returns (cycles: int)
    requires cpu.Valid()
    modifies cpu, cpu.status, cpu.bus, cpu.bus.memory, cpu.bus.memory.monitor
    ensures cpu.Valid()
    ensures cpu.State() == S.Modify(old(cpu.State()), op, true).m
    ensures cycles == op.cycles && cpu.cycles == old(cpu.cycles)
  {
    var address := cpu.GetAddress(op.mode);
    var value := cpu.ReadByte(address);
    var result := Lo8(value as int + 1);
    assert result == S.Bump(value, true);
    StoreWithZN(cpu, address, result);
    cycles := op.cycles;
  }

  method Dec(cpu: CPU, op: Opcode) returns (cycles: int)
    requires cpu.Valid()
    modifies cpu, cpu.status, cpu.bus, cpu.bus.memory, cpu.bus.memory.monitor
    ensures cpu.Valid()
    ensures cpu.State() == S.Modify(old(cpu.State()), op, false).m
    ensures cycles == op.cycles && cpu.cycles == old(cpu.cycles)
  {
    var address := cpu.GetAddress(op.mode);
    var value := cpu.ReadByte(address);
    var result := Lo8(value as int - 1);
    assert result == S.Bump(value, false);
    StoreWithZN(cpu, address, result);
    cycles := op.cycles;
  }

  /** The write-back and the Zero and Negative updates of INC and DEC. */
  method StoreWithZN(cpu: CPU, address: Word, result: Byte)
    requires cpu.Valid()
    modifies cpu.status, cpu.bus, cpu.bus.memory, cpu.bus.memory.monitor
    ensures cpu.Valid()
    ensures cpu.State() == S.StoreInto(old(cpu.State()), address, result) && cpu.cycles == old(cpu.cycles)
  {
    cpu.WriteByte(address, result);
    cpu.status.Set(ZERO, result == 0);
    cpu.status.Set(NEGATIVE, Bit7(result));
  }

  method Inx(cpu: CPU, op: Opcode) returns (cycles: int)
    modifies cpu, cpu.status
    ensures cpu.State() == S.Step(old(cpu.State()), op, X, true).m
    ensures cycles == op.cycles && cpu.cycles == old(cpu.cycles)
  {
    LoadStore.SetRegister(cpu, X, Lo8(cpu.x + 1));
    cycles := op.cycles;
  }

  method Dex(cpu: CPU, op: Opcode) returns (cycles: int)
    modifies cpu, cpu.status
    ensures cpu.State() == S.Step(old(cpu.State()), op, X, false).m
    ensures cycles == op.cycles && cpu.cycles == old(cpu.cycles)
  {
    LoadStore.SetRegister(cpu, X, Lo8(cpu.x - 1));
    cycles := op.cycles;
  }

  method Iny(cpu: CPU, op: Opcode) returns (cycles: int)
    modifies cpu, cpu.status
    ensures cpu.State() == S.Step(old(cpu.State()), op, Y, true).m
    ensures cycles == op.cycles && cpu.cycles == old(cpu.cycles)
  {
    LoadStore.SetRegister(cpu, Y, Lo8(cpu.y + 1));
    cycles := op.cycles;
  }

  method Dey(cpu: CPU, op: Opcode) returns (cycles: int)
    modifies cpu, cpu.status
    ensures cpu.State() == S.Step(old(cpu.State()), op, Y, false).m
    ensures cycles == op.cycles && cpu.cycles == old(cpu.cycles)
  {
    LoadStore.SetRegister(cpu, Y, Lo8(cpu.y - 1));
    cycles := op.cycles;
  }
}

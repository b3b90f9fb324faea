/** ASL, LSR, ROL and ROR: a nine-bit shift or rotation through the carry,
    applied to A in Accumulator mode and to the operand byte in memory in
    every other mode. */
module ShiftRotateSpec {
  import opened Bits
  import opened Status
  import opened Opcodes
  import opened Machine
  import opened ArithmeticSpec

  datatype ShiftOp = AslOp | LsrOp | RolOp | RorOp

  /** The shifted byte and the bit that falls out into the carry. */
  datatype Shifted = Shifted(result: Byte, carry: bool)

  /** `value << 1`, `value >> 1`, `(value << 1) | C` and `(value >> 1) | C·0x80`.
      The bit pushed in lands where the shift left a zero, so the `|` is an
      addition. Read as nine-bit numbers with the carry on top (left shifts)
      or at the bottom (right shifts), nothing is lost. */
  function Shift(k: ShiftOp, v: Byte, c: bool): (s: Shifted)
    ensures k == AslOp ==> 2 * v == s.result + 256 * CarryIn(s.carry)
    ensures k == LsrOp ==> v == 2 * s.result + CarryIn(s.carry)
    ensures k == RolOp ==> 2 * v + CarryIn(c) == s.result + 256 * CarryIn(s.carry)
    ensures k == RorOp ==> v + 256 * CarryIn(c) == 2 * s.result + CarryIn(s.carry)
  {
    NineBits(v, CarryIn(c));
    match k
    case AslOp => Shifted(Lo8(v * 2), Bit7(v))
    case LsrOp => Shifted(v / 2, Bit0(v))
    case RolOp => Shifted(Lo8(v * 2 + CarryIn(c)), Bit7(v))
    case RorOp => Shifted(v / 2 + (if c then 0x80 else 0), Bit0(v))
  }

  /** A byte shifted left keeps its low eight bits and loses bit 7; shifted
      right it loses bit 0. */
  lemma NineBits(v: Byte, k: int)
    requires 0 <= k <= 1
    ensures Bit7(v) <==> v >= 128
    ensures Lo8(v * 2) == if v >= 128 then v * 2 - 256 else v * 2
    ensures Lo8(v * 2 + k) == if v >= 128 then v * 2 + k - 256 else v * 2 + k
    ensures v == 2 * (v / 2) + v % 2 && (Bit0(v) <==> v % 2 == 1)
  {
  }

  /** C takes the bit shifted out; Z and N describe the result, except that
      LSR clears N outright. */
  function ShiftFlags(p: bv8, k: ShiftOp, s: Shifted): (q: bv8)
    ensures Has(q, CARRY) == s.carry
    ensures (Has(q, ZERO) <==> s.result == 0) && (Has(q, NEGATIVE) <==> (k != LsrOp && Bit7(s.result)))
    ensures Keeps(p, q, {CARRY, ZERO, NEGATIVE})
  {
    With(With(With(p, CARRY, s.carry), ZERO, s.result == 0), NEGATIVE, k != LsrOp && Bit7(s.result))
  }

  /** Accumulator mode: A takes the result; no operand, so PC stays. */
  function IntoA(m: State, k: ShiftOp, s: Shifted): State
  {
    m.(a := s.result, p := ShiftFlags(m.p, k, s))
  }

  /** Memory modes: the result is written back to the operand address. */
  function IntoMemory(m: State, address: Word, k: ShiftOp, s: Shifted): State
  {
    Write(m, address, s.result).(p := ShiftFlags(m.p, k, s))
  }

  /** `asl`, `lsr`, `rol`, `ror`. */
  function ShiftRotate(m: State, op: Opcode, k: ShiftOp): (o: Outcome)
    ensures op.mode == Accumulator ==>
      var s := Shift(k, m.a, Has(m.p, CARRY));
      o.m.a == s.result && o.m.(a := m.a, p := m.p) == m && Has(o.m.p, CARRY) == s.carry &&
      ZN(o.m.p, s.result)
    ensures op.mode != Accumulator ==>
      var s := Shift(k, Fetched(m, op.mode), Has(m.p, CARRY));
      o.m.(bus := m.bus, p := m.p) == Past(m, op.mode) && Has(o.m.p, CARRY) == s.carry &&
      ZN(o.m.p, s.result)
    ensures Keeps(m.p, o.m.p, {CARRY, ZERO, NEGATIVE})
    ensures o.cycles == op.cycles
  {
    var c := Has(m.p, CARRY);
    if op.mode == Accumulator then
      ShiftSetsZN(m.p, k, m.a, c);
      Outcome(IntoA(m, k, Shift(k, m.a, c)), op.cycles)
    else
      ShiftSetsZN(Past(m, op.mode).p, k, Fetched(m, op.mode), c);
      Outcome(IntoMemory(Past(m, op.mode), Target(m, op.mode), k, Shift(k, Fetched(m, op.mode), c)), op.cycles)
  }

  /** The memory forms leave the shifted byte at the operand address when
      that address is plain memory; every other address keeps its byte. */
  lemma ShiftMemoryReadsBack(m: State, op: Opcode, k: ShiftOp, other: int)
    requires op.mode != Accumulator && Unclaimed(m, Target(m, op.mode))
    ensures Read(ShiftRotate(m, op, k).m, Target(m, op.mode)) ==
      Shift(k, Fetched(m, op.mode), Has(m.p, CARRY)).result
    ensures Lo16(other) != Target(m, op.mode) ==> Read(ShiftRotate(m, op, k).m, other) == Read(m, other)
  {
    var s := Shift(k, Fetched(m, op.mode), Has(m.p, CARRY));
    ShiftMemoryBus(m, op, k);
    WriteOver(m, Past(m, op.mode), ShiftRotate(m, op, k).m, Target(m, op.mode), s.result, other);
  }

  /** In a memory mode the bus afterwards is the operand write's. */
  lemma ShiftMemoryBus(m: State, op: Opcode, k: ShiftOp)
    requires op.mode != Accumulator
    ensures ShiftRotate(m, op, k).m.bus ==
      Write(Past(m, op.mode), Target(m, op.mode), Shift(k, Fetched(m, op.mode), Has(m.p, CARRY)).result).bus
  {
  }

  /** ROR undoes ROL and ROL undoes ROR: the carry is the ninth bit. */
  lemma {:induction false} RotateBack(v: Byte, c: bool)
    ensures var r := Shift(RolOp, v, c); Shift(RorOp, r.result, r.carry) == Shifted(v, c)
    ensures var r := Shift(RorOp, v, c); Shift(RolOp, r.result, r.carry) == Shifted(v, c)
  {
    var r := Shift(RolOp, v, c);
    var b := Shift(RorOp, r.result, r.carry);
    assert b.carry == c;
    var l := Shift(RorOp, v, c);
    var d := Shift(RolOp, l.result, l.carry);
    assert d.carry == c;
  }

  /** ROL A then ROR A restores A and the carry. */
  lemma RolThenRor(m: State, rol: Opcode, ror: Opcode)
    requires rol.mode == Accumulator && ror.mode == Accumulator
    ensures var n := ShiftRotate(ShiftRotate(m, rol, RolOp).m, ror, RorOp).m;
      n.a == m.a && Has(n.p, CARRY) == Has(m.p, CARRY)
  {
    RotateBack(m.a, Has(m.p, CARRY));
  }

  /** Clearing N outright in LSR agrees with bit 7 of its result, which a
      right shift always leaves 0: after every shift or rotate Z and N
      describe the result. */
  lemma ShiftSetsZN(p: bv8, k: ShiftOp, v: Byte, c: bool)
    ensures ZN(ShiftFlags(p, k, Shift(k, v, c)), Shift(k, v, c).result)
  {
    if k == LsrOp {
      assert !Bit7(Shift(k, v, c).result);
    }
  }
}

/** The ShiftRotate handler class. */
module ShiftRotate {
  import opened Bits
  import opened Status
  import opened Opcodes
  import opened Cpu
  import opened Machine
  import S = ShiftRotateSpec

  method Asl(cpu: CPU, op: Opcode) returns (cycles: int)
    requires cpu.Valid()
    modifies cpu, cpu.status, cpu.bus, cpu.bus.memory, cpu.bus.memory.monitor
    ensures cpu.Valid()
    ensures cpu.State() == S.ShiftRotate(old(cpu.State()), op, S.AslOp).m
    ensures cycles == op.cycles && cpu.cycles == old(cpu.cycles)
  {
    ShiftOperand(cpu, op, S.AslOp);
    cycles := op.cycles;
  }

  method Lsr(cpu: CPU, op: Opcode) returns (cycles: int)
    requires cpu.Valid()
    modifies cpu, cpu.status, cpu.bus, cpu.bus.memory, cpu.bus.memory.monitor
    ensures cpu.Valid()
    ensures cpu.State() == S.ShiftRotate(old(cpu.State()), op, S.LsrOp).m
    ensures cycles == op.cycles && cpu.cycles == old(cpu.cycles)
  {
    ShiftOperand(cpu, op, S.LsrOp);
    cycles := op.cycles;
  }

  method Rol(cpu: CPU, op: Opcode) returns (cycles: int)
    requires cpu.Valid()
    modifies cpu, cpu.status, cpu.bus, cpu.bus.memory, cpu.bus.memory.monitor
    ensures cpu.Valid()
    ensures cpu.State() == S.ShiftRotate(old(cpu.State()), op, S.RolOp).m
    ensures cycles == op.cycles && cpu.cycles == old(cpu.cycles)
  {
    ShiftOperand(cpu, op, S.RolOp);
    cycles := op.cycles;
  }

  method Ror(cpu: CPU, op: Opcode) returns (cycles: int)
    requires cpu.Valid()
    modifies cpu, cpu.status, cpu.bus, cpu.bus.memory, cpu.bus.memory.monitor
    ensures cpu.Valid()
    ensures cpu.State() == S.ShiftRotate(old(cpu.State()), op, S.RorOp).m
    ensures cycles == op.cycles && cpu.cycles == old(cpu.cycles)
  {
    ShiftOperand(cpu, op, S.RorOp);
    cycles := op.cycles;
  }

  /** The body the four handlers share: the carry is read first, then A or
      the operand byte is shifted, C is set, the result is stored, and Z and
      N are set. */
  method ShiftOperand(cpu: CPU, op: Opcode, k: S.ShiftOp)
    requires cpu.Valid()
    modifies cpu, cpu.status, cpu.bus, cpu.bus.memory, cpu.bus.memory.monitor
    ensures cpu.Valid()
    ensures cpu.State() == S.ShiftRotate(old(cpu.State()), op, k).m
    ensures cpu.cycles == old(cpu.cycles)
  {
    var carry := cpu.status.Get(CARRY);
    if op.mode == Accumulator {
      var s := S.Shift(k, cpu.a, carry);
      StoreShiftedA(cpu, k, s);
    } else {
      var address := cpu.GetAddress(op.mode);
      var value := cpu.ReadByte(address);
      var s := S.Shift(k, value, carry);
      StoreShiftedMemory(cpu, address, k, s);
    }
  }

  method StoreShiftedA(cpu: CPU, k: S.ShiftOp, s: S.Shifted)
    modifies cpu, cpu.status
    ensures cpu.State() == S.IntoA(old(cpu.State()), k, s) && cpu.cycles == old(cpu.cycles)
  {
    cpu.status.Set(CARRY, s.carry);
    cpu.SetAccumulator(s.result);
    SetShiftZN(cpu, k, s.result);
  }

  method StoreShiftedMemory(cpu: CPU, address: Word, k: S.ShiftOp, s: S.Shifted)
    requires cpu.Valid()
    modifies cpu.status, cpu.bus, cpu.bus.memory, cpu.bus.memory.monitor
    ensures cpu.Valid()
    ensures cpu.State() == S.IntoMemory(old(cpu.State()), address, k, s) && cpu.cycles == old(cpu.cycles)
  {
    cpu.status.Set(CARRY, s.carry);
    cpu.WriteByte(address, s.result);
    SetShiftZN(cpu, k, s.result);
  }

  /** Z from the result; N from its bit 7, or cleared outright by LSR. */
  method SetShiftZN(cpu: CPU, k: S.ShiftOp, result: Byte)
    modifies cpu.status
    ensures cpu.status.flags ==
      With(With(old(cpu.status.flags), ZERO, result == 0), NEGATIVE, k != S.LsrOp && Bit7(result))
  {
    cpu.status.Set(ZERO, result == 0);
    if k == S.LsrOp {
      cpu.status.Set(NEGATIVE, false);
    } else {
      cpu.status.Set(NEGATIVE, Bit7(result));
    }
  }
}

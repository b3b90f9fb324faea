/** Binary add and subtract with carry, and the three compares. Decimal mode
    is not consulted: the handlers compute in binary whatever D holds. */
module ArithmeticSpec {
  import opened Bits
  import opened Status
  import opened Opcodes
  import opened Machine

  /** A byte read as a two's-complement number. */
  function Signed(v: Byte): int
  {
    if v >= 128 then v - 256 else v
  }

  function CarryIn(c: bool): int { if c then 1 else 0 }

  /** The 8-bit result of an add or subtract and the carry and overflow it
      produces. */
  datatype Sum = Sum(result: Byte, carry: bool, overflow: bool)

  /** `adc`'s arithmetic: `A + M + C`; carry when the unsigned sum passes
      0xFF, overflow when the operands agree in sign and the result does
      not. That overflow is exactly a signed sum outside -128..127. */
  function AddWithCarry(a: Byte, v: Byte, c: bool): (s: Sum)
    ensures s.result == Lo8(a + v + CarryIn(c))
    ensures s.carry <==> a + v + CarryIn(c) > 255
    ensures s.overflow <==> !(-128 <= Signed(a) + Signed(v) + CarryIn(c) <= 127)
  {
    var sum := a + v + CarryIn(c);
    assert Lo8(sum) == if sum >= 256 then sum - 256 else sum;
    Sum(Lo8(sum), sum > 0xFF, Bit7(a) != Bit7(sum) && Bit7(v) != Bit7(sum))
  }

  /** `sbc`'s arithmetic: `A - M - (1 - C)`; carry means no borrow (the
      difference is not negative), overflow when the operands differ in sign
      and the result's sign differs from A's: a signed difference outside
      -128..127. */
  function SubtractWithBorrow(a: Byte, v: Byte, c: bool): (s: Sum)
    ensures s.result == Lo8(a - v - (1 - CarryIn(c)))
    ensures s.carry <==> a >= v + 1 - CarryIn(c)
    ensures s.overflow <==> !(-128 <= Signed(a) - Signed(v) - (1 - CarryIn(c)) <= 127)
  {
    var diff := a - v - (1 - CarryIn(c));
    assert Lo8(diff) == if diff < 0 then diff + 256 else diff;
    Sum(Lo8(diff), diff >= 0, Bit7(a) != Bit7(v) && Bit7(a) != Bit7(diff))
  }

  /** Subtracting M is adding its complement `0xFF - M`: result, carry and
      overflow all agree. */
  lemma SubtractIsAddComplement(a: Byte, v: Byte, c: bool)
    ensures SubtractWithBorrow(a, v, c) == AddWithCarry(a, 255 - v, c)
  {
    var s := SubtractWithBorrow(a, v, c);
    var t := AddWithCarry(a, 255 - v, c);
    assert s.result == t.result by {
      assert a + (255 - v) + CarryIn(c) == (a - v - (1 - CarryIn(c))) + 256;
    }
  }

  /** The status word after an add or subtract: C, Z, N and V in that order. */
  function ArithFlags(p: bv8, s: Sum): (q: bv8)
    ensures Has(q, CARRY) == s.carry && Has(q, OVERFLOW) == s.overflow && ZN(q, s.result)
    ensures Keeps(p, q, {CARRY, ZERO, NEGATIVE, OVERFLOW})
  {
    With(With(With(With(p, CARRY, s.carry), ZERO, s.result == 0), NEGATIVE, Bit7(s.result)), OVERFLOW, s.overflow)
  }

  /** `adc`: A takes the sum; C, Z, N and V as `AddWithCarry` says; I, D, B
      and memory are untouched. */
  function Adc(m: State, op: Opcode): (o: Outcome)
    ensures var s := AddWithCarry(m.a, Fetched(m, op.mode), Has(m.p, CARRY));
      o.m.a == s.result && Has(o.m.p, CARRY) == s.carry && Has(o.m.p, OVERFLOW) == s.overflow
    ensures ZN(o.m.p, o.m.a) && Keeps(m.p, o.m.p, {CARRY, ZERO, NEGATIVE, OVERFLOW})
    ensures o.m.(a := m.a, p := m.p) == Past(m, op.mode)
    ensures o.cycles == op.cycles
  {
    Outcome(SumInto(Past(m, op.mode), AddWithCarry(m.a, Fetched(m, op.mode), Has(m.p, CARRY))), op.cycles)
  }

  /** `sbc`: A takes the difference; C, Z, N and V as `SubtractWithBorrow`
      says. */
  function Sbc(m: State, op: Opcode): (o: Outcome)
    ensures var s := SubtractWithBorrow(m.a, Fetched(m, op.mode), Has(m.p, CARRY));
      o.m.a == s.result && Has(o.m.p, CARRY) == s.carry && Has(o.m.p, OVERFLOW) == s.overflow
    ensures ZN(o.m.p, o.m.a) && Keeps(m.p, o.m.p, {CARRY, ZERO, NEGATIVE, OVERFLOW})
    ensures o.m.(a := m.a, p := m.p) == Past(m, op.mode)
    ensures o.cycles == op.cycles
  {
    Outcome(SumInto(Past(m, op.mode), SubtractWithBorrow(m.a, Fetched(m, op.mode), Has(m.p, CARRY))), op.cycles)
  }

  /** A takes the 8-bit result; the flags take its C, Z, N and V. */
  function SumInto(m: State, s: Sum): State
  {
    m.(a := s.result, p := ArithFlags(m.p, s))
  }

  /** `cmp`, `cpx`, `cpy`: C when the register is at least M, Z when they are
      equal, N from bit 7 of the 8-bit difference; no register changes. */
  function Compare(m: State, op: Opcode, r: Reg): (o: Outcome)
    ensures var reg, v := RegValue(m, r), Fetched(m, op.mode);
      (Has(o.m.p, CARRY) <==> reg >= v) && (Has(o.m.p, ZERO) <==> reg == v) &&
      (Has(o.m.p, NEGATIVE) <==> Bit7(reg - v))
    ensures Keeps(m.p, o.m.p, {CARRY, ZERO, NEGATIVE})
    ensures o.m.(p := m.p) == Past(m, op.mode)
    ensures o.cycles == op.cycles
  {
    var past := Past(m, op.mode);
    Outcome(past.(p := CompareFlags(m.p, RegValue(m, r), Fetched(m, op.mode))), op.cycles)
  }

  /** C, Z and N from the difference `reg - v`, computed without wrapping. */
  function CompareFlags(p: bv8, reg: Byte, v: Byte): (q: bv8)
    ensures (Has(q, CARRY) <==> reg >= v) && (Has(q, ZERO) <==> reg == v) && (Has(q, NEGATIVE) <==> Bit7(reg - v))
    ensures Keeps(p, q, {CARRY, ZERO, NEGATIVE})
  {
    var result := reg - v;
    assert Lo8(result) == 0 <==> result == 0;
    With(With(With(p, CARRY, result >= 0), ZERO, Lo8(result) == 0), NEGATIVE, Bit7(result))
  }


  /** A compare sets C, Z and N as a subtraction with the carry set would,
      without storing the difference. */
  lemma CompareIsSubtraction(p: bv8, reg: Byte, v: Byte)
    ensures var s := SubtractWithBorrow(reg, v, true);
      var q := CompareFlags(p, reg, v);
      Has(q, CARRY) == s.carry && Has(q, ZERO) == (s.result == 0) && Has(q, NEGATIVE) == Bit7(s.result)
  {
    var d := reg as int - v;
    assert Bit7(d) == Bit7(Lo8(d));
  }

}

/** The Arithmetic handler class. */
module Arithmetic {
  import opened Bits
  import opened Status
  import opened Opcodes
  import opened Cpu
  import opened Machine
  import S = ArithmeticSpec

  method Adc(cpu: CPU, op: Opcode) returns (cycles: int)
    requires cpu.Valid()
    modifies cpu, cpu.status, cpu.bus.memory.monitor
    ensures cpu.Valid()
    ensures cpu.State() == S.Adc(old(cpu.State()), op).m
    ensures cycles == op.cycles && cpu.cycles == old(cpu.cycles)
  {
    var address := cpu.GetAddress(op.mode);
    var value := cpu.ReadByte(address);
    var sum := S.AddWithCarry(cpu.a, value, cpu.status.Get(CARRY));
    StoreSum(cpu, sum);
    cycles := op.cycles;
  }

  method Sbc(cpu: CPU, op: Opcode) returns (cycles: int)
    requires cpu.Valid()
    modifies cpu, cpu.status, cpu.bus.memory.monitor
    ensures cpu.Valid()
    ensures cpu.State() == S.Sbc(old(cpu.State()), op).m
    ensures cycles == op.cycles && cpu.cycles == old(cpu.cycles)
  {
    var address := cpu.GetAddress(op.mode);
    var value := cpu.ReadByte(address);
    var difference := S.SubtractWithBorrow(cpu.a, value, cpu.status.Get(CARRY));
    StoreSum(cpu, difference);
    cycles := op.cycles;
  }

  /** The tail ADC and SBC share: C, Z, N, V in that order, then A. */
  method StoreSum(cpu: CPU, s: S.Sum)
    modifies cpu, cpu.status
    ensures cpu.State() == S.SumInto(old(cpu.State()), s) && cpu.cycles == old(cpu.cycles)
  {
    cpu.status.Set(CARRY, s.carry);
    cpu.status.Set(ZERO, s.result == 0);
    cpu.status.Set(NEGATIVE, Bit7(s.result));
    cpu.status.Set(OVERFLOW, s.overflow);
    cpu.SetAccumulator(s.result);
  }

  method Cmp(cpu: CPU, op: Opcode) returns (cycles: int)
    requires cpu.Valid()
    modifies cpu, cpu.status, cpu.bus.memory.monitor
    ensures cpu.Valid()
    ensures cpu.State() == S.Compare(old(cpu.State()), op, A).m
    ensures cycles == op.cycles && cpu.cycles == old(cpu.cycles)
  {
    var address := cpu.GetAddress(op.mode);
    var value := cpu.ReadByte(address);
    SetCompareFlags(cpu, cpu.a, value);
    cycles := op.cycles;
  }

  method Cpx(cpu: CPU, op: Opcode) returns (cycles: int)
    requires cpu.Valid()
    modifies cpu, cpu.status, cpu.bus.memory.monitor
    ensures cpu.Valid()
    ensures cpu.State() == S.Compare(old(cpu.State()), op, X).m
    ensures cycles == op.cycles && cpu.cycles == old(cpu.cycles)
  {
    var address := cpu.GetAddress(op.mode);
    var value := cpu.ReadByte(address);
    SetCompareFlags(cpu, cpu.x, value);
    cycles := op.cycles;
  }

  method Cpy(cpu: CPU, op: Opcode) returns (cycles: int)
    requires cpu.Valid()
    modifies cpu, cpu.status, cpu.bus.memory.monitor
    ensures cpu.Valid()
    ensures cpu.State() == S.Compare(old(cpu.State()), op, Y).m
    ensures cycles == op.cycles && cpu.cycles == old(cpu.cycles)
  {
    var address := cpu.GetAddress(op.mode);
    var value := cpu.ReadByte(address);
    SetCompareFlags(cpu, cpu.y, value);
    cycles := op.cycles;
  }

  /** The three status updates of CMP, CPX and CPY. */
  method SetCompareFlags(cpu: CPU, register: Byte, value: Byte)
    modifies cpu.status
    ensures cpu.status.flags == S.CompareFlags(old(cpu.status.flags), register, value)
  {
    var result := register as int - value;
    cpu.status.Set(CARRY, result >= 0);
    cpu.status.Set(ZERO, Lo8(result) == 0);
    cpu.status.Set(NEGATIVE, Bit7(result));
  }
}

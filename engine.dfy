/** The instruction engine: which handler a mnemonic goes to, the clock tick
    that fetches an opcode when the cycle counter is zero and otherwise
    counts it down, and `execute`, which looks an opcode up by its text. */
module EngineSpec {
  import opened Wrappers
  import opened Bits
  import opened Status
  import opened Bus
  import opened Hex
  import opened Opcodes
  import opened Machine
  import Text
  import LS = LoadStoreSpec
  import TR = TransferSpec
  import AR = ArithmeticSpec
  import LG = LogicSpec
  import SR = ShiftRotateSpec
  import ID = IncDecSpec
  import FC = FlowControlSpec
  import ST = StackSpec
  import FL = FlagsSpec

  datatype CpuError =
    | UnknownOpcode(key: string)       // no table entry under the key
    | NotImplemented(mnemonic: string) // an entry, but no handler for its mnemonic

  const LOAD_STORE: set<string> := {"LDA", "LDX", "LDY", "STA", "STX", "STY"}
  const TRANSFER: set<string> := {"TAX", "TAY", "TXA", "TYA", "TSX", "TXS"}
  const ARITHMETIC: set<string> := {"ADC", "SBC", "CMP", "CPX", "CPY"}
  const LOGIC: set<string> := {"AND", "ORA", "EOR", "BIT"}
  const SHIFT_ROTATE: set<string> := {"ASL", "LSR", "ROL", "ROR"}
  const INC_DEC: set<string> := {"INC", "DEC", "INX", "DEX", "INY", "DEY"}
  const JUMPS: set<string> := {"JMP", "JSR", "RTS"}
  const INTERRUPTS: set<string> := {"BRK", "RTI"}
  const STACK: set<string> := {"PHA", "PLA", "PHP", "PLP"}
  const FLAGS: set<string> := {"SEC", "CLC", "SEI", "CLI", "SED", "CLD", "CLV"}

  /** Every mnemonic `step` can run: the nine families and NOP. */
  const MNEMONICS: set<string> :=
    LOAD_STORE + TRANSFER + ARITHMETIC + LOGIC + SHIFT_ROTATE + INC_DEC + BRANCHES + JUMPS + INTERRUPTS + STACK + FLAGS + {"NOP"}

  function LoadStore(m: State, op: Opcode): (r: Option<Outcome>)
    ensures r.Some? <==> op.mnemonic in LOAD_STORE
  {
    match op.mnemonic
    case "LDA" => Some(LS.Load(m, op, A))
    case "LDX" => Some(LS.Load(m, op, X))
    case "LDY" => Some(LS.Load(m, op, Y))
    case "STA" => Some(LS.Store(m, op, A))
    case "STX" => Some(LS.Store(m, op, X))
    case "STY" => Some(LS.Store(m, op, Y))
    case _ => None
  }

  function Transfer(m: State, op: Opcode): (r: Option<Outcome>)
    ensures r.Some? <==> op.mnemonic in TRANSFER
  {
    match op.mnemonic
    case "TAX" => Some(TR.Move(m, op, A, X))
    case "TAY" => Some(TR.Move(m, op, A, Y))
    case "TXA" => Some(TR.Move(m, op, X, A))
    case "TYA" => Some(TR.Move(m, op, Y, A))
    case "TSX" => Some(TR.Tsx(m, op))
    case "TXS" => Some(TR.Txs(m, op))
    case _ => None
  }

  function Arithmetic(m: State, op: Opcode): (r: Option<Outcome>)
    ensures r.Some? <==> op.mnemonic in ARITHMETIC
  {
    match op.mnemonic
    case "ADC" => Some(AR.Adc(m, op))
    case "SBC" => Some(AR.Sbc(m, op))
    case "CMP" => Some(AR.Compare(m, op, A))
    case "CPX" => Some(AR.Compare(m, op, X))
    case "CPY" => Some(AR.Compare(m, op, Y))
    case _ => None
  }

  function Logic(m: State, op: Opcode): (r: Option<Outcome>)
    ensures r.Some? <==> op.mnemonic in LOGIC
  {
    match op.mnemonic
    case "AND" => Some(LG.Bitwise(m, op, LG.AndOp))
    case "ORA" => Some(LG.Bitwise(m, op, LG.OrOp))
    case "EOR" => Some(LG.Bitwise(m, op, LG.XorOp))
    case "BIT" => Some(LG.Bit(m, op))
    case _ => None
  }

  function ShiftRotate(m: State, op: Opcode): (r: Option<Outcome>)
    ensures r.Some? <==> op.mnemonic in SHIFT_ROTATE
  {
    match op.mnemonic
    case "ASL" => Some(SR.ShiftRotate(m, op, SR.AslOp))
    case "LSR" => Some(SR.ShiftRotate(m, op, SR.LsrOp))
    case "ROL" => Some(SR.ShiftRotate(m, op, SR.RolOp))
    case "ROR" => Some(SR.ShiftRotate(m, op, SR.RorOp))
    case _ => None
  }

  function IncDec(m: State, op: Opcode): (r: Option<Outcome>)
    ensures r.Some? <==> op.mnemonic in INC_DEC
  {
    match op.mnemonic
    case "INC" => Some(ID.Modify(m, op, true))
    case "DEC" => Some(ID.Modify(m, op, false))
    case "INX" => Some(ID.Step(m, op, X, true))
    case "DEX" => Some(ID.Step(m, op, X, false))
    case "INY" => Some(ID.Step(m, op, Y, true))
    case "DEY" => Some(ID.Step(m, op, Y, false))
    case _ => None
  }

  function Branches(m: State, op: Opcode): (r: Option<Outcome>)
    ensures r.Some? <==> op.mnemonic in BRANCHES
  {
    match op.mnemonic
    case "BEQ" => Some(FC.Branch(m, op, Has(m.p, ZERO)))
    case "BNE" => Some(FC.Branch(m, op, !Has(m.p, ZERO)))
    case "BCC" => Some(FC.Branch(m, op, !Has(m.p, CARRY)))
    case "BCS" => Some(FC.Branch(m, op, Has(m.p, CARRY)))
    case "BPL" => Some(FC.Branch(m, op, !Has(m.p, NEGATIVE)))
    case "BMI" => Some(FC.Branch(m, op, Has(m.p, NEGATIVE)))
    case "BVC" => Some(FC.Branch(m, op, !Has(m.p, OVERFLOW)))
    case "BVS" => Some(FC.Branch(m, op, Has(m.p, OVERFLOW)))
    case _ => None
  }

  function Jumps(m: State, op: Opcode): (r: Option<Outcome>)
    ensures r.Some? <==> op.mnemonic in JUMPS
  {
    match op.mnemonic
    case "JMP" => Some(FC.Jmp(m, op))
    case "JSR" => Some(FC.Jsr(m, op))
    case "RTS" => Some(FC.Rts(m, op))
    case _ => None
  }

  function Interrupts(m: State, op: Opcode): (r: Option<Outcome>)
    ensures r.Some? <==> op.mnemonic in INTERRUPTS
  {
    match op.mnemonic
    case "BRK" => Some(FC.Brk(m, op))
    case "RTI" => Some(FC.Rti(m, op))
    case _ => None
  }

  function Stack(m: State, op: Opcode): (r: Option<Outcome>)
    ensures r.Some? <==> op.mnemonic in STACK
  {
    match op.mnemonic
    case "PHA" => Some(ST.Pha(m, op))
    case "PLA" => Some(ST.Pla(m, op))
    case "PHP" => Some(ST.Php(m, op))
    case "PLP" => Some(ST.Plp(m, op))
    case _ => None
  }

  function Flags(m: State, op: Opcode): (r: Option<Outcome>)
    ensures r.Some? <==> op.mnemonic in FLAGS
  {
    match op.mnemonic
    case "SEC" => Some(FL.SetFlag(m, op, CARRY, true))
    case "CLC" => Some(FL.SetFlag(m, op, CARRY, false))
    case "SEI" => Some(FL.SetFlag(m, op, INTERRUPT_DISABLE, true))
    case "CLI" => Some(FL.SetFlag(m, op, INTERRUPT_DISABLE, false))
    case "SED" => Some(FL.SetFlag(m, op, DECIMAL_MODE, true))
    case "CLD" => Some(FL.SetFlag(m, op, DECIMAL_MODE, false))
    case "CLV" => Some(FL.SetFlag(m, op, OVERFLOW, false))
    case _ => None
  }

  /** The handler run for an opcode entry, on the state after the opcode
      byte was fetched; nothing when no handler serves the mnemonic. NOP
      costs its cycles and changes nothing. */
  function Exec(m: State, op: Opcode): (r: Option<Outcome>)
    ensures r.Some? <==> op.mnemonic in MNEMONICS
  {
    if op.mnemonic in LOAD_STORE then LoadStore(m, op)
    else if op.mnemonic in TRANSFER then Transfer(m, op)
    else if op.mnemonic in ARITHMETIC then Arithmetic(m, op)
    else if op.mnemonic in LOGIC then Logic(m, op)
    else if op.mnemonic in SHIFT_ROTATE then ShiftRotate(m, op)
    else if op.mnemonic in INC_DEC then IncDec(m, op)
    else if op.mnemonic in BRANCHES then Branches(m, op)
    else if op.mnemonic in JUMPS then Jumps(m, op)
    else if op.mnemonic in INTERRUPTS then Interrupts(m, op)
    else if op.mnemonic in STACK then Stack(m, op)
    else if op.mnemonic in FLAGS then Flags(m, op)
    else if op.mnemonic == "NOP" then Some(Outcome(m, op.cycles))
    else None
  }

  /** `bus->tick()`: every peripheral ticks once; registers and memory stay. */
  function Ticked(m: State): State
  {
    m.(bus := m.bus.(devices := TickAll(m.bus.devices)))
  }

  /** The handler set of a CPU: given the state after the fetch and an
      opcode entry, the handler's outcome, or nothing without a handler. */
  type Handlers = (State, Opcode) -> Option<Outcome>

  /** The CPU between clock ticks: machine state and cycles left. */
  datatype Core = Core(m: State, cycles: int)

  datatype Stepped = Stepped(core: Core, error: Option<CpuError>)

  /** A CPU whose state, cycle counter and reported error are those of `r`. */
  predicate Reached(r: Stepped, m: State, cycles: int, error: Option<CpuError>)
  {
    m == r.core.m && cycles == r.core.cycles && error == r.error
  }

  /** The same registers, flags and memory; peripherals may differ. */
  predicate SameCpu(m: State, n: State)
  {
    m.(bus := n.bus) == n && m.bus.cells == n.bus.cells
  }

  /** The fetch half of a tick at cycle zero: the opcode byte at PC is read
      and PC moves past it; the byte's `0x%02X` key is looked up and the
      handler runs. The counter is the handler's cycle count. A missing
      entry or handler stops here with an error, PC already past the byte. */
  function Fetch(m: State, table: Table, exec: Handlers): Stepped
  {
    var key := OpcodeKey(Read(m, m.pc));
    var fetched := m.(pc := Lo16(m.pc as int + 1));
    if key !in table.values then Stepped(Core(fetched, 0), Some(UnknownOpcode(key)))
    else
      match exec(fetched, table.values[key])
      case None => Stepped(Core(fetched, 0), Some(NotImplemented(table.values[key].mnemonic)))
      case Some(o) => Stepped(Core(o.m, o.cycles), None)
  }

  /** One clock tick: a fetch when the counter is zero; then, unless the
      fetch failed, the counter drops by one and the bus ticks. */
  function Step(c: Core, table: Table, exec: Handlers): (r: Stepped)
    ensures c.cycles != 0 ==> r.error == None && r.core.cycles == c.cycles - 1 && SameCpu(r.core.m, c.m)
    ensures c.cycles == 0 ==>
      var key := OpcodeKey(Read(c.m, c.m.pc));
      var fetched := c.m.(pc := Lo16(c.m.pc as int + 1));
      (key !in table.values ==> r.error == Some(UnknownOpcode(key))) &&
      (key in table.values && exec(fetched, table.values[key]).None? ==>
        r.error == Some(NotImplemented(table.values[key].mnemonic))) &&
      (key in table.values && exec(fetched, table.values[key]).Some? ==>
        var o := exec(fetched, table.values[key]).value;
        r.error == None && r.core.cycles == o.cycles - 1 && SameCpu(r.core.m, o.m))
  {
    var f := if c.cycles == 0 then Fetch(c.m, table, exec) else Stepped(c, None);
    if f.error.Some? then f else Stepped(Core(Ticked(f.core.m), f.core.cycles - 1), None)
  }

  /** With the CPU's own handlers a tick fails exactly when it fetches a
      byte the table lacks or whose mnemonic no handler serves. */
  lemma StepFailsExactly(c: Core, table: Table)
    ensures Step(c, table, Exec).error.Some? <==>
      c.cycles == 0 &&
      var key := OpcodeKey(Read(c.m, c.m.pc));
      (key !in table.values || table.values[key].mnemonic !in MNEMONICS)
  {
    if c.cycles == 0 {
      var key := OpcodeKey(Read(c.m, c.m.pc));
      if key in table.values {
        var r := Exec(c.m.(pc := Lo16(c.m.pc as int + 1)), table.values[key]);
      }
    }
  }

  /** `k` clock ticks, stopping at the first error. */
  function Run(c: Core, table: Table, exec: Handlers, k: nat): Stepped
    decreases k
  {
    if k == 0 then Stepped(c, None)
    else
      var s := Step(c, table, exec);
      if s.error.Some? then s else Run(s.core, table, exec, k - 1)
  }

  /** While cycles are left, ticks only count down: registers, flags and
      memory are untouched. */
  lemma {:induction false} CountDown(c: Core, table: Table, exec: Handlers, k: nat)
    requires c.cycles >= k
    decreases k
    ensures var r := Run(c, table, exec, k);
      r.error == None && r.core.cycles == c.cycles - k && SameCpu(r.core.m, c.m)
  {
    if k > 0 {
      var s := Step(c, table, exec);
      CountDown(s.core, table, exec, k - 1);
    }
  }

  /** `do step() while (cycles > 0)` from a fetch: an instruction whose
      handler reports `n` cycles retires after exactly `n` ticks, the
      counter staying positive before that, and leaves the registers, flags
      and memory its handler computed. */
  lemma InstructionRetires(c: Core, table: Table, exec: Handlers)
    requires c.cycles == 0
    requires Step(c, table, exec).error == None
    ensures var key := OpcodeKey(Read(c.m, c.m.pc));
      key in table.values &&
      var r := exec(c.m.(pc := Lo16(c.m.pc as int + 1)), table.values[key]);
      r.Some? && (r.value.cycles >= 1 ==>
        var done := Run(c, table, exec, r.value.cycles);
        done.error == None && done.core.cycles == 0 && SameCpu(done.core.m, r.value.m) &&
        forall j :: 1 <= j < r.value.cycles ==> Run(c, table, exec, j).core.cycles > 0)
  {
    var key := OpcodeKey(Read(c.m, c.m.pc));
    var o := exec(c.m.(pc := Lo16(c.m.pc as int + 1)), table.values[key]).value;
    var s := Step(c, table, exec);
    if o.cycles >= 1 {
      CountDown(s.core, table, exec, o.cycles - 1);
      forall j | 1 <= j < o.cycles
        ensures Run(c, table, exec, j).core.cycles > 0
      {
        CountDown(s.core, table, exec, j - 1);
      }
    }
  }

  /** The handlers `execute` has: the constructor registers LDA alone. */
  const HANDLERS: set<string> := {"LDA"}

  /** The key `execute` looks up, as written: `'0x' . ltrim($opcode, '0x')`.
      `ltrim` takes `'0x'` as a set of characters, so it also strips the
      leading zero digit of a key. */
  function ExecuteKeyAsWritten(opcode: string): string
  {
    "0x" + Text.TrimLeft(opcode, {'0', 'x'})
  }

  /** The as-written key finds only the bytes from 0x10 up: for the other
      sixteen the key loses its zero digit. */
  lemma ExecuteKeyAsWrittenLosesZeroDigit(b: Byte)
    ensures ExecuteKeyAsWritten(OpcodeKey(b)) == OpcodeKey(b) <==> b >= 16
  {
    var k := OpcodeKey(b);
    var h := Hex2(b);
    var z := {'0', 'x'};
    assert k[0] == '0' && k[1..][0] == 'x' && k[1..][1..] == h;
    assert Text.TrimLeft(k, z) == Text.TrimLeft(h, z);
    if b >= 16 {
      assert h[0] != '0' && h[0] != 'x';
    } else {
      assert h[0] == '0';
      assert Text.TrimLeft(h, z) == Text.TrimLeft(h[1..], z);
    }
  }

  /** Two keys as `execute` writes them: ASL A (`0x0A`) becomes `0xA`, and
      BRK (`0x00`) becomes `0x`. */
  lemma ExecuteKeyAsWrittenExamples()
    ensures ExecuteKeyAsWritten("0x0A") == "0xA"
    ensures ExecuteKeyAsWritten("0x00") == "0x"
  {
    var z := {'0', 'x'};
    assert "0x0A"[1..] == "x0A" && "x0A"[1..] == "0A" && "0A"[1..] == "A";
    assert Text.TrimLeft("A", z) == "A";
    assert "0x00"[1..] == "x00" && "x00"[1..] == "00" && "00"[1..] == "0" && "0"[1..] == "";
  }

  /** The key `execute` evidently means: the `0x` prefix once, added when
      the text lacks it. */
  function ExecuteKey(opcode: string): string
  {
    if |opcode| >= 2 && opcode[..2] == "0x" then opcode else "0x" + opcode
  }

  /** Every byte's key is found, written with or without its prefix. */
  lemma ExecuteKeyFindsEveryByte(b: Byte)
    ensures ExecuteKey(OpcodeKey(b)) == OpcodeKey(b)
    ensures ExecuteKey(Hex2(b)) == OpcodeKey(b)
  {
    var h := Hex2(b);
    assert DigitValue(h[1]).Some?;
  }

  /** `execute($opcode)`: the entry filed under the opcode text, or an
      unknown-opcode error; then the mnemonic's handler, or a
      not-implemented error; then the handler on the operand at PC. */
  function Execute(m: State, table: Table, opcode: string): (r: Result<Outcome, CpuError>)
    ensures var key := ExecuteKey(opcode);
      (r.Err? <==> key !in table.values || table.values[key].mnemonic !in HANDLERS) &&
      (key !in table.values ==> r == Err(UnknownOpcode(key))) &&
      (key in table.values && table.values[key].mnemonic !in HANDLERS ==>
        r == Err(NotImplemented(table.values[key].mnemonic)))
  {
    var key := ExecuteKey(opcode);
    if key !in table.values then Err(UnknownOpcode(key))
    else
      var op := table.values[key];
      if op.mnemonic !in HANDLERS then Err(NotImplemented(op.mnemonic))
      else Ok(LS.Load(m, op, A))
  }

  /** What `execute` does for a byte is what a fetch of that byte runs. */
  lemma ExecuteAgreesWithStep(m: State, table: Table, b: Byte)
    requires OpcodeKey(b) in table.values
    ensures Execute(m, table, Hex2(b)).Ok? ==>
      Exec(m, table.values[OpcodeKey(b)]) == Some(Execute(m, table, Hex2(b)).value)
  {
    ExecuteKeyFindsEveryByte(b);
  }
}

/** The CPU's `step` and `execute` over the handler methods. */
module Engine {
  import opened Wrappers
  import opened Bits
  import opened Status
  import opened Hex
  import opened Opcodes
  import opened Cpu
  import opened Machine
  import S = EngineSpec
  import FCS = FlowControlSpec
  import LoadStore
  import Transfer
  import Arithmetic
  import Logic
  import ShiftRotate
  import IncDec
  import FlowControl
  import Stack
  import Flags

  method RunLoadStore(cpu: CPU, op: Opcode) returns (cycles: int)
    requires cpu.Valid() && op.mnemonic in S.LOAD_STORE
    modifies cpu, cpu.status, cpu.bus, cpu.bus.memory, cpu.bus.memory.monitor
    ensures cpu.Valid() && cpu.cycles == old(cpu.cycles)
    ensures var o := S.LoadStore(old(cpu.State()), op).value; cpu.State() == o.m && cycles == o.cycles
  {
    if op.mnemonic == "LDA" { cycles := LoadStore.Lda(cpu, op); }
    else if op.mnemonic == "LDX" { cycles := LoadStore.Ldx(cpu, op); }
    else if op.mnemonic == "LDY" { cycles := LoadStore.Ldy(cpu, op); }
    else if op.mnemonic == "STA" { cycles := LoadStore.Sta(cpu, op); }
    else if op.mnemonic == "STX" { cycles := LoadStore.Stx(cpu, op); }
    else { cycles := LoadStore.Sty(cpu, op); }
  }

  method RunTransfer(cpu: CPU, op: Opcode) returns (cycles: int)
    requires cpu.Valid() && op.mnemonic in S.TRANSFER
    modifies cpu, cpu.status, cpu.bus, cpu.bus.memory, cpu.bus.memory.monitor
    ensures cpu.Valid() && cpu.cycles == old(cpu.cycles)
    ensures var o := S.Transfer(old(cpu.State()), op).value; cpu.State() == o.m && cycles == o.cycles
  {
    if op.mnemonic == "TAX" { cycles := Transfer.Tax(cpu, op); }
    else if op.mnemonic == "TAY" { cycles := Transfer.Tay(cpu, op); }
    else if op.mnemonic == "TXA" { cycles := Transfer.Txa(cpu, op); }
    else if op.mnemonic == "TYA" { cycles := Transfer.Tya(cpu, op); }
    else if op.mnemonic == "TSX" { cycles := Transfer.Tsx(cpu, op); }
    else { cycles := Transfer.Txs(cpu, op); }
  }

  method RunArithmetic(cpu: CPU, op: Opcode) returns (cycles: int)
    requires cpu.Valid() && op.mnemonic in S.ARITHMETIC
    modifies cpu, cpu.status, cpu.bus, cpu.bus.memory, cpu.bus.memory.monitor
    ensures cpu.Valid() && cpu.cycles == old(cpu.cycles)
    ensures var o := S.Arithmetic(old(cpu.State()), op).value; cpu.State() == o.m && cycles == o.cycles
  {
    if op.mnemonic == "ADC" { cycles := Arithmetic.Adc(cpu, op); }
    else if op.mnemonic == "SBC" { cycles := Arithmetic.Sbc(cpu, op); }
    else if op.mnemonic == "CMP" { cycles := Arithmetic.Cmp(cpu, op); }
    else if op.mnemonic == "CPX" { cycles := Arithmetic.Cpx(cpu, op); }
    else { cycles := Arithmetic.Cpy(cpu, op); }
  }

  method RunLogic(cpu: CPU, op: Opcode) returns (cycles: int)
    requires cpu.Valid() && op.mnemonic in S.LOGIC
    modifies cpu, cpu.status, cpu.bus, cpu.bus.memory, cpu.bus.memory.monitor
    ensures cpu.Valid() && cpu.cycles == old(cpu.cycles)
    ensures var o := S.Logic(old(cpu.State()), op).value; cpu.State() == o.m && cycles == o.cycles
  {
    if op.mnemonic == "AND" { cycles := Logic.And(cpu, op); }
    else if op.mnemonic == "ORA" { cycles := Logic.Ora(cpu, op); }
    else if op.mnemonic == "EOR" { cycles := Logic.Eor(cpu, op); }
    else { cycles := Logic.Bit(cpu, op); }
  }

  method RunShiftRotate(cpu: CPU, op: Opcode) returns (cycles: int)
    requires cpu.Valid() && op.mnemonic in S.SHIFT_ROTATE
    modifies cpu, cpu.status, cpu.bus, cpu.bus.memory, cpu.bus.memory.monitor
    ensures cpu.Valid() && cpu.cycles == old(cpu.cycles)
    ensures var o := S.ShiftRotate(old(cpu.State()), op).value; cpu.State() == o.m && cycles == o.cycles
  {
    if op.mnemonic == "ASL" { cycles := ShiftRotate.Asl(cpu, op); }
    else if op.mnemonic == "LSR" { cycles := ShiftRotate.Lsr(cpu, op); }
    else if op.mnemonic == "ROL" { cycles := ShiftRotate.Rol(cpu, op); }
    else { cycles := ShiftRotate.Ror(cpu, op); }
  }

  method RunIncDec(cpu: CPU, op: Opcode) returns (cycles: int)
    requires cpu.Valid() && op.mnemonic in S.INC_DEC
    modifies cpu, cpu.status, cpu.bus, cpu.bus.memory, cpu.bus.memory.monitor
    ensures cpu.Valid() && cpu.cycles == old(cpu.cycles)
    ensures var o := S.IncDec(old(cpu.State()), op).value; cpu.State() == o.m && cycles == o.cycles
  {
    if op.mnemonic == "INC" { cycles := IncDec.Inc(cpu, op); }
    else if op.mnemonic == "DEC" { cycles := IncDec.Dec(cpu, op); }
    else if op.mnemonic == "INX" { cycles := IncDec.Inx(cpu, op); }
    else if op.mnemonic == "DEX" { cycles := IncDec.Dex(cpu, op); }
    else if op.mnemonic == "INY" { cycles := IncDec.Iny(cpu, op); }
    else { cycles := IncDec.Dey(cpu, op); }
  }

  method RunBranch(cpu: CPU, op: Opcode) returns (cycles: int)
    requires cpu.Valid() && op.mnemonic in BRANCHES
    modifies cpu, cpu.status, cpu.bus, cpu.bus.memory, cpu.bus.memory.monitor
    ensures cpu.Valid() && cpu.cycles == old(cpu.cycles)
    ensures var o := S.Branches(old(cpu.State()), op).value; cpu.State() == o.m && cycles == o.cycles
  {
    if op.mnemonic == "BEQ" { cycles := FlowControl.Beq(cpu, op); }
    else if op.mnemonic == "BNE" { cycles := FlowControl.Bne(cpu, op); }
    else if op.mnemonic == "BCC" { cycles := FlowControl.Bcc(cpu, op); }
    else if op.mnemonic == "BCS" { cycles := FlowControl.Bcs(cpu, op); }
    else if op.mnemonic == "BPL" { cycles := FlowControl.Bpl(cpu, op); }
    else if op.mnemonic == "BMI" { cycles := FlowControl.Bmi(cpu, op); }
    else if op.mnemonic == "BVC" { cycles := FlowControl.Bvc(cpu, op); }
    else { cycles := FlowControl.Bvs(cpu, op); }
  }

  method RunJump(cpu: CPU, op: Opcode) returns (cycles: int)
    requires cpu.Valid() && op.mnemonic in S.JUMPS
    modifies cpu, cpu.status, cpu.bus, cpu.bus.memory, cpu.bus.memory.monitor
    ensures cpu.Valid() && cpu.cycles == old(cpu.cycles)
    ensures var o := S.Jumps(old(cpu.State()), op).value; cpu.State() == o.m && cycles == o.cycles
  {
    ghost var s := cpu.State();
    if op.mnemonic == "JMP" {
      assert S.Jumps(s, op) == Some(FCS.Jmp(s, op));
      cycles := FlowControl.Jmp(cpu, op);
    } else if op.mnemonic == "JSR" {
      assert S.Jumps(s, op) == Some(FCS.Jsr(s, op));
      cycles := FlowControl.Jsr(cpu, op);
    } else {
      assert S.Jumps(s, op) == Some(FCS.Rts(s, op));
      cycles := FlowControl.Rts(cpu, op);
    }
  }

  method RunInterrupt(cpu: CPU, op: Opcode) returns (cycles: int)
    requires cpu.Valid() && op.mnemonic in S.INTERRUPTS
    modifies cpu, cpu.status, cpu.bus, cpu.bus.memory, cpu.bus.memory.monitor
    ensures cpu.Valid() && cpu.cycles == old(cpu.cycles)
    ensures var o := S.Interrupts(old(cpu.State()), op).value; cpu.State() == o.m && cycles == o.cycles
  {
    ghost var s := cpu.State();
    if op.mnemonic == "BRK" {
      assert S.Interrupts(s, op) == Some(FCS.Brk(s, op));
      cycles := FlowControl.Brk(cpu, op);
    } else {
      assert S.Interrupts(s, op) == Some(FCS.Rti(s, op));
      cycles := FlowControl.Rti(cpu, op);
    }
  }

  method RunStack(cpu: CPU, op: Opcode) returns (cycles: int)
    requires cpu.Valid() && op.mnemonic in S.STACK
    modifies cpu, cpu.status, cpu.bus, cpu.bus.memory, cpu.bus.memory.monitor
    ensures cpu.Valid() && cpu.cycles == old(cpu.cycles)
    ensures var o := S.Stack(old(cpu.State()), op).value; cpu.State() == o.m && cycles == o.cycles
  {
    if op.mnemonic == "PHA" { cycles := Stack.Pha(cpu, op); }
    else if op.mnemonic == "PLA" { cycles := Stack.Pla(cpu, op); }
    else if op.mnemonic == "PHP" { cycles := Stack.Php(cpu, op); }
    else { cycles := Stack.Plp(cpu, op); }
  }

  method RunFlags(cpu: CPU, op: Opcode) returns (cycles: int)
    requires cpu.Valid() && op.mnemonic in S.FLAGS
    modifies cpu, cpu.status, cpu.bus, cpu.bus.memory, cpu.bus.memory.monitor
    ensures cpu.Valid() && cpu.cycles == old(cpu.cycles)
    ensures var o := S.Flags(old(cpu.State()), op).value; cpu.State() == o.m && cycles == o.cycles
  {
    if op.mnemonic == "SEC" { cycles := Flags.Sec(cpu, op); }
    else if op.mnemonic == "CLC" { cycles := Flags.Clc(cpu, op); }
    else if op.mnemonic == "SEI" { cycles := Flags.Sei(cpu, op); }
    else if op.mnemonic == "CLI" { cycles := Flags.Cli(cpu, op); }
    else if op.mnemonic == "SED" { cycles := Flags.Sed(cpu, op); }
    else if op.mnemonic == "CLD" { cycles := Flags.Cld(cpu, op); }
    else { cycles := Flags.Clv(cpu, op); }
  }

  /** Runs the handler of an opcode entry; `handled` is false, and nothing
      changes, when no handler serves its mnemonic. */
  method Dispatch(cpu: CPU, op: Opcode) returns (handled: bool, cycles: int)
    requires cpu.Valid()
    modifies cpu, cpu.status, cpu.bus, cpu.bus.memory, cpu.bus.memory.monitor
    ensures cpu.Valid() && cpu.cycles == old(cpu.cycles)
    ensures var r := S.Exec(old(cpu.State()), op);
      handled == r.Some? &&
      (handled ==> cpu.State() == r.value.m && cycles == r.value.cycles) &&
      (!handled ==> cpu.State() == old(cpu.State()))
  {
    handled := true;
    cycles := 0;
    if op.mnemonic in S.LOAD_STORE { cycles := RunLoadStore(cpu, op); }
    else if op.mnemonic in S.TRANSFER { cycles := RunTransfer(cpu, op); }
    else if op.mnemonic in S.ARITHMETIC { cycles := RunArithmetic(cpu, op); }
    else if op.mnemonic in S.LOGIC { cycles := RunLogic(cpu, op); }
    else if op.mnemonic in S.SHIFT_ROTATE { cycles := RunShiftRotate(cpu, op); }
    else if op.mnemonic in S.INC_DEC { cycles := RunIncDec(cpu, op); }
    else if op.mnemonic in BRANCHES { cycles := RunBranch(cpu, op); }
    else if op.mnemonic in S.JUMPS { cycles := RunJump(cpu, op); }
    else if op.mnemonic in S.INTERRUPTS { cycles := RunInterrupt(cpu, op); }
    else if op.mnemonic in S.STACK { cycles := RunStack(cpu, op); }
    else if op.mnemonic in S.FLAGS { cycles := RunFlags(cpu, op); }
    else if op.mnemonic == "NOP" { cycles := op.cycles; }
    else { handled := false; }
  }

  /** The fetch of `step`, when no cycles are left. */
  method Fetch(cpu: CPU) returns (error: Option<S.CpuError>)
    requires cpu.Valid()
    modifies cpu, cpu.status, cpu.bus, cpu.bus.memory, cpu.bus.memory.monitor
    ensures cpu.Valid()
    ensures S.Reached(S.Fetch(old(cpu.State()), cpu.registry.table, S.Exec), cpu.State(), cpu.cycles, error)
  {
    ghost var s := cpu.State();
    ghost var table := cpu.registry.table;
    var key := FetchKey(cpu);
    ghost var fetched := cpu.State();
    var entry := cpu.registry.GetOpcode(key);
    if entry.None? {
      assert S.Fetch(s, table, S.Exec) == S.Stepped(S.Core(fetched, 0), Some(S.UnknownOpcode(key)));
      cpu.cycles := 0;
      return Some(S.UnknownOpcode(key));
    }
    ghost var r := S.Exec(fetched, entry.value);
    var handled, cycles := Dispatch(cpu, entry.value);
    if !handled {
      assert S.Fetch(s, table, S.Exec) == S.Stepped(S.Core(fetched, 0), Some(S.NotImplemented(entry.value.mnemonic)));
      cpu.cycles := 0;
      return Some(S.NotImplemented(entry.value.mnemonic));
    }
    assert S.Fetch(s, table, S.Exec) == S.Stepped(S.Core(r.value.m, r.value.cycles), None);
    cpu.cycles := cycles;
    error := None;
  }

  /** The read of the fetch: the byte at PC, PC moved past it, and the key
      the byte is filed under. */
  method FetchKey(cpu: CPU) returns (key: string)
    requires cpu.Valid()
    modifies cpu, cpu.bus.memory.monitor
    ensures cpu.Valid() && cpu.cycles == old(cpu.cycles)
    ensures key == OpcodeKey(Read(old(cpu.State()), old(cpu.State()).pc))
    ensures cpu.State() == old(cpu.State()).(pc := Lo16(old(cpu.State()).pc as int + 1))
  {
    ghost var s := cpu.State();
    var opcode := cpu.ReadByte(cpu.pc);
    assert opcode == Read(s, s.pc);
    cpu.pc := Lo16(cpu.pc as int + 1);
    key := OpcodeKey(opcode);
  }

  /** `step`: one clock tick of the CPU, then one of the bus. */
  method Step(cpu: CPU) returns (error: Option<S.CpuError>)
    requires cpu.Valid()
    modifies cpu, cpu.status, cpu.bus, cpu.bus.memory, cpu.bus.memory.monitor
    ensures cpu.Valid()
    ensures S.Reached(S.Step(S.Core(old(cpu.State()), old(cpu.cycles)), cpu.registry.table, S.Exec), cpu.State(), cpu.cycles, error)
  {
    if cpu.cycles == 0 {
      error := Fetch(cpu);
      if error.Some? {
        return;
      }
    }
    ghost var before := cpu.State();
    cpu.cycles := cpu.cycles - 1;
    cpu.bus.Tick();
    assert cpu.State() == S.Ticked(before);
    error := None;
  }

  /** `execute($opcode)`: the lookup, its two errors, and the handler. */
  method Execute(cpu: CPU, opcode: string) returns (error: Option<S.CpuError>)
    requires cpu.Valid()
    modifies cpu, cpu.status, cpu.bus.memory.monitor
    ensures cpu.Valid() && cpu.cycles == old(cpu.cycles)
    ensures var r := S.Execute(old(cpu.State()), cpu.registry.table, opcode);
      (r.Err? ==> error == Some(r.error) && cpu.State() == old(cpu.State())) &&
      (r.Ok? ==> error == None && cpu.State() == r.value.m)
  {
    var key := S.ExecuteKey(opcode);
    var entry := cpu.registry.GetOpcode(key);
    if entry.None? {
      return Some(S.UnknownOpcode(key));
    }
    if entry.value.mnemonic !in S.HANDLERS {
      return Some(S.NotImplemented(entry.value.mnemonic));
    }
    var _ := LoadStore.Lda(cpu, entry.value);
    error := None;
  }
}

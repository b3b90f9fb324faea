/** The assembler object: a label table, the program being built, the
    current address and the references still to patch, all updated in place
    as the source is read. Each method is proved to agree with the function
    of the same name in `AssemblerSpec`. */
module Assembler {
  import opened Wrappers
  import opened Hex
  import opened Text
  import opened OrderedMaps
  import opened Opcodes
  import S = AssemblerSpec

  /** A method's reported failure and new state agree with the specification
      function's result: no failure exactly when the result is a value, the
      new state is that value, and a failure is the specification's error. */
  ghost predicate Agrees<T, E>(failure: Option<E>, r: Result<T, E>, now: T)
  {
    (failure.None? <==> r.Ok?) && (r.Ok? ==> now == r.value) && (r.Err? ==> failure == Some(r.error))
  }

  /** A parsed operand as the method reports it: the same success or
      failure as the specification, the same value, and the reference, if
      any, appended to the ones still to patch. */
  ghost predicate Recorded(r: Result<nat, S.Failure>, p: Result<S.Parsed, S.Failure>, before: seq<S.Reference>, after: seq<S.Reference>)
  {
    (r.Ok? <==> p.Ok?) && (p.Err? ==> r.error == p.error && after == before) &&
    (p.Ok? ==> (r.value == p.value.value &&
      after == before + (if p.value.reference.Some? then [p.value.reference.value] else [])))
  }

  class Assembler {
    var labels: map<string, nat>
    var program: S.Program
    var currentAddress: nat
    var unresolvedReferences: seq<S.Reference>
    const registry: InstructionRegistry

    ghost predicate Valid()
      reads this, registry
    {
      registry.Valid()
    }

    /** The fields as one value. */
    function State(): S.Asm
      reads this
    {
      S.Asm(labels, program, currentAddress, unresolvedReferences)
    }

    /** The registry stands for the instruction register the assembler
        builds for itself. */
    constructor(registry: InstructionRegistry)
      requires registry.Valid()
      ensures Valid() && State() == S.Initial() && this.registry == registry
    {
      this.registry := registry;
      labels := map[];
      program := Empty();
      currentAddress := 0;
      unresolvedReferences := [];
    }

    /** `reset` */
    method Reset()
      requires registry.Valid()
      modifies this
      ensures Valid() && State() == S.Initial()
    {
      labels := map[];
      program := Empty();
      currentAddress := 0;
      unresolvedReferences := [];
    }

    /** `preprocessSource` */
    method PreprocessSource(source: string) returns (lines: seq<S.SourceLine>)
      ensures lines == S.Preprocess(source)
    {
      var raw := Explode(source, '\n');
      lines := [];
      for i := 0 to |raw|
        invariant lines == S.Kept(raw[..i])
      {
        assert raw[..i + 1][..i] == raw[..i];
        var text := Trim(S.StripComment(raw[i]));
        if !IsEmpty(text) {
          lines := lines + [S.SourceLine(text, i + 1)];
        }
      }
      assert raw[..|raw|] == raw;
    }

    /** `$this->program[$this->currentAddress++] = $byte` for each byte. */
    method Write(bytes: seq<nat>)
      requires Valid()
      modifies this
      ensures Valid()
      ensures State() == S.Emit(old(State()), bytes)
    {
      ghost var start := State();
      for i := 0 to |bytes|
        invariant S.Emit(State(), bytes[i..]) == S.Emit(start, bytes)
      {
        ghost var before := State();
        ghost var rest := bytes[i..];
        program := Put(program, currentAddress, bytes[i]);
        currentAddress := currentAddress + 1;
        assert S.Emit(State(), bytes[i + 1..]) == S.Emit(start, bytes) by {
          S.EmitFirst(before, rest);
          assert rest[1..] == bytes[i + 1..];
          assert State() == before.(program := Put(before.program, before.address, rest[0]), address := before.address + 1);
        }
      }
      assert bytes[|bytes|..] == [];
      assert S.Emit(State(), []) == State();
    }

    /** `parseOperand`: the operand's value; a label operand is recorded as a
        reference to patch and reads as zero. */
    method ParseOperand(operand: string, mode: Mode, number: int) returns (r: Result<nat, S.Failure>)
      modifies this
      ensures labels == old(labels) && program == old(program) && currentAddress == old(currentAddress)
      ensures Recorded(r, S.ParseOperand(old(currentAddress), operand, mode, number), old(unresolvedReferences), unresolvedReferences)
      decreases |operand|
    {
      if |operand| >= 2 && operand[0] == '#' && S.OptDollarHex(operand[1..]) {
        var digits := if operand[1] == '$' then operand[2..] else operand[1..];
        return Ok(HexDec(digits));
      }
      if operand == "A" {
        return Ok(0);
      }
      if |operand| >= 2 && operand[0] == '$' && AllHex(operand[1..]) {
        return Ok(HexDec(operand[1..]));
      }
      if AllDigits(operand) {
        return Ok(IntVal(operand));
      }
      if |operand| >= 3 && (S.EndsIndexed(operand, 'X', 'x') || S.EndsIndexed(operand, 'Y', 'y')) {
        r := ParseOperand(operand[..|operand| - 2], mode, number);
        return;
      }
      if |operand| >= 3 && operand[0] == '(' && operand[|operand| - 1] == ')' {
        r := ParseOperand(operand[1..|operand| - 1], mode, number);
        return;
      }
      if IsIdentifier(operand) {
        var size := if S.NamesAbsolute(mode) then 2 else 1;
        unresolvedReferences := unresolvedReferences + [S.Reference(currentAddress + 1, operand, number, mode, size)];
        return Ok(0);
      }
      return Err(S.CannotParseOperand(operand));
    }

    /** `generateInstruction` */
    method GenerateInstruction(op: Opcode, operand: string, number: int) returns (failure: Option<S.Failure>)
      requires Valid()
      modifies this
      ensures Valid()
      ensures Agrees(failure, S.Generate(old(State()), op, operand, number), State())
    {
      ghost var a := State();
      var bytes := [S.OpcodeValue(op.opcode)];
      if op.bytes > 1 {
        var value := ParseOperand(operand, op.mode, number);
        if value.Err? {
          return Some(value.error);
        }
        ghost var p := S.ParseOperand(a.address, operand, op.mode, number).value;
        assert State() == a.(refs := if p.reference.Some? then a.refs + [p.reference.value] else a.refs);
        bytes := bytes + S.OperandBytes(value.value, op.bytes);
      }
      Write(bytes);
      failure := None;
    }

    /** `processDataByte` (with the remainder after a string kept even when
        it is "0"). */
    method ProcessDataByte(operand: string) returns (failure: Option<S.Failure>)
      requires Valid()
      modifies this
      ensures Valid()
      ensures Agrees(failure, S.DataBytes(old(State()), operand), State())
      decreases |operand|
    {
      var quoted := S.Quoted(operand);
      if quoted.Some? {
        var (text, rest) := quoted.value;
        Write(S.Codes(text));
        var remaining := Trim(rest);
        if !IsEmpty(remaining) && remaining[0] == ',' {
          var next := Trim(remaining[1..]);
          if next != "" {
            failure := ProcessDataByte(next);
            return;
          }
        }
        return None;
      }
      var values := Explode(operand, ',');
      for i := 0 to |values|
        invariant Valid()
        invariant S.ByteList(State(), values[i..]) == S.DataBytes(old(State()), operand)
      {
        assert values[i..][1..] == values[i + 1..];
        var value := Trim(values[i]);
        var b := S.Number(value);
        if b.None? {
          return Some(S.InvalidByte(value));
        }
        Write([b.value]);
      }
      failure := None;
    }

    /** `processDataWord` */
    method ProcessDataWord(operand: string) returns (failure: Option<S.Failure>)
      requires Valid()
      modifies this
      ensures Valid()
      ensures Agrees(failure, S.WordList(old(State()), Explode(operand, ',')), State())
    {
      var values := Explode(operand, ',');
      for i := 0 to |values|
        invariant Valid()
        invariant S.WordList(State(), values[i..]) == S.WordList(old(State()), values)
      {
        assert values[i..][1..] == values[i + 1..];
        var value := Trim(values[i]);
        var word := S.WordValue(currentAddress, value);
        if word.None? {
          return Some(S.InvalidWord(value));
        }
        if word.value.reference.Some? {
          unresolvedReferences := unresolvedReferences + [word.value.reference.value];
        }
        Write([word.value.value % 256, (word.value.value / 256) % 256]);
      }
      failure := None;
    }

    /** `processInstruction` */
    method ProcessInstruction(line: string, number: int) returns (failure: Option<S.Failure>)
      requires Valid()
      modifies this
      ensures Valid()
      ensures Agrees(failure, S.ProcessInstruction(old(State()), registry.table, line, number), State())
    {
      var (mnemonic, operand) := S.SplitInstruction(line);
      if mnemonic == ".BYTE" || mnemonic == "DCB" {
        failure := ProcessDataByte(operand);
        return;
      }
      if mnemonic == ".WORD" || mnemonic == "DCW" {
        failure := ProcessDataWord(operand);
        return;
      }
      var mode := S.AddressingMode(operand, mnemonic);
      var opcode := registry.FindOpcode(mnemonic, mode);
      if opcode.None? {
        return Some(S.UnknownInstruction(mnemonic, operand, mode));
      }
      failure := GenerateInstruction(opcode.value, operand, number);
    }

    /** `processLine` */
    method ProcessLine(line: string, number: int) returns (failure: Option<S.Failure>)
      requires Valid()
      modifies this
      ensures Valid()
      ensures Agrees(failure, S.ProcessLine(old(State()), registry.table, line, number), State())
    {
      var origin := S.OriginDigits(line);
      if origin.Some? {
        currentAddress := HexDec(origin.value);
        return None;
      }
      var split := S.LabelSplit(line);
      if split.Some? {
        var (name, rest) := split.value;
        labels := labels[name := currentAddress];
        var remainder := Trim(rest);
        if !IsEmpty(remainder) {
          failure := ProcessInstruction(remainder, number);
        } else {
          failure := None;
        }
        return;
      }
      failure := ProcessInstruction(line, number);
    }

    /** `firstPass`: a line's failure is reported with its number and text. */
    method FirstPass(lines: seq<S.SourceLine>) returns (error: Option<S.AsmError>)
      requires Valid()
      modifies this
      ensures Valid()
      ensures Agrees(error, S.FirstPass(old(State()), registry.table, lines), State())
    {
      for i := 0 to |lines|
        invariant Valid()
        invariant S.FirstPass(State(), registry.table, lines[i..]) == S.FirstPass(old(State()), registry.table, lines)
      {
        assert lines[i..][1..] == lines[i + 1..];
        var failure := ProcessLine(lines[i].text, lines[i].number);
        if failure.Some? {
          return Some(S.AtLine(lines[i].number, failure.value, lines[i].text));
        }
      }
      error := None;
    }

    /** One turn of `secondPass`'s loop: the reference's label looked up
        and its value written over the placeholder bytes. */
    method PatchReference(ref: S.Reference) returns (error: Option<S.AsmError>)
      requires Valid()
      modifies this
      ensures Valid()
      ensures labels == old(labels) && currentAddress == old(currentAddress) && unresolvedReferences == old(unresolvedReferences)
      ensures Agrees(error, S.Patch(old(program), labels, ref), program)
    {
      if ref.name !in labels {
        return Some(S.UndefinedLabel(ref.name, ref.line));
      }
      var value := labels[ref.name];
      if ref.mode == Relative {
        var offset := value - (ref.address + 1);
        if offset < -128 || offset > 127 {
          return Some(S.BranchTooFar(ref.name, ref.line));
        }
        program := Put(program, ref.address, offset % 256);
      } else if ref.size == 1 {
        program := Put(program, ref.address, value % 256);
      } else {
        ghost var before := program;
        program := Put(program, ref.address, value % 256);
        program := Put(program, ref.address + 1, (value / 256) % 256);
        assert S.Patch(before, labels, ref) == Ok(program);
      }
      error := None;
    }

    /** `secondPass`: every reference patched in the order it was made. */
    method SecondPass() returns (error: Option<S.AsmError>)
      requires Valid()
      modifies this
      ensures Valid()
      ensures labels == old(labels) && currentAddress == old(currentAddress) && unresolvedReferences == old(unresolvedReferences)
      ensures Agrees(error, S.SecondPass(old(program), labels, unresolvedReferences), program)
    {
      var refs := unresolvedReferences;
      for i := 0 to |refs|
        invariant Valid()
        invariant labels == old(labels) && currentAddress == old(currentAddress) && unresolvedReferences == refs
        invariant S.SecondPass(program, labels, refs[i..]) == S.SecondPass(old(program), labels, refs)
      {
        assert refs[i..][1..] == refs[i + 1..];
        error := PatchReference(refs[i]);
        if error.Some? {
          return;
        }
      }
      error := None;
    }

    /** `assemble`: both passes over the cleaned source; the program on
        success. */
    method Assemble(source: string) returns (r: Result<S.Program, S.AsmError>)
      requires Valid()
      modifies this
      ensures Valid()
      ensures r == S.Assemble(registry.table, source)
    {
      Reset();
      var lines := PreprocessSource(source);
      var error := FirstPass(lines);
      if error.Some? {
        return Err(error.value);
      }
      error := SecondPass();
      if error.Some? {
        return Err(error.value);
      }
      return Ok(program);
    }

    /** `getLabels`: the label table the last assembly built. */
    method GetLabels() returns (r: map<string, nat>)
      ensures r == labels
    {
      return labels;
    }

    /** The bytes after the opcode at `addr` that an instruction of `size`
        bytes takes, skipping addresses that hold nothing. */
    method OperandBytesAt(program: S.Program, addr: nat, size: int) returns (bytes: seq<nat>)
      ensures bytes == S.Following(program, addr, 1, size)
    {
      bytes := [];
      var j := 1;
      while j < size
        invariant 1 <= j
        invariant bytes + S.Following(program, addr, j, size) == S.Following(program, addr, 1, size)
        decreases size - j
      {
        var here := if addr + j in program.values then [program.values[addr + j]] else [];
        assert S.Following(program, addr, j, size) == here + S.Following(program, addr, j + 1, size);
        assert bytes + (here + S.Following(program, addr, j + 1, size)) == (bytes + here) + S.Following(program, addr, j + 1, size);
        bytes := bytes + here;
        j := j + 1;
      }
      assert S.Following(program, addr, j, size) == [];
      assert bytes + [] == bytes;
    }

    /** The listing line for the byte at `addr` and where the next
        instruction starts: the body of `disassemble`'s loop. */
    method ListingLine(program: S.Program, addr: nat) returns (line: string, next: int)
      requires registry.Valid() && addr in program.values
      ensures line == S.ListingLine(registry.table, program, addr, program.values[addr]).0
      ensures next == S.ListingLine(registry.table, program, addr, program.values[addr]).1
    {
      var byte := program.values[addr];
      S.ListingLineCases(registry.table, program, addr, byte);
      var opcode := registry.GetOpcode("0x" + HexPad(byte, 2));
      if opcode.None? {
        return HexPad(addr, 4) + ": .BYTE $" + HexPad(byte, 2), addr + 1;
      }
      var op := opcode.value;
      var operand := OperandText(program, addr, op);
      line := HexPad(addr, 4) + ": " + op.mnemonic + operand;
      next := addr + op.bytes;
    }

    /** The operand part of a listing line. */
    method OperandText(program: S.Program, addr: nat, op: Opcode) returns (operand: string)
      ensures operand == S.OperandText(program, addr, op)
    {
      operand := "";
      if op.bytes > 1 {
        var bytes := OperandBytesAt(program, addr, op.bytes);
        operand := " " + S.FormatOperand(op.mode, bytes);
      }
    }

    /** One turn of `disassemble`'s loop over the program's `i`-th address:
        the line it lists, if any, and the address the next line starts at. */
    method ListAt(program: S.Program, i: nat, address: int) returns (line: seq<string>, next: int)
      requires registry.Valid() && Wf(program) && i < |program.keys|
      ensures S.Listing(registry.table, program, i, address) == line + S.Listing(registry.table, program, i + 1, next)
    {
      var addr := program.keys[i];
      S.ListingStep(registry.table, program, i, address);
      if addr < address {
        return [], address;
      }
      var text;
      text, next := ListingLine(program, addr);
      line := [text];
    }

    /** `disassemble`: one listing line per instruction or data byte, in the
        program's order, from `start` on. */
    method Disassemble(program: S.Program, start: int) returns (text: string)
      requires registry.Valid() && Wf(program)
      ensures text == S.Disassemble(registry.table, program, start)
    {
      var output: seq<string> := [];
      var address := start;
      for i := 0 to |program.keys|
        invariant output + S.Listing(registry.table, program, i, address) == S.Listing(registry.table, program, 0, start)
      {
        var line, next := ListAt(program, i, address);
        assert output + (line + S.Listing(registry.table, program, i + 1, next)) == (output + line) + S.Listing(registry.table, program, i + 1, next);
        output := output + line;
        address := next;
      }
      assert output + [] == output;
      text := if output == [] then "" else Join(output, '\n');
    }
  }
}

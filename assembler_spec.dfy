/** The two-pass assembler as functions on its state. The first pass reads
    the cleaned source lines one by one, binds labels, and emits bytes,
    leaving a zero and a reference wherever a label is used; the second pass
    patches every reference with the label's value. The program is a PHP
    array from address to byte, so it remembers the order in which addresses
    were first written. */
module AssemblerSpec {
  import opened Wrappers
  import opened Bits
  import opened Hex
  import opened Text
  import opened OrderedMaps
  import opened Opcodes
  import FC = FlowControlSpec

  type Program = OMap<nat, nat>

  /** A use of a label whose value the second pass fills in: where to write,
      which label, the source line, the addressing mode, and how many bytes
      (1 or 2). */
  datatype Reference = Reference(address: nat, name: string, line: int, mode: Mode, size: int)

  /** The assembler's fields between lines. */
  datatype Asm = Asm(labels: map<string, nat>, program: Program, address: nat, refs: seq<Reference>)

  /** Why a line could not be assembled. */
  datatype Failure =
    | UnknownInstruction(mnemonic: string, operand: string, mode: Mode)
    | CannotParseOperand(operand: string)
    | InvalidByte(value: string)
    | InvalidWord(value: string)

  /** Why a whole source could not be assembled: a line's failure, reported
      with the line number and text, or a label the second pass cannot
      resolve. */
  datatype AsmError =
    | AtLine(line: int, failure: Failure, text: string)
    | UndefinedLabel(name: string, line: int)
    | BranchTooFar(name: string, line: int)

  /** A cleaned source line and its 1-based number in the source. */
  datatype SourceLine = SourceLine(text: string, number: nat)

  /** An operand's value and, when it names a label, the reference to patch. */
  datatype Parsed = Parsed(value: nat, reference: Option<Reference>)

  /** The state `reset` leaves: no labels, no bytes, address 0, no references. */
  function Initial(): (a: Asm)
    ensures Wf(a.program) && a.program.keys == [] && a.labels == map[] && a.address == 0 && a.refs == []
  {
    Asm(map[], Empty(), 0, [])
  }

  // ---------------------------------------------------------------- lines

  /** `preg_replace('/;.*$/', '', $line)`: the text before the first `;`. */
  function StripComment(line: string): (r: string)
    ensures r <= line && ';' !in r
    ensures |r| < |line| ==> line[|r|] == ';'
  {
    if line == [] || line[0] == ';' then [] else [line[0]] + StripComment(line[1..])
  }

  /** The line worth assembling among the first `|lines|`, numbered from 1:
      comment cut, blanks trimmed, and lines `empty()` calls empty (which
      include "0") dropped. */
  function Kept(lines: seq<string>): seq<SourceLine>
  {
    if lines == [] then []
    else
      var text := Trim(StripComment(lines[|lines| - 1]));
      var init := Kept(lines[..|lines| - 1]);
      if IsEmpty(text) then init else init + [SourceLine(text, |lines|)]
  }

  /** `preprocessSource`. */
  function Preprocess(source: string): seq<SourceLine>
  {
    Kept(Explode(source, '\n'))
  }

  /** A kept line comes from the source line with its number, cleaned, and
      is not empty. */
  predicate KeptFrom(lines: seq<string>, l: SourceLine)
  {
    1 <= l.number <= |lines| && l.text == Trim(StripComment(lines[l.number - 1])) && !IsEmpty(l.text)
  }

  /** Every line `preprocessSource` keeps is a source line whose cleaned
      text is not empty, kept under its own number and with its cleaned text,
      and the kept lines are in source order. */
  lemma {:induction false} KeptSound(lines: seq<string>)
    ensures forall j :: 0 <= j < |Kept(lines)| ==> KeptFrom(lines, Kept(lines)[j])
    ensures forall j, k :: 0 <= j < k < |Kept(lines)| ==> Kept(lines)[j].number < Kept(lines)[k].number
  {
    if lines != [] {
      var init := lines[..|lines| - 1];
      KeptSound(init);
      var r := Kept(lines);
      var ri := Kept(init);
      var text := Trim(StripComment(lines[|lines| - 1]));
      assert r == if IsEmpty(text) then ri else ri + [SourceLine(text, |lines|)];
      forall j | 0 <= j < |ri|
        ensures KeptFrom(lines, r[j]) && r[j].number <= |init|
      {
        assert r[j] == ri[j];
        assert KeptFrom(init, ri[j]);
        assert lines[ri[j].number - 1] == init[ri[j].number - 1];
      }
    }
  }

  /** Every source line whose cleaned text is not empty is kept. */
  lemma {:induction false} KeptComplete(lines: seq<string>)
    ensures forall i :: 0 <= i < |lines| && !IsEmpty(Trim(StripComment(lines[i]))) ==>
      exists j :: 0 <= j < |Kept(lines)| && Kept(lines)[j].number == i + 1
  {
    if lines != [] {
      var init := lines[..|lines| - 1];
      KeptComplete(init);
      var r := Kept(lines);
      var ri := Kept(init);
      var text := Trim(StripComment(lines[|lines| - 1]));
      assert r == if IsEmpty(text) then ri else ri + [SourceLine(text, |lines|)];
      forall i | 0 <= i < |lines| && !IsEmpty(Trim(StripComment(lines[i])))
        ensures exists j :: 0 <= j < |r| && r[j].number == i + 1
      {
        if i < |init| {
          assert init[i] == lines[i];
          var j :| 0 <= j < |ri| && ri[j].number == i + 1;
          assert r[j] == ri[j];
        } else {
          assert r[|r| - 1] == SourceLine(text, |lines|);
        }
      }
      assert forall i :: 0 <= i < |lines| && !IsEmpty(Trim(StripComment(lines[i]))) ==>
        exists j :: 0 <= j < |Kept(lines)| && Kept(lines)[j].number == i + 1;
    }
  }

  /** No comment survives into a cleaned line. */
  lemma NoCommentSurvives(line: string)
    ensures ';' !in Trim(StripComment(line))
  {
    var s := StripComment(line);
    var t := TrimLeft(s, TRIM_CHARS);
    TrimLeftKeepsSuffix(s, TRIM_CHARS);
    TrimRightKeepsPrefix(t, TRIM_CHARS);
    assert forall c :: c in Trim(s) ==> c in t;
  }

  /** The longest prefix of `\s` characters dropped. */
  function SkipSpace(s: string): (r: string)
    ensures |r| <= |s| && r == s[|s| - |r|..]
    ensures r == [] || !IsSpace(r[0])
  {
    if s != [] && IsSpace(s[0]) then SkipSpace(s[1..]) else s
  }

  /** The longest prefix of hexadecimal digits. */
  function HexRun(s: string): (r: string)
    ensures r <= s && (forall i :: 0 <= i < |r| ==> IsHexDigit(r[i]))
    ensures |r| < |s| ==> !IsHexDigit(s[|r|])
  {
    if s != [] && IsHexDigit(s[0]) then [s[0]] + HexRun(s[1..]) else []
  }

  /** The longest prefix of `\w` characters. */
  function WordRun(s: string): (r: string)
    ensures r <= s && (forall i :: 0 <= i < |r| ==> IsWordChar(r[i]))
    ensures |r| < |s| ==> !IsWordChar(s[|r|])
  {
    if s != [] && IsWordChar(s[0]) then [s[0]] + WordRun(s[1..]) else []
  }

  /** `^\*\s*=\s*\$([0-9A-Fa-f]+)`: the digits of an origin line `*=$XXXX`. */
  function OriginDigits(line: string): Option<string>
  {
    if line == [] || line[0] != '*' then None
    else
      var afterStar := SkipSpace(line[1..]);
      if afterStar == [] || afterStar[0] != '=' then None
      else
        var afterEquals := SkipSpace(afterStar[1..]);
        if afterEquals == [] || afterEquals[0] != '$' then None
        else
          var digits := HexRun(afterEquals[1..]);
          if digits == [] then None else Some(digits)
  }

  /** `^(\w+):(.*)$`: a label and the rest of its line. */
  function LabelSplit(line: string): (r: Option<(string, string)>)
    ensures r.Some? ==> (line == r.value.0 + ":" + r.value.1 && |r.value.0| >= 1 &&
      forall i :: 0 <= i < |r.value.0| ==> IsWordChar(r.value.0[i]))
  {
    var w := WordRun(line);
    if |w| >= 1 && |w| < |line| && line[|w|] == ':' then
      assert line == w + ":" + line[|w| + 1..];
      Some((w, line[|w| + 1..]))
    else None
  }

  /** The index of the first `\s` character, or the length when none. */
  function FirstSpace(s: string): (i: nat)
    ensures i <= |s| && (i < |s| ==> IsSpace(s[i]))
    ensures forall j :: 0 <= j < i ==> !IsSpace(s[j])
  {
    if s == [] then 0 else if IsSpace(s[0]) then 0 else 1 + FirstSpace(s[1..])
  }

  /** `preg_split('/\s+/', $line, 2)` then `strtoupper` and `trim`: the
      upper-cased mnemonic and the trimmed operand ("" when there is none). */
  function SplitInstruction(line: string): (string, string)
  {
    var i := FirstSpace(line);
    if i == |line| then (Upper(line), "") else (Upper(line[..i]), Trim(SkipSpace(line[i..])))
  }

  // ------------------------------------------------------- addressing modes

  /** `isZeroPage`: leading `$` signs dropped, the rest all hexadecimal
      digits and no more than 0xFF. */
  predicate IsZeroPage(operand: string)
  {
    var digits := TrimLeft(operand, {'$'});
    AllHex(digits) && HexDec(digits) <= 0xFF
  }

  /** `\$?([0-9A-Fa-f]+)`: hexadecimal digits, optionally after one `$`. */
  predicate OptDollarHex(s: string)
  {
    AllHex(s) || (|s| >= 1 && s[0] == '$' && AllHex(s[1..]))
  }

  /** The operand ends with `,X` (or `,x`, when `index` is 'X'). */
  predicate EndsIndexed(operand: string, index: char, lower: char)
  {
    |operand| >= 2 && operand[|operand| - 2] == ',' && (operand[|operand| - 1] == index || operand[|operand| - 1] == lower)
  }

  /** `^\(([^,)]+)\)$` */
  predicate IsIndirect(operand: string)
  {
    |operand| >= 3 && operand[0] == '(' && operand[|operand| - 1] == ')' &&
    forall i :: 1 <= i < |operand| - 1 ==> operand[i] != ',' && operand[i] != ')'
  }

  /** `^\(\$?([0-9A-Fa-f]+),X\)$` case-insensitively. */
  predicate IsIndexedIndirect(operand: string)
  {
    |operand| >= 5 && operand[0] == '(' && operand[|operand| - 1] == ')' &&
    EndsIndexed(operand[..|operand| - 1], 'X', 'x') && OptDollarHex(operand[1..|operand| - 3])
  }

  /** `^\(\$?([0-9A-Fa-f]+)\),Y$` case-insensitively. */
  predicate IsIndirectIndexed(operand: string)
  {
    |operand| >= 5 && operand[0] == '(' && EndsIndexed(operand, 'Y', 'y') &&
    operand[|operand| - 3] == ')' && OptDollarHex(operand[1..|operand| - 3])
  }

  /** `determineAddressingMode`: the first rule that fits decides. */
  function AddressingMode(operand: string, mnemonic: string): (m: Mode)
    ensures IsEmpty(operand) <==> m == Implied
    ensures m == Relative ==> mnemonic in BRANCHES && IsIdentifier(operand)
  {
    if IsEmpty(operand) then Implied
    else if operand[0] == '#' then Immediate
    else if operand == "A" then Accumulator
    else if IsIndirect(operand) then AbsoluteIndirect
    else if IsIndexedIndirect(operand) then XIndexedZeroPageIndirect
    else if IsIndirectIndexed(operand) then ZeroPageIndirectYIndexed
    else if EndsIndexed(operand, 'X', 'x') then
      if IsZeroPage(operand[..|operand| - 2]) then XIndexedZeroPage else XIndexedAbsolute
    else if EndsIndexed(operand, 'Y', 'y') then
      if IsZeroPage(operand[..|operand| - 2]) then YIndexedZeroPage else YIndexedAbsolute
    else if IsZeroPage(operand) then ZeroPage
    else if mnemonic in BRANCHES && IsIdentifier(operand) then Relative
    else Absolute
  }

  /** The modes whose name contains "Absolute": a label used with one of
      them takes two bytes. */
  predicate NamesAbsolute(mode: Mode)
  {
    mode == Absolute || mode == XIndexedAbsolute || mode == YIndexedAbsolute || mode == AbsoluteIndirect
  }

  // --------------------------------------------------------------- operands

  /** `parseOperand`: the operand's number, or zero and a reference to patch
      when it names a label. `address` is the address of the instruction's
      first byte; the reference points one past it. */
  function ParseOperand(address: nat, operand: string, mode: Mode, line: int): (r: Result<Parsed, Failure>)
    ensures r.Ok? && r.value.reference.Some? ==>
      var ref := r.value.reference.value;
      r.value.value == 0 && ref.address == address + 1 && ref.mode == mode && ref.line == line &&
      ref.size == (if NamesAbsolute(mode) then 2 else 1) && IsIdentifier(ref.name)
    ensures r.Err? ==> r.error == CannotParseOperand(operand) || |operand| >= 3
    decreases |operand|
  {
    if |operand| >= 2 && operand[0] == '#' && OptDollarHex(operand[1..]) then
      var digits := if operand[1] == '$' then operand[2..] else operand[1..];
      Ok(Parsed(HexDec(digits), None))
    else if operand == "A" then Ok(Parsed(0, None))
    else if |operand| >= 2 && operand[0] == '$' && AllHex(operand[1..]) then Ok(Parsed(HexDec(operand[1..]), None))
    else if AllDigits(operand) then Ok(Parsed(IntVal(operand), None))
    else if |operand| >= 3 && (EndsIndexed(operand, 'X', 'x') || EndsIndexed(operand, 'Y', 'y')) then
      ParseOperand(address, operand[..|operand| - 2], mode, line)
    else if |operand| >= 3 && operand[0] == '(' && operand[|operand| - 1] == ')' then
      ParseOperand(address, operand[1..|operand| - 1], mode, line)
    else if IsIdentifier(operand) then
      Ok(Parsed(0, Some(Reference(address + 1, operand, line, mode, if NamesAbsolute(mode) then 2 else 1))))
    else Err(CannotParseOperand(operand))
  }

  // ------------------------------------------------------------ emission

  /** The program holds `v` at address `k`. */
  predicate Holds(p: Program, k: nat, v: nat)
  {
    k in p.values && p.values[k] == v
  }

  /** The program holds the low 16 bits of `w` at `k` and `k + 1`, low byte
      first. */
  predicate HoldsWord(p: Program, k: nat, w: int)
  {
    k in p.values && k + 1 in p.values && p.values[k] < 256 && p.values[k + 1] < 256 &&
    p.values[k] + 256 * p.values[k + 1] == w % 0x1_0000
  }

  /** Writes `bytes` at consecutive addresses from the current one and moves
      past them; labels and references stay as they were. */
  function Emit(a: Asm, bytes: seq<nat>): (r: Asm)
    ensures r.address == a.address + |bytes| && r.labels == a.labels && r.refs == a.refs
    decreases |bytes|
  {
    if bytes == [] then a
    else Emit(a.(program := Put(a.program, a.address, bytes[0]), address := a.address + 1), bytes[1..])
  }

  /** Writing a non-empty run is writing its first byte, then the rest. */
  lemma EmitFirst(a: Asm, bytes: seq<nat>)
    requires bytes != []
    ensures Emit(a, bytes) == Emit(a.(program := Put(a.program, a.address, bytes[0]), address := a.address + 1), bytes[1..])
  {
  }

  /** Writing keeps every address once in the program, in the order of
      first writing. */
  lemma {:induction false} EmitWf(a: Asm, bytes: seq<nat>)
    requires Wf(a.program)
    ensures Wf(Emit(a, bytes).program)
    decreases |bytes|
  {
    if bytes != [] {
      PutWf(a.program, a.address, bytes[0]);
      EmitWf(a.(program := Put(a.program, a.address, bytes[0]), address := a.address + 1), bytes[1..]);
    }
  }

  /** The address-to-byte map after writing `bytes` from `start`. */
  function Written(values: map<nat, nat>, start: nat, bytes: seq<nat>): map<nat, nat>
    decreases |bytes|
  {
    if bytes == [] then values else Written(values[start := bytes[0]], start + 1, bytes[1..])
  }

  /** `Emit` changes the program's bytes as `Written` says. */
  lemma {:induction false} EmitWritten(a: Asm, bytes: seq<nat>)
    ensures Emit(a, bytes).program.values == Written(a.program.values, a.address, bytes)
    decreases |bytes|
  {
    if bytes != [] {
      var next := a.(program := Put(a.program, a.address, bytes[0]), address := a.address + 1);
      EmitFirst(a, bytes);
      EmitWritten(next, bytes[1..]);
    }
  }

  /** Writing leaves every address outside the written run as it was, and
      creates no address outside it. */
  lemma {:induction false} WrittenKeeps(values: map<nat, nat>, start: nat, bytes: seq<nat>)
    ensures forall k :: k in values && !(start <= k < start + |bytes|) ==>
      k in Written(values, start, bytes) && Written(values, start, bytes)[k] == values[k]
    ensures forall k :: k in Written(values, start, bytes) ==> k in values || start <= k < start + |bytes|
    decreases |bytes|
  {
    if bytes != [] {
      var next := values[start := bytes[0]];
      var r := Written(next, start + 1, bytes[1..]);
      assert Written(values, start, bytes) == r;
      WrittenKeeps(next, start + 1, bytes[1..]);
      forall k | k in values && !(start <= k < start + |bytes|)
        ensures k in r && r[k] == values[k]
      {
        assert k in next && next[k] == values[k];
      }
    }
  }

  /** `Emit` leaves every address outside the ones it writes as it was, and
      creates no address outside them. */
  lemma EmitKeeps(a: Asm, bytes: seq<nat>)
    ensures var r := Emit(a, bytes).program;
      (forall k :: k in a.program.values && !(a.address <= k < a.address + |bytes|) ==> Holds(r, k, a.program.values[k])) &&
      (forall k :: k in r.values ==> k in a.program.values || a.address <= k < a.address + |bytes|)
  {
    EmitWritten(a, bytes);
    WrittenKeeps(a.program.values, a.address, bytes);
  }

  /** `Emit` places byte `i` at the current address plus `i`. */
  lemma {:induction false} EmitPlaces(a: Asm, bytes: seq<nat>)
    ensures forall i :: 0 <= i < |bytes| ==> Holds(Emit(a, bytes).program, a.address + i, bytes[i])
    decreases |bytes|
  {
    if bytes != [] {
      var next := a.(program := Put(a.program, a.address, bytes[0]), address := a.address + 1);
      EmitFirst(a, bytes);
      EmitPlaces(next, bytes[1..]);
      EmitKeeps(next, bytes[1..]);
      var r := Emit(next, bytes[1..]).program;
      assert a.address in next.program.values && next.program.values[a.address] == bytes[0];
      assert a.address < next.address;
      forall i | 1 <= i < |bytes|
        ensures Holds(r, a.address + i, bytes[i])
      {
        assert Holds(r, next.address + (i - 1), bytes[1..][i - 1]);
      }
    }
  }

  /** Writing one run and then another is writing the two runs joined. */
  lemma {:induction false} EmitAppend(a: Asm, xs: seq<nat>, ys: seq<nat>)
    ensures Emit(Emit(a, xs), ys) == Emit(a, xs + ys)
    decreases |xs|
  {
    if xs != [] {
      var next := a.(program := Put(a.program, a.address, xs[0]), address := a.address + 1);
      EmitAppend(next, xs[1..], ys);
      assert (xs + ys)[0] == xs[0] && (xs + ys)[1..] == xs[1..] + ys;
    } else {
      assert xs + ys == ys;
    }
  }

  /** `str_replace('0x', '', $s)`. */
  function RemoveHexPrefixes(s: string): (r: string)
    ensures |r| <= |s|
  {
    if |s| >= 2 && s[..2] == "0x" then RemoveHexPrefixes(s[2..])
    else if s == [] then []
    else [s[0]] + RemoveHexPrefixes(s[1..])
  }

  /** The byte an opcode record's text stands for: the `0x` prefixes
      removed and the rest read by `hexdec`. */
  function OpcodeValue(opcode: string): nat
  {
    HexDec(RemoveHexPrefixes(opcode))
  }

  /** The opcode byte generated for a record filed under `0x%02X` of `b` is
      `b`. */
  lemma OpcodeValueOfKey(b: Byte)
    ensures OpcodeValue(OpcodeKey(b)) == b
  {
    var h := Hex2(b);
    var k := OpcodeKey(b);
    assert k == "0x" + h;
    assert k[..2] == "0x" && k[2..] == h;
    assert RemoveHexPrefixes(k) == RemoveHexPrefixes(h);
    assert h[1] != 'x' && h[..2] != "0x";
    assert RemoveHexPrefixes(h) == [h[0]] + RemoveHexPrefixes(h[1..]);
    assert h[1..] == [h[1]];
    assert RemoveHexPrefixes([h[1]]) == [h[1]] + RemoveHexPrefixes([]);
    assert RemoveHexPrefixes(h) == h;
  }

  /** The operand bytes of an instruction of `size` bytes, little-endian. */
  function OperandBytes(value: nat, size: int): (r: seq<nat>)
    ensures |r| == (if size == 2 then 1 else if size == 3 then 2 else 0)
    ensures size == 2 ==> r == [Lo8(value)]
    ensures size == 3 ==> r[0] + 256 * r[1] == value % 0x1_0000 && r[0] < 256 && r[1] < 256
  {
    if size == 2 then [value % 256]
    else if size == 3 then [value % 256, (value / 256) % 256]
    else []
  }

  /** `generateInstruction`: the opcode byte and, for a longer instruction,
      its operand, parsed and laid out little-endian. */
  function Generate(a: Asm, op: Opcode, operand: string, line: int): (r: Result<Asm, Failure>)
  {
    var code := OpcodeValue(op.opcode);
    if op.bytes > 1 then
      match ParseOperand(a.address, operand, op.mode, line)
      case Err(f) => Err(f)
      case Ok(p) =>
        var refs := if p.reference.Some? then a.refs + [p.reference.value] else a.refs;
        Ok(Emit(a.(refs := refs), [code] + OperandBytes(p.value, op.bytes)))
    else Ok(Emit(a, [code]))
  }

  /** An instruction of one to three bytes takes exactly that many bytes,
      from the current address: the opcode, then the operand's low byte,
      then its high byte. */
  lemma GenerateLayout(a: Asm, op: Opcode, operand: string, line: int)
    requires 1 <= op.bytes <= 3
    requires Generate(a, op, operand, line).Ok?
    ensures var r := Generate(a, op, operand, line).value;
      r.address == a.address + op.bytes && r.labels == a.labels &&
      Holds(r.program, a.address, OpcodeValue(op.opcode)) &&
      (op.bytes > 1 ==> ParseOperand(a.address, operand, op.mode, line).Ok?) &&
      (op.bytes == 2 ==> Holds(r.program, a.address + 1, ParseOperand(a.address, operand, op.mode, line).value.value % 256)) &&
      (op.bytes == 3 ==> HoldsWord(r.program, a.address + 1, ParseOperand(a.address, operand, op.mode, line).value.value))
  {
    var code := OpcodeValue(op.opcode);
    if op.bytes > 1 {
      var p := ParseOperand(a.address, operand, op.mode, line).value;
      var refs := if p.reference.Some? then a.refs + [p.reference.value] else a.refs;
      var bytes := [code] + OperandBytes(p.value, op.bytes);
      EmitPlaces(a.(refs := refs), bytes);
      if op.bytes == 3 {
        var r := Generate(a, op, operand, line).value;
        assert Holds(r.program, a.address + 1, bytes[1]) && Holds(r.program, a.address + 2, bytes[2]);
      }
    } else {
      EmitPlaces(a, [code]);
    }
  }

  // ------------------------------------------------------------ directives

  /** `^"([^"]*)"(.*)$`: a quoted string and what follows it. */
  function Quoted(operand: string): (r: Option<(string, string)>)
    ensures r.Some? ==> operand == "\"" + r.value.0 + "\"" + r.value.1 && '"' !in r.value.0
  {
    if operand == [] || operand[0] != '"' then None
    else
      var body := operand[1..];
      var i := QuoteIndex(body);
      if i == |body| then None
      else
        assert operand == "\"" + body[..i] + "\"" + body[i + 1..];
        Some((body[..i], body[i + 1..]))
  }

  /** The index of the first `"`, or the length when none. */
  function QuoteIndex(s: string): (i: nat)
    ensures i <= |s| && (i < |s| ==> s[i] == '"') && '"' !in s[..i]
  {
    if s == [] then 0
    else if s[0] == '"' then 0
    else
      var j := QuoteIndex(s[1..]);
      assert s[..j + 1] == [s[0]] + s[1..][..j];
      1 + j
  }

  /** `ord` of each character. */
  function Codes(text: string): (r: seq<nat>)
    ensures |r| == |text| && forall i :: 0 <= i < |text| ==> r[i] == text[i] as nat
  {
    seq(|text|, i requires 0 <= i < |text| => text[i] as nat)
  }

  /** `^\$([0-9A-Fa-f]+)$` then `hexdec`, or `^([0-9]+)$` then `intval`. */
  function Number(value: string): (r: Option<nat>)
    ensures r.Some? <==> (|value| >= 2 && value[0] == '$' && AllHex(value[1..])) || AllDigits(value)
  {
    if |value| >= 2 && value[0] == '$' && AllHex(value[1..]) then Some(HexDec(value[1..]))
    else if AllDigits(value) then Some(IntVal(value))
    else None
  }

  /** The comma-separated numbers of a `.BYTE` line, one byte each. */
  function ByteList(a: Asm, values: seq<string>): (r: Result<Asm, Failure>)
    decreases |values|
  {
    if values == [] then Ok(a)
    else
      var v := Trim(values[0]);
      match Number(v)
      case None => Err(InvalidByte(v))
      case Some(b) => ByteList(Emit(a, [b]), values[1..])
  }

  /** `processDataByte` as its authors meant it: a quoted string emits its
      character codes and hands any comma-separated remainder back to the
      directive; otherwise each comma-separated number is a byte. */
  function DataBytes(a: Asm, operand: string): (r: Result<Asm, Failure>)
    decreases |operand|
  {
    match Quoted(operand)
    case Some((text, rest)) =>
      var written := Emit(a, Codes(text));
      var remaining := Trim(rest);
      if !IsEmpty(remaining) && remaining[0] == ',' then
        var next := Trim(remaining[1..]);
        if next != "" then DataBytes(written, next) else Ok(written)
      else Ok(written)
    case None => ByteList(a, Explode(operand, ','))
  }

  /** `processDataByte` as written: the remainder after the comma is
      dropped when `empty()` calls it empty, which it also does for "0". */
  function DataBytesAsWritten(a: Asm, operand: string): (r: Result<Asm, Failure>)
    decreases |operand|
  {
    match Quoted(operand)
    case Some((text, rest)) =>
      var written := Emit(a, Codes(text));
      var remaining := Trim(rest);
      if !IsEmpty(remaining) && remaining[0] == ',' then
        var next := Trim(remaining[1..]);
        if !IsEmpty(next) then DataBytesAsWritten(written, next) else Ok(written)
      else Ok(written)
    case None => ByteList(a, Explode(operand, ','))
  }

  /** A quoted string emits one byte per character, its character code. */
  lemma StringBytes(a: Asm, text: string)
    requires '"' !in text
    ensures var r := DataBytes(a, "\"" + text + "\"");
      r.Ok? && r.value.address == a.address + |text| &&
      forall i :: 0 <= i < |text| ==> Holds(r.value.program, a.address + i, text[i] as nat)
  {
    var operand := "\"" + text + "\"";
    QuotedString(text, "");
    assert operand == "\"" + text + "\"" + "";
    assert Trim("") == "";
    var written := Emit(a, Codes(text));
    assert DataBytes(a, operand) == Ok(written);
    EmitPlaces(a, Codes(text));
  }

  /** A string in quotes, followed by anything, is split after its closing
      quote. */
  lemma QuotedString(text: string, rest: string)
    requires '"' !in text
    ensures Quoted("\"" + text + "\"" + rest) == Some((text, rest))
  {
    var operand := "\"" + text + "\"" + rest;
    var body := text + "\"" + rest;
    assert operand[1..] == body;
    var i := QuoteIndex(body);
    assert body[|text|] == '"';
    assert forall j :: 0 <= j < |text| ==> body[j] == text[j];
    assert i == |text|;
    assert body[..i] == text && body[i + 1..] == rest;
  }

  /** The remainder ",0" after a closing quote trims to itself, and after
      its comma comes "0", which also trims to itself. */
  lemma CommaZero()
    ensures Trim(",0") == ",0" && ",0"[1..] == "0" && Trim("0") == "0"
  {
    assert TrimLeft(",0", TRIM_CHARS) == ",0";
    assert ",0"[..1] == ",";
    assert TrimRight(",0", TRIM_CHARS) == ",0";
    assert TrimLeft("0", TRIM_CHARS) == "0";
    assert TrimRight("0", TRIM_CHARS) == "0";
  }

  /** `.BYTE "text",0` as written: the remainder "0" after the comma counts
      as empty, so only the text's bytes are written and the terminating
      zero is lost: the address after the text is left as it was. */
  lemma DataBytesAsWrittenDropsZero(a: Asm, text: string)
    requires '"' !in text
    ensures var r := DataBytesAsWritten(a, "\"" + text + "\",0");
      var end := a.address + |text|;
      r.Ok? && r.value.address == end &&
      (end in r.value.program.values <==> end in a.program.values) &&
      (end in a.program.values ==> Holds(r.value.program, end, a.program.values[end]))
  {
    StringThenZeroAsWritten(a, text);
    EmitKeeps(a, Codes(text));
  }

  /** As written, `.BYTE "text",0` stops after the text's bytes. */
  lemma StringThenZeroAsWritten(a: Asm, text: string)
    requires '"' !in text
    ensures DataBytesAsWritten(a, "\"" + text + "\",0") == Ok(Emit(a, Codes(text)))
  {
    QuotedString(text, ",0");
    assert "\"" + text + "\",0" == "\"" + text + "\"" + ",0";
    CommaZero();
  }

  /** `.BYTE "text",more`, for a trimmed, non-empty `more`, writes the
      text's codes and then goes on with `more` as a directive of its own. */
  lemma StringThenMore(a: Asm, text: string, more: string)
    requires '"' !in text && more != "" && Trim(more) == more
    ensures DataBytes(a, "\"" + text + "\"," + more) == DataBytes(Emit(a, Codes(text)), more)
  {
    var rest := "," + more;
    QuotedString(text, rest);
    assert "\"" + text + "\"," + more == "\"" + text + "\"" + rest;
    CommaMore(more);
  }

  /** A comma followed by a trimmed, non-empty remainder trims to itself. */
  lemma CommaMore(more: string)
    requires more != "" && Trim(more) == more
    ensures Trim("," + more) == "," + more && ("," + more)[1..] == more
  {
    var rest := "," + more;
    assert TrimLeft(rest, TRIM_CHARS) == rest;
    TrimRightKeepsPrefix(TrimLeft(more, TRIM_CHARS), TRIM_CHARS);
    assert more[|more| - 1] !in TRIM_CHARS;
    assert rest[|rest| - 1] == more[|more| - 1];
    assert TrimRight(rest, TRIM_CHARS) == rest;
    assert rest[1..] == more;
  }

  /** `.BYTE "text",0` as meant: the text's codes are written and then a
      zero after them (where `Emit` puts each byte is `EmitPlaces`). */
  lemma DataBytesKeepsZero(a: Asm, text: string)
    requires '"' !in text
    ensures DataBytes(a, "\"" + text + "\",0") == Ok(Emit(a, Codes(text) + [0]))
  {
    StringThenZero(a, text);
    ZeroDirective(Emit(a, Codes(text)));
    EmitAppend(a, Codes(text), [0]);
  }

  /** `.BYTE "text",0` goes on, after the text's bytes, with `.BYTE 0`. */
  lemma StringThenZero(a: Asm, text: string)
    requires '"' !in text
    ensures DataBytes(a, "\"" + text + "\",0") == DataBytes(Emit(a, Codes(text)), "0")
  {
    CommaZero();
    StringThenMore(a, text, "0");
    assert "\"" + text + "\",0" == "\"" + text + "\"," + "0";
  }

  /** `.BYTE 0` writes a single zero. */
  lemma ZeroDirective(a: Asm)
    ensures DataBytes(a, "0") == Ok(Emit(a, [0]))
  {
    assert Quoted("0") == None;
    assert Explode("0", ',') == ["0"] by {
      assert "0"[1..] == "" && "0"[0] == '0';
      assert Explode("", ',') == [""];
      assert Explode("0", ',') == [['0'] + ""] + [""][1..];
      assert ['0'] + "" == "0" && [""][1..] == [];
    }
    assert Trim("0") == "0" by {
      assert TrimLeft("0", TRIM_CHARS) == "0";
      assert TrimRight("0", TRIM_CHARS) == "0";
    }
    assert Number("0") == Some(0) by {
      assert AllDigits("0");
      assert "0"[..0] == "";
    }
    assert ["0"][1..] == [];
  }

  /** A `.WORD` value: a number, or a label to patch with two bytes at the
      current address. */
  function WordValue(address: nat, value: string): (r: Option<Parsed>)
    ensures r.Some? && r.value.reference.Some? ==>
      r.value.reference.value == Reference(address, value, 0, Absolute, 2) && r.value.value == 0
  {
    match Number(value)
    case Some(w) => Some(Parsed(w, None))
    case None =>
      if IsIdentifier(value) then Some(Parsed(0, Some(Reference(address, value, 0, Absolute, 2))))
      else None
  }

  /** `processDataWord` over the comma-separated values. */
  function WordList(a: Asm, values: seq<string>): (r: Result<Asm, Failure>)
    decreases |values|
  {
    if values == [] then Ok(a)
    else
      var v := Trim(values[0]);
      match WordValue(a.address, v)
      case None => Err(InvalidWord(v))
      case Some(p) =>
        var refs := if p.reference.Some? then a.refs + [p.reference.value] else a.refs;
        WordList(Emit(a.(refs := refs), [p.value % 256, (p.value / 256) % 256]), values[1..])
  }

  /** Every `.WORD` value takes two bytes, low byte first, and a run of them
      moves the address on by twice their count. */
  lemma {:induction false} WordListLayout(a: Asm, values: seq<string>)
    requires WordList(a, values).Ok?
    ensures var r := WordList(a, values).value;
      r.address == a.address + 2 * |values| && r.labels == a.labels &&
      (values != [] ==> HoldsWord(r.program, a.address, WordValue(a.address, Trim(values[0])).value.value))
  {
    WordListKeepsBelow(a, values);
    if values != [] {
      var v := Trim(values[0]);
      var p := WordValue(a.address, v).value;
      var refs := if p.reference.Some? then a.refs + [p.reference.value] else a.refs;
      var b := [p.value % 256, (p.value / 256) % 256];
      var next := Emit(a.(refs := refs), b);
      EmitPlaces(a.(refs := refs), b);
      WordListKeepsBelow(next, values[1..]);
      WordSplitNat(p.value);
    }
  }

  /** Every `.WORD` value, not only the first, lands little-endian at its
      own slot: the i-th value's two bytes start at the start address plus
      2·i. */
  lemma {:induction false} WordListPlaces(a: Asm, values: seq<string>, i: int)
    requires WordList(a, values).Ok? && 0 <= i < |values|
    ensures var w := WordValue(a.address + 2 * i, Trim(values[i]));
      w.Some? && HoldsWord(WordList(a, values).value.program, a.address + 2 * i, w.value.value)
    decreases |values|
  {
    if i == 0 {
      WordListLayout(a, values);
    } else {
      var next := WordListRest(a, values);
      assert values[1..][i - 1] == values[i];
      WordListPlaces(next, values[1..], i - 1);
    }
  }

  /** A word list with a first value is that value's two bytes followed by
      the list of the others, two addresses on. */
  lemma WordListRest(a: Asm, values: seq<string>) returns (next: Asm)
    requires WordList(a, values).Ok? && values != []
    ensures next.address == a.address + 2 && WordList(next, values[1..]) == WordList(a, values)
  {
    var p := WordValue(a.address, Trim(values[0])).value;
    var refs := if p.reference.Some? then a.refs + [p.reference.value] else a.refs;
    next := Emit(a.(refs := refs), [p.value % 256, (p.value / 256) % 256]);
  }

  lemma WordSplitNat(w: nat)
    ensures w % 256 + 256 * ((w / 256) % 256) == w % 0x1_0000
  {
    var q, r := w / 0x1_0000, w % 0x1_0000;
    var h, l := r / 256, r % 256;
    assert w == 256 * (256 * q + h) + l;
    assert w / 256 == 256 * q + h;
    assert w % 256 == l;
  }

  /** `WordList` moves the address on by two per value, binds no label, and
      leaves the addresses below its start as they were. */
  lemma {:induction false} WordListKeepsBelow(a: Asm, values: seq<string>)
    requires WordList(a, values).Ok?
    ensures var r := WordList(a, values).value;
      r.address == a.address + 2 * |values| && r.labels == a.labels &&
      forall k :: k in a.program.values && k < a.address ==> Holds(r.program, k, a.program.values[k])
    decreases |values|
  {
    if values != [] {
      var v := Trim(values[0]);
      var p := WordValue(a.address, v).value;
      var refs := if p.reference.Some? then a.refs + [p.reference.value] else a.refs;
      var b := [p.value % 256, (p.value / 256) % 256];
      var next := Emit(a.(refs := refs), b);
      assert WordList(a, values) == WordList(next, values[1..]);
      EmitKeeps(a.(refs := refs), b);
      WordListKeepsBelow(next, values[1..]);
      forall k | k in a.program.values && k < a.address
        ensures Holds(WordList(a, values).value.program, k, a.program.values[k])
      {
        assert Holds(next.program, k, a.program.values[k]);
      }
    }
  }

  // ------------------------------------------------------------- first pass

  /** `processInstruction`: a data directive, or an instruction looked up by
      mnemonic and addressing mode and generated. */
  function ProcessInstruction(a: Asm, table: Table, line: string, number: int): (r: Result<Asm, Failure>)
    requires Wf(table)
  {
    var (mnemonic, operand) := SplitInstruction(line);
    if mnemonic == ".BYTE" || mnemonic == "DCB" then DataBytes(a, operand)
    else if mnemonic == ".WORD" || mnemonic == "DCW" then WordList(a, Explode(operand, ','))
    else
      var mode := AddressingMode(operand, mnemonic);
      match FirstMatch(table, table.keys, mnemonic, mode)
      case None => Err(UnknownInstruction(mnemonic, operand, mode))
      case Some(op) => Generate(a, op, operand, number)
  }

  /** `processLine`: an origin line moves the address; a label line binds
      the label to the current address and assembles what follows it. */
  function ProcessLine(a: Asm, table: Table, line: string, number: int): (r: Result<Asm, Failure>)
    requires Wf(table)
  {
    match OriginDigits(line)
    case Some(digits) => Ok(a.(address := HexDec(digits)))
    case None =>
      match LabelSplit(line)
      case Some((name, rest)) =>
        var bound := a.(labels := a.labels[name := a.address]);
        var remainder := Trim(rest);
        if IsEmpty(remainder) then Ok(bound) else ProcessInstruction(bound, table, remainder, number)
      case None => ProcessInstruction(a, table, line, number)
  }

  /** `* = $hex`, with any white space (none included) around the `=`,
      sets the address to the hexadecimal value and changes nothing else. */
  lemma OriginSetsAddress(a: Asm, table: Table, s1: string, s2: string, digits: string, number: int)
    requires Wf(table) && AllSpace(s1) && AllSpace(s2) && AllHex(digits)
    ensures ProcessLine(a, table, "*" + s1 + "=" + s2 + "$" + digits, number) == Ok(a.(address := HexDec(digits)))
  {
    OriginLine(s1, s2, digits);
  }

  predicate AllSpace(s: string) { forall i :: 0 <= i < |s| ==> IsSpace(s[i]) }

  lemma OriginLine(s1: string, s2: string, digits: string)
    requires AllSpace(s1) && AllSpace(s2) && AllHex(digits)
    ensures OriginDigits("*" + s1 + "=" + s2 + "$" + digits) == Some(digits)
  {
    var afterEquals := "$" + digits;
    var afterStar := "=" + (s2 + afterEquals);
    var line := "*" + (s1 + afterStar);
    OriginLineShape(s1, s2, digits);
    assert line[0] == '*' && line[1..] == s1 + afterStar;
    SpaceSkipped(s1, afterStar);
    assert afterStar[1..] == s2 + afterEquals;
    SpaceSkipped(s2, afterEquals);
    assert afterEquals[0] == '$' && afterEquals[1..] == digits;
    HexRunAll(digits);
  }

  lemma OriginLineShape(s1: string, s2: string, digits: string)
    ensures "*" + s1 + "=" + s2 + "$" + digits == "*" + (s1 + ("=" + (s2 + ("$" + digits))))
  {
    var t := "$" + digits;
    assert "*" + s1 + "=" + s2 + "$" + digits == ("*" + s1 + "=" + s2) + t;
    var u := s2 + t;
    assert ("*" + s1 + "=" + s2) + t == ("*" + s1 + "=") + u;
    var w := "=" + u;
    assert ("*" + s1 + "=") + u == ("*" + s1) + w;
    assert ("*" + s1) + w == "*" + (s1 + w);
  }

  /** Skipping white space drops exactly a leading run of it. */
  lemma {:induction false} SpaceSkipped(spaces: string, t: string)
    requires AllSpace(spaces) && t != [] && !IsSpace(t[0])
    ensures SkipSpace(spaces + t) == t
    decreases |spaces|
  {
    if spaces == [] {
      assert spaces + t == t;
      NoSpaceToSkip(t);
    } else {
      assert (spaces + t)[0] == spaces[0];
      assert (spaces + t)[1..] == spaces[1..] + t;
      SpaceSkipped(spaces[1..], t);
    }
  }

  lemma NoSpaceToSkip(s: string)
    requires s != [] && !IsSpace(s[0])
    ensures SkipSpace(s) == s
  {
  }

  lemma {:induction false} HexRunAll(s: string)
    requires forall i :: 0 <= i < |s| ==> IsHexDigit(s[i])
    ensures HexRun(s) == s
  {
    if s != [] {
      HexRunAll(s[1..]);
    }
  }

  /** A label line binds the label to the address the line starts at; a
      line holding only the label emits nothing. */
  lemma LabelBindsAddress(a: Asm, table: Table, line: string, number: int)
    requires Wf(table)
    requires OriginDigits(line).None? && LabelSplit(line).Some?
    requires ProcessLine(a, table, line, number).Ok?
    ensures var r := ProcessLine(a, table, line, number).value;
      LabelSplit(line).value.0 in r.labels && r.labels[LabelSplit(line).value.0] == a.address
    ensures IsEmpty(Trim(LabelSplit(line).value.1)) ==>
      ProcessLine(a, table, line, number).value == a.(labels := a.labels[LabelSplit(line).value.0 := a.address])
  {
    var (name, rest) := LabelSplit(line).value;
    var bound := a.(labels := a.labels[name := a.address]);
    var remainder := Trim(rest);
    if !IsEmpty(remainder) {
      InstructionKeepsLabels(bound, table, remainder, number);
    }
  }

  /** Assembling an instruction or directive binds no label. */
  lemma InstructionKeepsLabels(a: Asm, table: Table, line: string, number: int)
    requires Wf(table)
    requires ProcessInstruction(a, table, line, number).Ok?
    ensures ProcessInstruction(a, table, line, number).value.labels == a.labels
  {
    var (mnemonic, operand) := SplitInstruction(line);
    if mnemonic == ".BYTE" || mnemonic == "DCB" {
      DataBytesKeepsLabels(a, operand);
    } else if mnemonic == ".WORD" || mnemonic == "DCW" {
      WordListLayout(a, Explode(operand, ','));
    } else {
      var mode := AddressingMode(operand, mnemonic);
      var op := FirstMatch(table, table.keys, mnemonic, mode).value;
      var p := ParseOperand(a.address, operand, op.mode, number);
      if op.bytes > 1 {
        var refs := if p.value.reference.Some? then a.refs + [p.value.reference.value] else a.refs;
        EmitPlaces(a.(refs := refs), [OpcodeValue(op.opcode)] + OperandBytes(p.value.value, op.bytes));
      } else {
        EmitPlaces(a, [OpcodeValue(op.opcode)]);
      }
    }
  }

  lemma {:induction false} DataBytesKeepsLabels(a: Asm, operand: string)
    requires DataBytes(a, operand).Ok?
    ensures DataBytes(a, operand).value.labels == a.labels
    decreases |operand|
  {
    match Quoted(operand)
    case Some((text, rest)) =>
      var written := Emit(a, Codes(text));
      EmitPlaces(a, Codes(text));
      var remaining := Trim(rest);
      if !IsEmpty(remaining) && remaining[0] == ',' {
        var next := Trim(remaining[1..]);
        if next != "" {
          DataBytesKeepsLabels(written, next);
        }
      }
    case None =>
      ByteListKeepsLabels(a, Explode(operand, ','));
  }

  lemma {:induction false} ByteListKeepsLabels(a: Asm, values: seq<string>)
    requires ByteList(a, values).Ok?
    ensures ByteList(a, values).value.labels == a.labels
    ensures ByteList(a, values).value.address == a.address + |values|
    decreases |values|
  {
    if values != [] {
      var b := Number(Trim(values[0])).value;
      EmitPlaces(a, [b]);
      ByteListKeepsLabels(Emit(a, [b]), values[1..]);
    }
  }

  /** `firstPass`: each line in order; the first failure stops the pass and
      is reported with the line's number and text. */
  function FirstPass(a: Asm, table: Table, lines: seq<SourceLine>): (r: Result<Asm, AsmError>)
    requires Wf(table)
    ensures r.Err? ==> r.error.AtLine? && exists i :: 0 <= i < |lines| && r.error.line == lines[i].number && r.error.text == lines[i].text
    decreases |lines|
  {
    if lines == [] then Ok(a)
    else
      match ProcessLine(a, table, lines[0].text, lines[0].number)
      case Err(f) => Err(AtLine(lines[0].number, f, lines[0].text))
      case Ok(next) =>
        var r := FirstPass(next, table, lines[1..]);
        assert r.Err? ==> exists i :: 0 <= i < |lines[1..]| && r.error.line == lines[1..][i].number && r.error.text == lines[1..][i].text;
        if r.Err? then
          var i :| 0 <= i < |lines[1..]| && r.error.line == lines[1..][i].number && r.error.text == lines[1..][i].text;
          assert lines[1..][i] == lines[i + 1];
          r
        else r
  }

  // ------------------------------------------------------------ second pass

  /** A reference the second pass refuses: its label is undefined, or it is
      a branch whose label lies outside -128..127 of the byte after it. */
  predicate Unresolvable(labels: map<string, nat>, ref: Reference)
  {
    ref.name !in labels || (ref.mode == Relative && !(-128 <= labels[ref.name] - (ref.address + 1) <= 127))
  }

  /** Patches one reference: a branch gets the signed distance from the byte
      after its operand, which must fit in a byte; anything else gets the
      label's low byte and, for two-byte references, its high byte. */
  function Patch(program: Program, labels: map<string, nat>, ref: Reference): (r: Result<Program, AsmError>)
    ensures r.Err? <==> Unresolvable(labels, ref)
  {
    if ref.name !in labels then Err(UndefinedLabel(ref.name, ref.line))
    else
      var value := labels[ref.name];
      if ref.mode == Relative then
        var offset := value - (ref.address + 1);
        if offset < -128 || offset > 127 then Err(BranchTooFar(ref.name, ref.line))
        else Ok(Put(program, ref.address, offset % 256))
      else if ref.size == 1 then Ok(Put(program, ref.address, value % 256))
      else Ok(Put(Put(program, ref.address, value % 256), ref.address + 1, (value / 256) % 256))
  }

  /** What a resolved reference leaves behind: a branch offset that the
      branch handler's sign extension, applied from the byte after it, turns
      back into the label; otherwise the label's low byte, or its
      little-endian word. */
  lemma PatchPlaces(program: Program, labels: map<string, nat>, ref: Reference)
    requires !Unresolvable(labels, ref)
    ensures var p := Patch(program, labels, ref).value;
      var value := labels[ref.name];
      (ref.mode == Relative ==>
        ref.address in p.values && p.values[ref.address] < 256 &&
        ref.address + 1 + FC.Displacement(p.values[ref.address]) == value) &&
      (ref.mode != Relative && ref.size == 1 ==> Holds(p, ref.address, value % 256)) &&
      (ref.mode != Relative && ref.size != 1 ==> HoldsWord(p, ref.address, value))
  {
    var value := labels[ref.name];
    if ref.mode == Relative {
      var offset := value - (ref.address + 1);
      var o := offset % 256;
      if offset < 0 {
        assert o == offset + 256;
      } else {
        assert o == offset;
      }
    } else if ref.size != 1 {
      WordSplitNat(value);
    }
  }

  /** `secondPass`: every reference in the order it was made. */
  function SecondPass(program: Program, labels: map<string, nat>, refs: seq<Reference>): (r: Result<Program, AsmError>)
    decreases |refs|
  {
    if refs == [] then Ok(program)
    else
      match Patch(program, labels, refs[0])
      case Err(e) => Err(e)
      case Ok(p) => SecondPass(p, labels, refs[1..])
  }

  /** The second pass fails exactly when some reference names an undefined
      label or a branch that does not reach. */
  lemma {:induction false} SecondPassFails(program: Program, labels: map<string, nat>, refs: seq<Reference>)
    ensures SecondPass(program, labels, refs).Err? <==> exists i :: 0 <= i < |refs| && Unresolvable(labels, refs[i])
    decreases |refs|
  {
    if refs != [] {
      if Patch(program, labels, refs[0]).Ok? {
        SecondPassFails(Patch(program, labels, refs[0]).value, labels, refs[1..]);
        if exists i :: 0 <= i < |refs[1..]| && Unresolvable(labels, refs[1..][i]) {
          var i :| 0 <= i < |refs[1..]| && Unresolvable(labels, refs[1..][i]);
          assert refs[i + 1] == refs[1..][i];
        }
        if exists i :: 0 <= i < |refs| && Unresolvable(labels, refs[i]) {
          var i :| 0 <= i < |refs| && Unresolvable(labels, refs[i]);
          assert refs[1..][i - 1] == refs[i];
        }
      }
    }
  }

  /** `assemble`: the cleaned source through both passes from a reset
      assembler; the patched program, or the first error. */
  function Assemble(table: Table, source: string): Result<Program, AsmError>
    requires Wf(table)
  {
    match FirstPass(Initial(), table, Preprocess(source))
    case Err(e) => Err(e)
    case Ok(a) => SecondPass(a.program, a.labels, a.refs)
  }

  /** Once every line has been read, assembly fails exactly when a reference
      is unresolvable, and otherwise yields the first pass's program with
      every reference patched. */
  lemma AssembleFails(table: Table, source: string)
    requires Wf(table)
    requires FirstPass(Initial(), table, Preprocess(source)).Ok?
    ensures var a := FirstPass(Initial(), table, Preprocess(source)).value;
      (Assemble(table, source).Err? <==> exists i :: 0 <= i < |a.refs| && Unresolvable(a.labels, a.refs[i])) &&
      Assemble(table, source) == SecondPass(a.program, a.labels, a.refs)
  {
    var a := FirstPass(Initial(), table, Preprocess(source)).value;
    SecondPassFails(a.program, a.labels, a.refs);
  }

  // ------------------------------------------------------------ disassembly

  /** The program's bytes at `address + i` for `i` from `from` below `size`,
      skipping addresses that hold nothing. */
  function Following(program: Program, address: nat, from: nat, size: int): seq<nat>
    decreases size - from
  {
    if from >= size then []
    else
      var here := if address + from in program.values then [program.values[address + from]] else [];
      here + Following(program, address, from + 1, size)
  }

  /** Element `i`, or 0 when absent: PHP reads a missing element as null,
      which formats and combines as zero. */
  function At(bytes: seq<nat>, i: nat): nat
  {
    if i < |bytes| then bytes[i] else 0
  }

  /** `formatOperand`: the operand in the assembler's own syntax. */
  function FormatOperand(mode: Mode, bytes: seq<nat>): string
  {
    var b := At(bytes, 0);
    if mode == Relative then "*" + SignedDecimal(if b > 127 then b - 256 else b)
    else Frame(mode, OperandDigits(mode, bytes))
  }

  /** `%04X` of the address formed from two bytes for the modes that name an
      absolute address, `%02X` of the first byte otherwise. */
  function OperandDigits(mode: Mode, bytes: seq<nat>): string
  {
    var b := At(bytes, 0);
    if NamesAbsolute(mode) then HexPad(Or(b, At(bytes, 1) * 256), 4) else HexPad(b, 2)
  }

  /** The text `formatOperand` puts around an operand's hexadecimal digits:
      `#$`, `$`, `,X`, `,Y` and the parentheses of the indirect modes. */
  function Frame(mode: Mode, digits: string): string
  {
    match mode
    case Immediate => "#$" + digits
    case ZeroPage => "$" + digits
    case Absolute => "$" + digits
    case XIndexedZeroPage => "$" + digits + ",X"
    case YIndexedZeroPage => "$" + digits + ",Y"
    case XIndexedAbsolute => "$" + digits + ",X"
    case YIndexedAbsolute => "$" + digits + ",Y"
    case AbsoluteIndirect => "($" + digits + ")"
    case XIndexedZeroPageIndirect => "($" + digits + ",X)"
    case ZeroPageIndirectYIndexed => "($" + digits + "),Y"
    case _ => ""
  }

  /** The listing line for the byte at `address` and where the next
      instruction starts. */
  function ListingLine(table: Table, program: Program, address: nat, byte: nat): (r: (string, int))
  {
    var key := "0x" + HexPad(byte, 2);
    if key in table.values then
      var op := table.values[key];
      (HexPad(address, 4) + ": " + op.mnemonic + OperandText(program, address, op), address + op.bytes)
    else (HexPad(address, 4) + ": .BYTE $" + HexPad(byte, 2), address + 1)
  }

  /** The two shapes of a listing line, by whether the byte is an opcode. */
  lemma ListingLineCases(table: Table, program: Program, address: nat, byte: nat)
    ensures var key := "0x" + HexPad(byte, 2);
      ListingLine(table, program, address, byte).1 ==
        if key in table.values then address + table.values[key].bytes else address + 1
    ensures var key := "0x" + HexPad(byte, 2);
      key !in table.values ==>
        ListingLine(table, program, address, byte).0 == HexPad(address, 4) + ": .BYTE $" + HexPad(byte, 2)
    ensures var key := "0x" + HexPad(byte, 2);
      key in table.values ==>
        ListingLine(table, program, address, byte).0 ==
          HexPad(address, 4) + ": " + table.values[key].mnemonic + OperandText(program, address, table.values[key])
  {
  }

  /** What follows the mnemonic: a space and the formatted operand bytes
      for an instruction longer than its opcode, nothing otherwise. */
  function OperandText(program: Program, address: nat, op: Opcode): string
  {
    if op.bytes > 1 then " " + FormatOperand(op.mode, Following(program, address, 1, op.bytes)) else ""
  }

  /** The listing from the program's `from`-th address onwards, in the
      program's order, skipping addresses below `address` (the inside of an
      instruction already listed). */
  function Listing(table: Table, program: Program, from: nat, address: int): seq<string>
    requires Wf(table) && Wf(program)
    decreases |program.keys| - from
  {
    if from >= |program.keys| then []
    else
      var k := program.keys[from];
      if k < address then Listing(table, program, from + 1, address)
      else
        var (text, next) := ListingLine(table, program, k, program.values[k]);
        [text] + Listing(table, program, from + 1, next)
  }

  /** One step of the listing: the address at position `from` is skipped
      when it lies inside the instruction listed last, and listed otherwise. */
  lemma ListingStep(table: Table, program: Program, from: nat, address: int)
    requires Wf(table) && Wf(program) && from < |program.keys|
    ensures program.keys[from] in program.values
    ensures var k := program.keys[from];
      var (text, next) := ListingLine(table, program, k, program.values[k]);
      Listing(table, program, from, address) ==
        if k < address then Listing(table, program, from + 1, address)
        else [text] + Listing(table, program, from + 1, next)
  {
  }

  /** `disassemble`: the listing lines joined by line feeds. */
  function Disassemble(table: Table, program: Program, start: int): string
    requires Wf(table) && Wf(program)
  {
    var lines := Listing(table, program, 0, start);
    if lines == [] then "" else Join(lines, '\n')
  }

  /** A byte that is no opcode is listed as data, `XXXX: .BYTE $YY`, which
      `hexdec` reads back to the address and the byte, and the listing goes
      on at the next address. */
  lemma DataByteListing(table: Table, program: Program, address: nat, byte: Byte)
    requires Wf(table) && OpcodeKey(byte) !in table.values
    ensures var (text, next) := ListingLine(table, program, address, byte);
      next == address + 1 && |text| >= 15 &&
      HexDec(text[..|text| - 11]) == address && text[|text| - 11..|text| - 2] == ": .BYTE $" &&
      HexDec(text[|text| - 2..]) == byte
  {
    HexPadByte(byte);
    var h := HexPad(address, 4);
    var text := h + ": .BYTE $" + Hex2(byte);
    assert ListingLine(table, program, address, byte) == (text, address + 1);
    assert text[..|text| - 11] == h;
    assert text[|text| - 11..|text| - 2] == ": .BYTE $";
    assert text[|text| - 2..] == Hex2(byte);
  }

  /** The disassembler and the CPU read a branch operand the same way: the
      offset printed after `*` is the displacement the CPU adds. */
  lemma RelativeListing(b: Byte)
    ensures var text := FormatOperand(Relative, [b]);
      var d := FC.Displacement(b);
      text[0] == '*' && (text[1] == '+' <==> d >= 0) &&
      (forall i :: 2 <= i < |text| ==> IsDigit(text[i])) &&
      IntVal(text[2..]) == (if d >= 0 then d else -d)
  {
    var d := FC.Displacement(b);
    var s := SignedDecimal(if b > 127 then b - 256 else b);
    assert d == if b > 127 then b - 256 else b;
    var text := "*" + s;
    assert text[1..] == s;
    assert text[2..] == s[1..];
  }

  /** `$` and hexadecimal digits: zero page when the value fits in a byte,
      absolute otherwise, and read back as the value. */
  lemma DollarForm(h: string, mnemonic: string, address: nat, mode: Mode, line: int)
    requires AllHex(h)
    ensures AddressingMode("$" + h, mnemonic) == if HexDec(h) <= 0xFF then ZeroPage else Absolute
    ensures ParseOperand(address, "$" + h, mode, line) == Ok(Parsed(HexDec(h), None))
  {
    var t := "$" + h;
    assert t[1..] == h;
    assert TrimLeft(h, {'$'}) == h;
    assert TrimLeft(t, {'$'}) == h;
    assert t[|t| - 1] == h[|h| - 1];
    assert !IsIdentifier(t);
  }

  /** `#$` and hexadecimal digits: immediate, read back as the value. */
  lemma ImmediateForm(h: string, mnemonic: string, address: nat, mode: Mode, line: int)
    requires AllHex(h)
    ensures AddressingMode("#$" + h, mnemonic) == Immediate
    ensures ParseOperand(address, "#$" + h, mode, line) == Ok(Parsed(HexDec(h), None))
  {
    var t := "#$" + h;
    assert t[1..] == "$" + h && t[2..] == h;
    assert ("$" + h)[1..] == h;
  }

  /** `$` and hexadecimal digits then `,X` or `,Y`: indexed zero page when the
      value fits in a byte, indexed absolute otherwise, and read back as the
      value. */
  lemma IndexedForm(h: string, index: char, mnemonic: string, address: nat, mode: Mode, line: int)
    requires AllHex(h) && (index == 'X' || index == 'Y')
    ensures var t := "$" + h + [',', index];
      AddressingMode(t, mnemonic) ==
        (if index == 'X' then (if HexDec(h) <= 0xFF then XIndexedZeroPage else XIndexedAbsolute)
         else (if HexDec(h) <= 0xFF then YIndexedZeroPage else YIndexedAbsolute)) &&
      ParseOperand(address, t, mode, line) == Ok(Parsed(HexDec(h), None))
  {
    var d := "$" + h;
    var t := d + [',', index];
    DollarForm(h, mnemonic, address, mode, line);
    assert t[..|t| - 2] == d;
    assert t[|t| - 2] == ',' && t[|t| - 1] == index;
    assert t[1..][|t| - 3] == ',';
    assert t[0] == '$';
  }

  /** `($` and hexadecimal digits then `)`: absolute indirect, read back as
      the value. */
  lemma IndirectForm(h: string, mnemonic: string, address: nat, mode: Mode, line: int)
    requires AllHex(h)
    ensures AddressingMode("($" + h + ")", mnemonic) == AbsoluteIndirect
    ensures ParseOperand(address, "($" + h + ")", mode, line) == Ok(Parsed(HexDec(h), None))
  {
    IndirectMode(h, mnemonic);
    var d := "$" + h;
    var t := "(" + d + ")";
    DollarForm(h, mnemonic, address, mode, line);
    assert t[1..|t| - 1] == d;
    assert t[|t| - 2] == h[|h| - 1];
  }

  lemma IndirectMode(h: string, mnemonic: string)
    requires AllHex(h)
    ensures AddressingMode("($" + h + ")", mnemonic) == AbsoluteIndirect
  {
    var d := "$" + h;
    var t := "(" + d + ")";
    assert forall i :: 1 <= i < |t| - 1 ==> t[i] == d[i - 1];
  }

  /** `($` and hexadecimal digits then `,X)`: zero-page indexed indirect,
      read back as the value. */
  lemma IndexedIndirectForm(h: string, mnemonic: string, address: nat, mode: Mode, line: int)
    requires AllHex(h)
    ensures AddressingMode("($" + h + ",X)", mnemonic) == XIndexedZeroPageIndirect
    ensures ParseOperand(address, "($" + h + ",X)", mode, line) == Ok(Parsed(HexDec(h), None))
  {
    IndexedIndirectMode(h, mnemonic);
    var d := "$" + h;
    var t := "(" + d + ",X)";
    IndexedForm(h, 'X', mnemonic, address, mode, line);
    assert t[1..|t| - 1] == d + [',', 'X'] == "$" + h + [',', 'X'];
    assert !IsDigit(t[0]) && t[|t| - 1] == ')';
    assert !EndsIndexed(t, 'X', 'x') && !EndsIndexed(t, 'Y', 'y');
    assert t == "($" + h + ",X)" && t[0] == '(';
    assert ParseOperand(address, t, mode, line) == ParseOperand(address, "$" + h + [',', 'X'], mode, line);
  }

  lemma IndexedIndirectMode(h: string, mnemonic: string)
    requires AllHex(h)
    ensures AddressingMode("($" + h + ",X)", mnemonic) == XIndexedZeroPageIndirect
  {
    var d := "$" + h;
    var t := "(" + d + ",X)";
    var u := t[..|t| - 1];
    assert t[|t| - 3] == ',';
    assert u == "(" + d + ",X";
    assert u[|u| - 2] == ',' && u[|u| - 1] == 'X';
    assert t[0] == '(' && t[|t| - 1] == ')';
    assert t[1..|t| - 3] == d;
    assert d[1..] == h;
    assert t == "($" + h + ",X)";
  }

  /** `($` and hexadecimal digits then `),Y`: zero-page indirect indexed,
      read back as the value. */
  lemma IndirectIndexedForm(h: string, mnemonic: string, address: nat, mode: Mode, line: int)
    requires AllHex(h)
    ensures AddressingMode("($" + h + "),Y", mnemonic) == ZeroPageIndirectYIndexed
    ensures ParseOperand(address, "($" + h + "),Y", mode, line) == Ok(Parsed(HexDec(h), None))
  {
    IndirectIndexedMode(h, mnemonic);
    var d := "$" + h;
    var t := "(" + d + "),Y";
    IndirectForm(h, mnemonic, address, mode, line);
    assert t[..|t| - 2] == "(" + d + ")";
    assert t[|t| - 2] == ',' && t[|t| - 1] == 'Y';
    assert "(" + d + ")" == "($" + h + ")";
    assert !IsDigit(t[0]);
  }

  lemma IndirectIndexedMode(h: string, mnemonic: string)
    requires AllHex(h)
    ensures AddressingMode("($" + h + "),Y", mnemonic) == ZeroPageIndirectYIndexed
  {
    var d := "$" + h;
    var t := "(" + d + "),Y";
    assert t[1..|t| - 3] == d;
    assert d[1..] == h;
    assert t[|t| - 2] == ',' && t[|t| - 1] == 'Y';
    assert t[1..][|t| - 3] == ',';
  }

  /** The modes whose operand the disassembler prints in the assembler's
      own syntax. */
  predicate Printable(mode: Mode)
  {
    mode == Immediate || mode == ZeroPage || mode == XIndexedZeroPage || mode == YIndexedZeroPage ||
    mode == XIndexedZeroPageIndirect || mode == ZeroPageIndirectYIndexed ||
    mode == Absolute || mode == XIndexedAbsolute || mode == YIndexedAbsolute || mode == AbsoluteIndirect
  }

  /** The operand value the disassembler prints for a mode: the address
      formed from two bytes, low byte first, or the one byte. */
  function OperandValue(mode: Mode, bytes: seq<nat>): nat
  {
    if NamesAbsolute(mode) then At(bytes, 0) + 256 * At(bytes, 1) else At(bytes, 0)
  }

  /** Disassembling then assembling an operand is the identity: the text
      `formatOperand` prints for a mode is classified back into that mode and
      parsed back to the same value. The only exception is an absolute
      address below 0x100, which is read back as zero page. */
  lemma OperandRoundTrip(mode: Mode, bytes: seq<nat>, mnemonic: string, address: nat, line: int)
    requires Printable(mode) && forall i :: 0 <= i < |bytes| ==> bytes[i] < 256
    requires mode == Absolute || mode == XIndexedAbsolute || mode == YIndexedAbsolute ==> OperandValue(mode, bytes) >= 0x100
    ensures AddressingMode(FormatOperand(mode, bytes), mnemonic) == mode
    ensures ParseOperand(address, FormatOperand(mode, bytes), mode, line) == Ok(Parsed(OperandValue(mode, bytes), None))
  {
    OperandDigitsValue(mode, bytes);
    FramedOperand(mode, OperandDigits(mode, bytes), mnemonic, address, line);
  }

  /** The digits `formatOperand` prints are hexadecimal and read back as
      the operand value. */
  lemma OperandDigitsValue(mode: Mode, bytes: seq<nat>)
    requires At(bytes, 0) < 256
    ensures var h := OperandDigits(mode, bytes); AllHex(h) && HexDec(h) == OperandValue(mode, bytes)
  {
    if NamesAbsolute(mode) {
      OrHighByte(At(bytes, 0), At(bytes, 1));
    }
  }

  /** The digits `h` in the frame of a printable mode are classified back
      into that mode, provided their value fits it, and read back as their
      value. */
  lemma FramedOperand(mode: Mode, h: string, mnemonic: string, address: nat, line: int)
    requires Printable(mode) && AllHex(h)
    requires mode == Absolute || mode == XIndexedAbsolute || mode == YIndexedAbsolute ==> HexDec(h) >= 0x100
    requires mode == ZeroPage || mode == XIndexedZeroPage || mode == YIndexedZeroPage ==> HexDec(h) <= 0xFF
    ensures AddressingMode(Frame(mode, h), mnemonic) == mode
    ensures ParseOperand(address, Frame(mode, h), mode, line) == Ok(Parsed(HexDec(h), None))
  {
    match mode
    case Immediate => ImmediateForm(h, mnemonic, address, mode, line);
    case ZeroPage => DollarForm(h, mnemonic, address, mode, line);
    case Absolute => DollarForm(h, mnemonic, address, mode, line);
    case XIndexedZeroPage => IndexedForm(h, 'X', mnemonic, address, mode, line);
    case YIndexedZeroPage => IndexedForm(h, 'Y', mnemonic, address, mode, line);
    case XIndexedAbsolute => IndexedForm(h, 'X', mnemonic, address, mode, line);
    case YIndexedAbsolute => IndexedForm(h, 'Y', mnemonic, address, mode, line);
    case AbsoluteIndirect => IndirectForm(h, mnemonic, address, mode, line);
    case XIndexedZeroPageIndirect => IndexedIndirectForm(h, mnemonic, address, mode, line);
    case ZeroPageIndirectYIndexed => IndirectIndexedForm(h, mnemonic, address, mode, line);
  }
}

/** Opcode records and the instruction registry that indexes them by their
    opcode text ("0xA9" and the like). */
module Opcodes {
  import opened Wrappers
  import opened OrderedMaps

  /** The thirteen addressing modes plus a catch-all for mode text the table
      may hold that names none of them. */
  datatype Mode =
    | Implied | Accumulator | Immediate
    | Absolute | XIndexedAbsolute | YIndexedAbsolute | AbsoluteIndirect
    | ZeroPage | XIndexedZeroPage | YIndexedZeroPage
    | XIndexedZeroPageIndirect | ZeroPageIndirectYIndexed
    | Relative | Unknown

  /** The text of each mode as the opcode table and the assembler spell it. */
  function ModeName(m: Mode): string
  {
    match m
    case Implied => "Implied"
    case Accumulator => "Accumulator"
    case Immediate => "Immediate"
    case Absolute => "Absolute"
    case XIndexedAbsolute => "X-Indexed Absolute"
    case YIndexedAbsolute => "Y-Indexed Absolute"
    case AbsoluteIndirect => "Absolute Indirect"
    case ZeroPage => "Zero Page"
    case XIndexedZeroPage => "X-Indexed Zero Page"
    case YIndexedZeroPage => "Y-Indexed Zero Page"
    case XIndexedZeroPageIndirect => "X-Indexed Zero Page Indirect"
    case ZeroPageIndirectYIndexed => "Zero Page Indirect Y-Indexed"
    case Relative => "Relative"
    case Unknown => "Unknown"
  }

  /** The eight conditional branch mnemonics. */
  const BRANCHES: set<string> := {"BEQ", "BNE", "BCC", "BCS", "BPL", "BMI", "BVC", "BVS"}

  /** One record of the opcode table. */
  datatype Opcode = Opcode(opcode: string, mnemonic: string, mode: Mode, bytes: int, cycles: int)

  /** The decoded table file: its "OPCODES" list, when the key is present. */
  datatype OpcodeFile = OpcodeFile(opcodes: Option<seq<Opcode>>)

  type Table = OMap<string, Opcode>

  /** The registry built from a list of records: each record is stored under
      its opcode text, so a later record with the same text replaces an
      earlier one (at the earlier one's position). */
  function Indexed(t: Table, records: seq<Opcode>): (r: Table)
    requires Wf(t)
    ensures Wf(r)
    decreases |records|
  {
    if records == [] then t else Indexed(Put(t, records[0].opcode, records[0]), records[1..])
  }

  /** Every record's opcode text is a key of the registry, and the record
      stored under it is the last one with that text. */
  lemma {:induction false} LastRecordWins(t: Table, records: seq<Opcode>, i: nat)
    requires Wf(t) && i < |records|
    requires forall j :: i < j < |records| ==> records[j].opcode != records[i].opcode
    ensures records[i].opcode in Indexed(t, records).values
    ensures Indexed(t, records).values[records[i].opcode] == records[i]
    decreases |records|
  {
    var next := Put(t, records[0].opcode, records[0]);
    if i == 0 {
      forall j | 0 <= j < |records[1..]| ensures records[1..][j].opcode != records[0].opcode {
        assert records[1..][j] == records[j + 1];
      }
      Unmentioned(next, records[1..], records[0].opcode);
    } else {
      forall j | i - 1 < j < |records[1..]| ensures records[1..][j].opcode != records[1..][i - 1].opcode {
        assert records[1..][j] == records[j + 1];
      }
      LastRecordWins(next, records[1..], i - 1);
    }
  }

  /** A key no later record mentions keeps its value. */
  lemma {:induction false} Unmentioned(t: Table, records: seq<Opcode>, k: string)
    requires Wf(t)
    requires forall j :: 0 <= j < |records| ==> records[j].opcode != k
    ensures k in Indexed(t, records).values <==> k in t.values
    ensures k in t.values ==> Indexed(t, records).values[k] == t.values[k]
    decreases |records|
  {
    if records != [] {
      forall j | 0 <= j < |records[1..]| ensures records[1..][j].opcode != k {
        assert records[1..][j] == records[j + 1];
      }
      Unmentioned(Put(t, records[0].opcode, records[0]), records[1..], k);
    }
  }

  /** `findOpcodesByMnemonic`: the records with a mnemonic, in table order. */
  function WithMnemonic(t: Table, keys: seq<string>, mnemonic: string): (r: seq<Opcode>)
    requires forall k :: k in keys ==> k in t.values
    ensures forall o :: o in r <==> (exists k :: k in keys && t.values[k] == o && o.mnemonic == mnemonic)
    decreases |keys|
  {
    if keys == [] then []
    else
      var rest := WithMnemonic(t, keys[1..], mnemonic);
      assert forall k :: k in keys <==> k == keys[0] || k in keys[1..];
      if t.values[keys[0]].mnemonic == mnemonic then [t.values[keys[0]]] + rest else rest
  }

  /** The first record, taking the keys in order, with this mnemonic and
      addressing mode. */
  function FirstMatch(t: Table, keys: seq<string>, mnemonic: string, mode: Mode): (r: Option<Opcode>)
    requires forall k :: k in keys ==> k in t.values
    decreases |keys|
  {
    if keys == [] then None
    else if t.values[keys[0]].mnemonic == mnemonic && t.values[keys[0]].mode == mode then Some(t.values[keys[0]])
    else FirstMatch(t, keys[1..], mnemonic, mode)
  }

  /** `FirstMatch` finds nothing exactly when no record matches, and what it
      finds matches and comes before every other match. */
  lemma {:induction false} FirstMatchIsFirst(t: Table, keys: seq<string>, mnemonic: string, mode: Mode)
    requires forall k :: k in keys ==> k in t.values
    ensures var r := FirstMatch(t, keys, mnemonic, mode);
      (r.None? <==> forall i :: 0 <= i < |keys| ==>
        !(t.values[keys[i]].mnemonic == mnemonic && t.values[keys[i]].mode == mode)) &&
      (r.Some? ==> exists i :: (0 <= i < |keys| && r.value == t.values[keys[i]] &&
        r.value.mnemonic == mnemonic && r.value.mode == mode &&
        forall j :: 0 <= j < i ==> !(t.values[keys[j]].mnemonic == mnemonic && t.values[keys[j]].mode == mode)))
    decreases |keys|
  {
    if keys != [] {
      var o := t.values[keys[0]];
      if !(o.mnemonic == mnemonic && o.mode == mode) {
        FirstMatchIsFirst(t, keys[1..], mnemonic, mode);
        var r := FirstMatch(t, keys, mnemonic, mode);
        if r.Some? {
          var i :| 0 <= i < |keys[1..]| && r.value == t.values[keys[1..][i]] &&
            r.value.mnemonic == mnemonic && r.value.mode == mode &&
            forall j :: 0 <= j < i ==> !(t.values[keys[1..][j]].mnemonic == mnemonic && t.values[keys[1..][j]].mode == mode);
          assert keys[i + 1] == keys[1..][i];
          forall j | 0 <= j < i + 1
            ensures !(t.values[keys[j]].mnemonic == mnemonic && t.values[keys[j]].mode == mode)
          {
            if j > 0 {
              assert keys[j] == keys[1..][j - 1];
            }
          }
        } else {
          forall i | 0 <= i < |keys|
            ensures !(t.values[keys[i]].mnemonic == mnemonic && t.values[keys[i]].mode == mode)
          {
            if i > 0 {
              assert keys[i] == keys[1..][i - 1];
            }
          }
        }
      }
    }
  }

  class InstructionRegistry {
    var table: Table

    ghost predicate Valid()
      reads this
    {
      Wf(table)
    }

    constructor()
      ensures Valid() && table == Empty()
    {
      table := Empty();
    }

    /** Fills the registry from the decoded table file; a file without an
        "OPCODES" list is refused and the registry is left as it was. */
    method LoadOpcodes(file: OpcodeFile) returns (error: Option<string>)
      requires Valid()
      modifies this
      ensures Valid()
      ensures error.Some? <==> file.opcodes.None?
      ensures file.opcodes.None? ==> table == old(table)
      ensures file.opcodes.Some? ==> table == Indexed(old(table), file.opcodes.value)
    {
      if file.opcodes.None? {
        return Some("Invalid opcode JSON structure");
      }
      var records := file.opcodes.value;
      for i := 0 to |records|
        invariant Wf(table)
        invariant Indexed(table, records[i..]) == Indexed(old(table), records)
      {
        assert records[i..][1..] == records[i + 1..];
        table := Put(table, records[i].opcode, records[i]);
      }
      error := None;
    }

    /** `getOpcode`: the record stored under an opcode text, or nothing. */
    function GetOpcode(opcode: string): (r: Option<Opcode>)
      reads this
      ensures r.Some? <==> opcode in table.values
      ensures r.Some? ==> r.value == table.values[opcode]
    {
      if opcode in table.values then Some(table.values[opcode]) else None
    }

    function FindOpcodesByMnemonic(mnemonic: string): (r: seq<Opcode>)
      requires Valid()
      reads this
      ensures forall o :: o in r <==> o in table.values.Values && o.mnemonic == mnemonic
    {
      WithMnemonic(table, table.keys, mnemonic)
    }

    /** `findOpcode`: the first record, in table order, with this mnemonic
        and addressing mode; nothing when there is none. */
    method FindOpcode(mnemonic: string, mode: Mode) returns (r: Option<Opcode>)
      requires Valid()
      ensures r.None? <==> forall k :: k in table.values ==>
        !(table.values[k].mnemonic == mnemonic && table.values[k].mode == mode)
      ensures r.Some? ==> exists i :: (0 <= i < |table.keys| &&
        r.value == table.values[table.keys[i]] &&
        r.value.mnemonic == mnemonic && r.value.mode == mode &&
        forall j :: 0 <= j < i ==>
          !(table.values[table.keys[j]].mnemonic == mnemonic && table.values[table.keys[j]].mode == mode))
      ensures r == FirstMatch(table, table.keys, mnemonic, mode)
    {
      var i := 0;
      while i < |table.keys|
        invariant 0 <= i <= |table.keys|
        invariant forall j :: 0 <= j < i ==>
          !(table.values[table.keys[j]].mnemonic == mnemonic && table.values[table.keys[j]].mode == mode)
        invariant FirstMatch(table, table.keys[i..], mnemonic, mode) == FirstMatch(table, table.keys, mnemonic, mode)
      {
        assert table.keys[i..][1..] == table.keys[i + 1..];
        var o := table.values[table.keys[i]];
        if o.mnemonic == mnemonic && o.mode == mode {
          return Some(o);
        }
        i := i + 1;
      }
      forall k | k in table.values
        ensures !(table.values[k].mnemonic == mnemonic && table.values[k].mode == mode)
      {
        var j :| 0 <= j < |table.keys| && table.keys[j] == k;
      }
      return None;
    }
  }
}

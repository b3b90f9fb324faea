/** The 64 KiB address space: a sparse map from address to byte where a cell
    never written reads as 0. A memory may carry a bus monitor, in which case
    every byte read and write is also logged (the monitored variant). */
module Mem {
  import opened Bits
  import opened Monitor

  const STACK_START := 0x0100

  type Cells = map<int, Byte>

  /** `readByte`: the address is cut to 16 bits; an unwritten cell reads 0. */
  function Get(cells: Cells, addr: int): Byte
  {
    if Lo16(addr) in cells then cells[Lo16(addr)] else 0
  }

  /** `writeByte`: both the address and the value are cut to size. */
  function Put(cells: Cells, addr: int, value: int): Cells
  {
    cells[Lo16(addr) := Lo8(value)]
  }

  /** `readWord`: little-endian, the high byte at the next address (which
      wraps from 0xFFFF to 0x0000). */
  function GetWord(cells: Cells, addr: int): Word
  {
    Get(cells, addr + 1) * 256 + Get(cells, addr)
  }

  /** `writeWord`: the low byte first, then the high byte. */
  function PutWord(cells: Cells, addr: int, value: int): Cells
  {
    Put(Put(cells, addr, Lo8(value)), addr + 1, HighByte(value))
  }

  /** `initialize`: the ROM's (address, value) pairs are stored in array
      order, each value cut to 8 bits at its address as given. */
  function Loaded(cells: Cells, rom: seq<(int, int)>): Cells
    decreases |rom|
  {
    if rom == [] then cells
    else Loaded(cells[rom[0].0 := Lo8(rom[0].1)], rom[1..])
  }

  /** An address the ROM does not mention keeps its old contents. */
  lemma {:induction false} LoadedUntouched(cells: Cells, rom: seq<(int, int)>, k: int)
    requires forall i :: 0 <= i < |rom| ==> rom[i].0 != k
    ensures k in Loaded(cells, rom) <==> k in cells
    ensures k in cells ==> Loaded(cells, rom)[k] == cells[k]
    decreases |rom|
  {
    if rom != [] {
      assert forall i :: 0 <= i < |rom[1..]| ==> rom[1..][i].0 == rom[i + 1].0;
      LoadedUntouched(cells[rom[0].0 := Lo8(rom[0].1)], rom[1..], k);
    }
  }

  /** The last pair given for an address decides its byte. */
  lemma {:induction false} LoadedLastWins(cells: Cells, rom: seq<(int, int)>, i: nat)
    requires i < |rom|
    requires forall j :: i < j < |rom| ==> rom[j].0 != rom[i].0
    ensures rom[i].0 in Loaded(cells, rom) && Loaded(cells, rom)[rom[i].0] == Lo8(rom[i].1)
    decreases |rom|
  {
    assert forall j :: 0 <= j < |rom[1..]| ==> rom[1..][j].0 == rom[j + 1].0;
    var next := cells[rom[0].0 := Lo8(rom[0].1)];
    if i == 0 {
      LoadedUntouched(next, rom[1..], rom[0].0);
    } else {
      assert rom[1..][i - 1] == rom[i];
      LoadedLastWins(next, rom[1..], i - 1);
    }
  }

  /** A read after a write sees the written byte at that address and the
      old contents everywhere else. */
  lemma ReadAfterWrite(cells: Cells, addr: int, value: int, other: int)
    ensures Get(Put(cells, addr, value), addr) == Lo8(value)
    ensures Lo16(other) != Lo16(addr) ==> Get(Put(cells, addr, value), other) == Get(cells, other)
  {
  }

  /** Writing a word and reading it back at the same address gives the word
      cut to 16 bits, including at the top of memory where the high byte
      wraps to address 0. */
  lemma {:induction false} WordRoundTrip(cells: Cells, addr: int, value: int)
    ensures GetWord(PutWord(cells, addr, value), addr) == Lo16(value)
  {
    var c1 := Put(cells, addr, Lo8(value));
    var c2 := Put(c1, addr + 1, HighByte(value));
    assert Lo16(addr + 1) != Lo16(addr);
    assert Get(c2, addr + 1) == HighByte(value);
    assert Get(c2, addr) == Get(c1, addr) == Lo8(value);
    WordSplit(value);
  }

  /** One access made through the memory interface. */
  datatype Access = ReadAccess(address: int) | WriteAccess(address: int, value: int)

  /** The contents after a sequence of accesses. */
  function Run(cells: Cells, ops: seq<Access>): Cells
    decreases |ops|
  {
    if ops == [] then cells
    else match ops[0]
      case ReadAccess(_) => Run(cells, ops[1..])
      case WriteAccess(a, v) => Run(Put(cells, a, v), ops[1..])
  }

  /** The entries a monitored memory appends for a sequence of accesses made
      while the monitor's cycle counter stands at `cycle`. */
  function Log(cells: Cells, cycle: int, ops: seq<Access>): seq<Entry>
    decreases |ops|
  {
    if ops == [] then []
    else match ops[0]
      case ReadAccess(a) => [Entry(cycle, Lo16(a), Get(cells, a), "R")] + Log(cells, cycle, ops[1..])
      case WriteAccess(a, v) => [Entry(cycle, Lo16(a), Lo8(v), "W")] + Log(Put(cells, a, v), cycle, ops[1..])
  }

  /** Applies the write entries of a log to a memory image. */
  function Replay(cells: Cells, log: seq<Entry>): Cells
    decreases |log|
  {
    if log == [] then cells
    else if log[0].operation == "W" then Replay(Put(cells, log[0].address, log[0].data), log[1..])
    else Replay(cells, log[1..])
  }

  /** The monitor only observes: replaying the writes it logged onto the
      starting image reproduces exactly the contents the accesses left. */
  lemma {:induction false} ReplayReproducesMemory(cells: Cells, cycle: int, ops: seq<Access>)
    ensures Replay(cells, Log(cells, cycle, ops)) == Run(cells, ops)
    decreases |ops|
  {
    if ops != [] {
      var log := Log(cells, cycle, ops);
      match ops[0]
      case ReadAccess(a) =>
        assert log[1..] == Log(cells, cycle, ops[1..]);
        ReplayReproducesMemory(cells, cycle, ops[1..]);
      case WriteAccess(a, v) =>
        assert log[1..] == Log(Put(cells, a, v), cycle, ops[1..]);
        assert Put(cells, log[0].address, log[0].data) == Put(cells, a, v);
        ReplayReproducesMemory(Put(cells, a, v), cycle, ops[1..]);
    }
  }

  /** Every read entry of the log reports the byte an unmonitored memory
      returns for that access. */
  lemma {:induction false} LoggedReadsAreValues(cells: Cells, cycle: int, ops: seq<Access>, i: nat)
    requires i < |ops| && ops[i].ReadAccess?
    ensures |Log(cells, cycle, ops)| == |ops|
    ensures Log(cells, cycle, ops)[i] == Entry(cycle, Lo16(ops[i].address), Get(Run(cells, ops[..i]), ops[i].address), "R")
    decreases |ops|
  {
    if i == 0 {
      LogLength(cells, cycle, ops);
    } else {
      assert ops[1..][..i - 1] == ops[..i][1..];
      match ops[0]
      case ReadAccess(a) =>
        LoggedReadsAreValues(cells, cycle, ops[1..], i - 1);
      case WriteAccess(a, v) =>
        LoggedReadsAreValues(Put(cells, a, v), cycle, ops[1..], i - 1);
    }
  }

  lemma {:induction false} LogLength(cells: Cells, cycle: int, ops: seq<Access>)
    ensures |Log(cells, cycle, ops)| == |ops|
    decreases |ops|
  {
    if ops != [] {
      match ops[0]
      case ReadAccess(a) => LogLength(cells, cycle, ops[1..]);
      case WriteAccess(a, v) => LogLength(Put(cells, a, v), cycle, ops[1..]);
    }
  }

  class Memory {
    var cells: Cells
    /** The monitor of the monitored variant; `null` for plain memory. */
    const monitor: BusMonitor?

    ghost predicate Valid()
      reads this, monitor
    {
      monitor != null ==> monitor.Valid()
    }

    constructor(monitor: BusMonitor?)
      requires monitor != null ==> monitor.Valid()
      ensures Valid()
      ensures this.monitor == monitor && cells == map[]
    {
      this.monitor := monitor;
      cells := map[];
    }

    /** Loads ROM bytes directly, without logging and without cutting the
        address to 16 bits. The ROM is the PHP array as its list of
        (address, value) pairs in iteration order. */
    method Initialize(rom: seq<(int, int)>)
      modifies this
      ensures cells == Loaded(old(cells), rom)
    {
      for i := 0 to |rom|
        invariant Loaded(cells, rom[i..]) == Loaded(old(cells), rom)
      {
        assert rom[i..][1..] == rom[i + 1..];
        cells := cells[rom[i].0 := Lo8(rom[i].1)];
      }
    }

    method ReadByte(addr: int) returns (v: Byte)
      requires Valid()
      modifies monitor
      ensures Valid()
      ensures v == Get(cells, addr)
      ensures monitor != null ==>
        monitor.busActivity == old(monitor.busActivity) + [Entry(monitor.cycleCount, Lo16(addr), v, "R")] &&
        monitor.cycleCount == old(monitor.cycleCount)
    {
      v := Get(cells, addr);
      if monitor != null {
        monitor.LogBusOperation(addr, v, "R");
      }
    }

    method WriteByte(addr: int, value: int)
      requires Valid()
      modifies this, monitor
      ensures Valid()
      ensures cells == Put(old(cells), addr, value)
      ensures monitor != null ==>
        monitor.busActivity == old(monitor.busActivity) + [Entry(monitor.cycleCount, Lo16(addr), Lo8(value), "W")] &&
        monitor.cycleCount == old(monitor.cycleCount)
    {
      cells := Put(cells, addr, value);
      if monitor != null {
        monitor.LogBusOperation(addr, value, "W");
      }
    }

    /** Reads the low byte, then the high byte. (Plain memory evaluates the
        high byte first; without a monitor the order cannot be observed.) */
    method ReadWord(addr: int) returns (w: Word)
      requires Valid()
      modifies monitor
      ensures Valid()
      ensures w == GetWord(cells, addr)
      ensures monitor != null ==>
        monitor.busActivity == old(monitor.busActivity) + [
          Entry(monitor.cycleCount, Lo16(addr), Get(cells, addr), "R"),
          Entry(monitor.cycleCount, Lo16(addr + 1), Get(cells, addr + 1), "R")] &&
        monitor.cycleCount == old(monitor.cycleCount)
    {
      var low := ReadByte(addr);
      var high := ReadByte(addr + 1);
      w := (high as int) * 256 + low;
    }

    method WriteWord(addr: int, value: int)
      requires Valid()
      modifies this, monitor
      ensures Valid()
      ensures cells == PutWord(old(cells), addr, value)
      ensures monitor != null ==>
        monitor.busActivity == old(monitor.busActivity) + [
          Entry(monitor.cycleCount, Lo16(addr), Lo8(value), "W"),
          Entry(monitor.cycleCount, Lo16(addr + 1), HighByte(value), "W")] &&
        monitor.cycleCount == old(monitor.cycleCount)
    {
      WriteByte(addr, Lo8(value));
      WriteByte(addr + 1, HighByte(value));
    }

    /** `push($value, &$sp)`: writes at 0x0100 + sp, then decrements the
        caller's stack pointer (which is not wrapped). */
    method Push(value: int, sp: int) returns (sp': int)
      requires Valid()
      modifies this, monitor
      ensures Valid()
      ensures cells == Put(old(cells), STACK_START + sp, value)
      ensures sp' == sp - 1
      ensures Get(cells, STACK_START + sp' + 1) == Lo8(value)
      ensures monitor != null ==>
        monitor.busActivity == old(monitor.busActivity) + [Entry(monitor.cycleCount, Lo16(STACK_START + sp), Lo8(value), "W")] &&
        monitor.cycleCount == old(monitor.cycleCount)
    {
      WriteByte(STACK_START + sp, value);
      sp' := sp - 1;
    }

    /** `pop(&$sp)`: increments the caller's stack pointer, then reads at
        0x0100 + sp. */
    method Pop(sp: int) returns (v: Byte, sp': int)
      requires Valid()
      modifies monitor
      ensures Valid()
      ensures sp' == sp + 1
      ensures v == Get(cells, STACK_START + sp')
      ensures monitor != null ==>
        monitor.busActivity == old(monitor.busActivity) + [Entry(monitor.cycleCount, Lo16(STACK_START + sp'), v, "R")] &&
        monitor.cycleCount == old(monitor.cycleCount)
    {
      sp' := sp + 1;
      v := ReadByte(STACK_START + sp');
    }
  }
}

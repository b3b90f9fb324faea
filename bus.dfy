/** The system bus: memory plus an ordered list of memory-mapped
    peripherals. The first peripheral that claims an address serves it;
    an address no peripheral claims goes to memory. */
module Bus {
  import opened Bits
  import opened Mem
  import opened Monitor
  import Display
  import Sound

  /** A peripheral as the bus sees it: its state, by value. */
  datatype Peripheral =
    | TextDisplay(display: Display.DisplayState)
    | SoundController(sound: Sound.Channels)

  predicate Handles(p: Peripheral, address: int)
  {
    match p
    case TextDisplay(_) => Display.HandlesAddress(address)
    case SoundController(_) => Sound.HandlesAddress(address)
  }

  function PRead(p: Peripheral, address: int): Byte
  {
    match p
    case TextDisplay(d) => Display.ReadAt(d, address)
    case SoundController(s) => Sound.ReadAt(s, address)
  }

  /** A write changes a peripheral's state, never which addresses it claims. */
  function PWrite(p: Peripheral, address: int, value: int): (r: Peripheral)
    ensures forall a :: Handles(r, a) == Handles(p, a)
  {
    match p
    case TextDisplay(d) => TextDisplay(Display.Written(d, address, value))
    case SoundController(s) => SoundController(Sound.Written(s, address, value))
  }

  function PTick(p: Peripheral): (r: Peripheral)
    ensures forall a :: Handles(r, a) == Handles(p, a)
  {
    match p
    case TextDisplay(d) => TextDisplay(Display.Ticked(d))
    case SoundController(s) => p
  }

  /** The index of the first peripheral that claims `address`, or the
      number of peripherals when none does. */
  function Claimant(devices: seq<Peripheral>, address: int): (i: nat)
    ensures i <= |devices|
    ensures i < |devices| ==> Handles(devices[i], address)
    ensures forall j :: 0 <= j < i ==> !Handles(devices[j], address)
    decreases |devices|
  {
    if devices == [] then 0
    else if Handles(devices[0], address) then 0
    else 1 + Claimant(devices[1..], address)
  }

  /** What the bus holds: memory contents and peripheral states. */
  datatype BusState = BusState(cells: Cells, devices: seq<Peripheral>)

  /** `read`: the address is cut to 16 bits, then served by the first
      claiming peripheral or else by memory. No peripheral claims an
      address outside 0xC000..0xC40F, so those go to memory at once
      (`ReadDispatch` shows this is the same as asking each in turn). */
  function Peek(s: BusState, address: int): Byte
  {
    var a := Lo16(address);
    if Unmapped(a) then Get(s.cells, a) else
    var i := Claimant(s.devices, a);
    if i < |s.devices| then PRead(s.devices[i], a) else Get(s.cells, a)
  }

  /** `write`: address and value are cut to size; the first claiming
      peripheral takes the write, otherwise memory does (again with the
      unmapped range sent to memory at once; see `WriteDispatch`). */
  function Poke(s: BusState, address: int, value: int): BusState
  {
    var a := Lo16(address);
    if Unmapped(a) then s.(cells := Put(s.cells, a, Lo8(value))) else
    var i := Claimant(s.devices, a);
    if i < |s.devices| then s.(devices := s.devices[i := PWrite(s.devices[i], a, Lo8(value))])
    else s.(cells := Put(s.cells, a, Lo8(value)))
  }

  /** `tick`: every peripheral once, in registration order. A display
      counts the tick, a sound controller stays as it was, and no
      peripheral changes the addresses it claims. */
  function TickAll(devices: seq<Peripheral>): (r: seq<Peripheral>)
    ensures |r| == |devices|
    ensures forall i, a :: 0 <= i < |devices| ==> Handles(r[i], a) == Handles(devices[i], a)
    ensures forall i :: 0 <= i < |devices| && devices[i].TextDisplay? ==>
      r[i] == TextDisplay(Display.Ticked(devices[i].display))
    ensures forall i :: 0 <= i < |devices| && devices[i].SoundController? ==> r[i] == devices[i]
  {
    seq(|devices|, i requires 0 <= i < |devices| => PTick(devices[i]))
  }

  /** A tick of the whole bus leaves every address with the same first
      claimant, so reads and writes are routed as before. */
  lemma TickAllKeepsClaimant(devices: seq<Peripheral>, address: int)
    ensures Claimant(TickAll(devices), address) == Claimant(devices, address)
  {
    SameClaims(devices, TickAll(devices), address);
  }

  /** A write never changes which peripheral claims an address. */
  lemma {:induction false} ClaimsStable(s: BusState, address: int, value: int, b: int)
    ensures |Poke(s, address, value).devices| == |s.devices|
    ensures Claimant(Poke(s, address, value).devices, b) == Claimant(s.devices, b)
  {
    var t := Poke(s, address, value).devices;
    SameClaims(s.devices, t, b);
  }

  lemma {:induction false} SameClaims(d: seq<Peripheral>, e: seq<Peripheral>, b: int)
    requires |d| == |e|
    requires forall i :: 0 <= i < |d| ==> (forall a :: Handles(e[i], a) == Handles(d[i], a))
    ensures Claimant(e, b) == Claimant(d, b)
    decreases |d|
  {
    if d != [] {
      SameClaims(d[1..], e[1..], b);
    }
  }

  /** Memory a peripheral does not shadow behaves as memory: a write there
      reads back cut to 8 bits, leaves every peripheral alone and leaves
      every other address reading as before. */
  lemma {:induction false} UnclaimedReadBack(s: BusState, address: int, value: int, other: int)
    requires Claimant(s.devices, Lo16(address)) == |s.devices|
    ensures Poke(s, address, value).devices == s.devices
    ensures Peek(Poke(s, address, value), address) == Lo8(value)
    ensures Lo16(other) != Lo16(address) ==> Peek(Poke(s, address, value), other) == Peek(s, other)
  {
  }

  /** A claimed address never reaches memory, for reads or writes. */
  lemma ClaimedShadowsMemory(s: BusState, address: int, value: int)
    requires Claimant(s.devices, Lo16(address)) < |s.devices|
    ensures Poke(s, address, value).cells == s.cells
    ensures Peek(s, address) == PRead(s.devices[Claimant(s.devices, Lo16(address))], Lo16(address))
  {
  }

  /** With no peripheral attached the bus is plain memory. */
  lemma EmptyBusIsMemory(cells: Cells, address: int, value: int)
    ensures Peek(BusState(cells, []), address) == Get(cells, address)
    ensures Poke(BusState(cells, []), address, value).cells == Put(cells, address, value)
  {
  }

  /** Addresses outside 0xC000..0xC40F, where the two peripherals live. */
  predicate Unmapped(address: int)
  {
    address < Display.DISPLAY_BASE || Sound.SOUND_END < address
  }

  /** Neither peripheral maps anything below 0xC000 or above 0xC40F, so the
      zero page, the stack page, program memory and the vectors at the top of
      memory are always plain memory. */
  lemma {:induction false} UnmappedUnclaimed(devices: seq<Peripheral>, address: int)
    requires Unmapped(address)
    ensures Claimant(devices, address) == |devices|
    decreases |devices|
  {
    if devices != [] {
      UnmappedUnclaimed(devices[1..], address);
    }
  }

  /** Reading asks the peripherals in registration order and falls back to
      memory when none claims the address. */
  lemma ReadDispatch(s: BusState, address: int)
    ensures var a := Lo16(address); var i := Claimant(s.devices, a);
      Peek(s, address) == if i < |s.devices| then PRead(s.devices[i], a) else Get(s.cells, a)
  {
    if Unmapped(Lo16(address)) {
      UnmappedUnclaimed(s.devices, Lo16(address));
    }
  }

  /** Writing goes to the first peripheral that claims the address, or to
      memory when none does. */
  lemma WriteDispatch(s: BusState, address: int, value: int)
    ensures var a := Lo16(address); var i := Claimant(s.devices, a);
      Poke(s, address, value) ==
        if i < |s.devices| then s.(devices := s.devices[i := PWrite(s.devices[i], a, Lo8(value))])
        else s.(cells := Put(s.cells, a, Lo8(value)))
  {
    if Unmapped(Lo16(address)) {
      UnmappedUnclaimed(s.devices, Lo16(address));
    }
  }

  class SystemBus {
    const memory: Memory
    var peripherals: seq<Peripheral>

    ghost predicate Valid()
      reads this, memory, memory.monitor
    {
      memory.Valid()
    }

    function Data(): BusState
      reads this, memory
    {
      BusState(memory.cells, peripherals)
    }

    constructor(memory: Memory)
      requires memory.Valid()
      ensures Valid()
      ensures this.memory == memory && peripherals == []
    {
      this.memory := memory;
      peripherals := [];
    }

    method AddPeripheral(p: Peripheral)
      modifies this
      ensures peripherals == old(peripherals) + [p]
    {
      peripherals := peripherals + [p];
    }

    /** A bus read. Memory reads are logged when memory is monitored;
        peripheral reads are not. */
    method Read(address: int) returns (v: Byte)
      requires Valid()
      modifies memory.monitor
      ensures Valid()
      ensures v == Peek(Data(), address)
      ensures memory.monitor != null ==> memory.monitor.cycleCount == old(memory.monitor.cycleCount)
      ensures memory.monitor != null ==> (memory.monitor.busActivity ==
        old(memory.monitor.busActivity) +
        (if Claimant(peripherals, Lo16(address)) < |peripherals| then []
         else [Entry(memory.monitor.cycleCount, Lo16(address), v, "R")]))
    {
      var a := Lo16(address);
      var i := 0;
      while i < |peripherals|
        invariant 0 <= i <= |peripherals|
        invariant forall j :: 0 <= j < i ==> !Handles(peripherals[j], a)
      {
        if Handles(peripherals[i], a) {
          assert Claimant(peripherals, a) == i;
          return PRead(peripherals[i], a);
        }
        i := i + 1;
      }
      v := memory.ReadByte(a);
    }

    method Write(address: int, value: int)
      requires Valid()
      modifies this, memory, memory.monitor
      ensures Valid()
      ensures Data() == Poke(old(Data()), address, value)
      ensures memory.monitor != null ==> memory.monitor.cycleCount == old(memory.monitor.cycleCount)
      ensures memory.monitor != null ==> (memory.monitor.busActivity ==
        old(memory.monitor.busActivity) +
        (if Claimant(old(peripherals), Lo16(address)) < |old(peripherals)| then []
         else [Entry(memory.monitor.cycleCount, Lo16(address), Lo8(value), "W")]))
    {
      var a := Lo16(address);
      var v := Lo8(value);
      var i := 0;
      while i < |peripherals|
        invariant 0 <= i <= |peripherals|
        invariant forall j :: 0 <= j < i ==> !Handles(peripherals[j], a)
      {
        if Handles(peripherals[i], a) {
          assert Claimant(peripherals, a) == i;
          peripherals := peripherals[i := PWrite(peripherals[i], a, v)];
          return;
        }
        i := i + 1;
      }
      memory.WriteByte(a, v);
    }

    method Tick()
      modifies this
      ensures peripherals == TickAll(old(peripherals))
    {
      var i := 0;
      while i < |peripherals|
        invariant 0 <= i <= |peripherals| == |old(peripherals)|
        invariant forall j :: 0 <= j < i ==> peripherals[j] == PTick(old(peripherals)[j])
        invariant forall j :: i <= j < |peripherals| ==> peripherals[j] == old(peripherals)[j]
      {
        peripherals := peripherals[i := PTick(peripherals[i])];
        i := i + 1;
      }
    }
  }
}

/** The bus monitor: a log of bus accesses stamped with a cycle counter. */
module Monitor {
  import opened Bits
  import opened Wrappers

  /** One logged access; `operation` is "R" for a read and "W" for a write. */
  datatype Entry = Entry(cycle: int, address: Word, data: Byte, operation: string)

  /** Entries appear in the order the accesses happened, so their cycle
      stamps never decrease. */
  ghost predicate Chronological(log: seq<Entry>)
  {
    forall i, j :: 0 <= i < j < |log| ==> log[i].cycle <= log[j].cycle
  }

  class BusMonitor {
    var busActivity: seq<Entry>
    var cycleCount: int

    /** The log is in order and no entry is stamped later than the current cycle. */
    ghost predicate Valid()
      reads this
    {
      Chronological(busActivity) &&
      forall i :: 0 <= i < |busActivity| ==> busActivity[i].cycle <= cycleCount
    }

    constructor()
      ensures Valid()
      ensures busActivity == [] && cycleCount == 0
    {
      busActivity := [];
      cycleCount := 0;
    }

    /** Appends one entry stamped with the current cycle; the address is cut
        to 16 bits and the data to 8 bits. */
    method LogBusOperation(address: int, data: int, operation: string)
      requires Valid()
      modifies this
      ensures Valid()
      ensures busActivity == old(busActivity) + [Entry(cycleCount, Lo16(address), Lo8(data), operation)]
      ensures cycleCount == old(cycleCount)
    {
      busActivity := busActivity + [Entry(cycleCount, Lo16(address), Lo8(data), operation)];
    }

    method IncrementCycle()
      requires Valid()
      modifies this
      ensures Valid()
      ensures cycleCount == old(cycleCount) + 1
      ensures busActivity == old(busActivity)
    {
      cycleCount := cycleCount + 1;
    }

    method Reset()
      modifies this
      ensures Valid()
      ensures busActivity == [] && cycleCount == 0
    {
      busActivity := [];
      cycleCount := 0;
    }

    function GetBusActivity(): seq<Entry>
      reads this
    {
      busActivity
    }

    function GetCurrentCycle(): int
      reads this
    {
      cycleCount
    }

    /** The most recent entry, or nothing when the log is empty. */
    function GetLastBusOperation(): (r: Option<Entry>)
      reads this
      ensures r == None <==> busActivity == []
      ensures r != None ==> r.value == busActivity[|busActivity| - 1] && r.value in busActivity
    {
      if busActivity == [] then None else Some(busActivity[|busActivity| - 1])
    }
  }
}

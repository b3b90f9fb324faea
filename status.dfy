/** The processor status register: eight flags packed into one byte. */
module Status {
  import opened Bits

  const CARRY := 0
  const ZERO := 1
  const INTERRUPT_DISABLE := 2
  const DECIMAL_MODE := 3
  const BREAK_COMMAND := 4
  const UNUSED := 5
  const OVERFLOW := 6
  const NEGATIVE := 7

  /** The eight flag positions the register's callers pass. */
  type Flag = f: int | 0 <= f < 8

  /** `1 << f` */
  function Mask(f: Flag): bv8
  {
    if f == 0 then 0x01 else if f == 1 then 0x02 else if f == 2 then 0x04
    else if f == 3 then 0x08 else if f == 4 then 0x10 else if f == 5 then 0x20
    else if f == 6 then 0x40 else 0x80
  }

  /** Whether flag `f` is set in the status word `w`. */
  predicate Has(w: bv8, f: Flag) { w & Mask(f) != 0 }

  /** The status word with flag `f` set to `v`: `w | (1 << f)` or `w & ~(1 << f)`.
      Exactly that one flag takes the new value; every other flag keeps its own. */
  function With(w: bv8, f: Flag, v: bool): (r: bv8)
    ensures Has(r, f) == v
    ensures forall g: Flag :: g != f ==> Has(r, g) == Has(w, g)
  {
    if v then w | Mask(f) else w & !Mask(f)
  }

  /** Two status words with the same eight flags are the same word. */
  lemma FlagsDetermineWord(w: bv8, u: bv8)
    requires forall f: Flag :: Has(w, f) == Has(u, f)
    ensures w == u
  {
    assert Has(w, 0) == Has(u, 0) && Has(w, 1) == Has(u, 1);
    assert Has(w, 2) == Has(u, 2) && Has(w, 3) == Has(u, 3);
    assert Has(w, 4) == Has(u, 4) && Has(w, 5) == Has(u, 5);
    assert Has(w, 6) == Has(u, 6) && Has(w, 7) == Has(u, 7);
  }

  /** Setting a flag to the value it already has leaves the word unchanged,
      and setting it twice is the same as setting it once. */
  lemma WithIdempotent(w: bv8, f: Flag, v: bool)
    ensures With(With(w, f, v), f, v) == With(w, f, v)
    ensures Has(w, f) == v ==> With(w, f, v) == w
  {
    FlagsDetermineWord(With(With(w, f, v), f, v), With(w, f, v));
    if Has(w, f) == v {
      FlagsDetermineWord(With(w, f, v), w);
    }
  }

  /** Setting a flag twice keeps only the second value. */
  lemma WithOverwrites(w: bv8, f: Flag, v: bool, u: bool)
    ensures With(With(w, f, v), f, u) == With(w, f, u)
  {
    var a, b := With(With(w, f, v), f, u), With(w, f, u);
    forall g: Flag
      ensures Has(a, g) == Has(b, g)
    {
      if g != f {
        assert Has(a, g) == Has(With(w, f, v), g) == Has(w, g);
      }
    }
    FlagsDetermineWord(a, b);
  }


  /** Flags at different positions can be set in either order. */
  lemma WithCommutes(w: bv8, f: Flag, g: Flag, v: bool, u: bool)
    requires f != g
    ensures With(With(w, f, v), g, u) == With(With(w, g, u), f, v)
  {
    FlagsDetermineWord(With(With(w, f, v), g, u), With(With(w, g, u), f, v));
  }

  /** `toInt` followed by `fromInt` gives the same status word back. */
  lemma IntRoundTrip(w: bv8)
    ensures Lo8(w as int) == w as int && Bv(w as int) == w
  {
    assert w as int < 256;
    assert Lo8(w as int) == w as int;
  }

  class StatusRegister {
    var flags: bv8

    /** A new register holds only the unused bit (bit 5). */
    constructor()
      ensures flags == 0x20
      ensures forall f: Flag :: Has(flags, f) == (f == UNUSED)
    {
      flags := 0x20;
    }

    method Set(f: Flag, v: bool)
      modifies this
      ensures flags == With(old(flags), f, v)
    {
      if v {
        flags := flags | Mask(f);
      } else {
        flags := flags & !Mask(f);
      }
    }

    function Get(f: Flag): bool
      reads this
    {
      Has(flags, f)
    }

    function ToInt(): Byte
      reads this
    {
      flags as int
    }

    /** Loads the register from an integer, keeping its low eight bits. */
    method FromInt(v: int)
      modifies this
      ensures flags == Bv(v)
    {
      flags := Bv(v);
    }
  }
}

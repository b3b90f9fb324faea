/** The memory-mapped 40x25 text display: 1000 bytes of character memory at
    0xC000-0xC3E7 followed by five registers (cursor column and row,
    foreground and background colour, control). */
module Display {
  import opened Bits

  const DISPLAY_BASE := 0xC000
  const DISPLAY_END := 0xC3E7
  const CURSOR_X := 0xC3E8
  const CURSOR_Y := 0xC3E9
  const FG_COLOR := 0xC3EA
  const BG_COLOR := 0xC3EB
  const CONTROL := 0xC3EC
  const WIDTH := 40
  const HEIGHT := 25
  const CTRL_SHOW_CURSOR := 0x02
  const SPACE := 0x20
  const NEWLINE := 0x0A
  /** Every this many ticks the display asks to be redrawn. */
  const REFRESH_PERIOD := 30000

  type Col = x: int | 0 <= x < 40
  type Row = y: int | 0 <= y < 25
  type Nibble = c: int | 0 <= c < 16
  /** Character memory, row by row. */
  type Screen = s: seq<Byte> | |s| == 1000 witness seq(1000, _ => 0x20)

  /** The whole state of a display. `ticks` is the tick counter (in the
      source a counter shared by every display). */
  datatype DisplayState = DisplayState(
    cells: Screen, cursorX: Col, cursorY: Row, fg: Nibble, bg: Nibble,
    showCursor: bool, needsRefresh: bool, ticks: nat)

  function BlankScreen(): Screen { seq(1000, _ => SPACE) }

  function BlankRow(): seq<Byte> { seq(WIDTH, _ => SPACE) }

  /** `max(0, min(hi, v))` */
  function Clamp(v: int, hi: nat): (r: int)
    ensures 0 <= r <= hi
    ensures 0 <= v <= hi ==> r == v
  {
    if v < 0 then 0 else if v > hi then hi else v
  }

  /** The state `reset` establishes (the tick counter survives it). */
  function ResetState(ticks: nat): DisplayState
  {
    DisplayState(BlankScreen(), 0, 0, 7, 0, true, true, ticks)
  }

  predicate HandlesAddress(address: int)
  {
    DISPLAY_BASE <= address <= CONTROL
  }

  function ReadAt(s: DisplayState, address: int): Byte
  {
    if address == CURSOR_X then s.cursorX
    else if address == CURSOR_Y then s.cursorY
    else if address == FG_COLOR then s.fg
    else if address == BG_COLOR then s.bg
    else if address == CONTROL then (if s.showCursor then CTRL_SHOW_CURSOR else 0)
    else if DISPLAY_BASE <= address <= DISPLAY_END then s.cells[address - DISPLAY_BASE]
    else 0
  }

  /** `clearScreen`: blank memory, cursor home, redraw requested. */
  function Cleared(s: DisplayState): DisplayState
  {
    s.(cells := BlankScreen(), cursorX := 0, cursorY := 0, needsRefresh := true)
  }

  function Written(s: DisplayState, address: int, value: int): DisplayState
  {
    if address == CURSOR_X then s.(cursorX := Clamp(value, WIDTH - 1), needsRefresh := true)
    else if address == CURSOR_Y then s.(cursorY := Clamp(value, HEIGHT - 1), needsRefresh := true)
    else if address == FG_COLOR then s.(fg := value % 16, needsRefresh := true)
    else if address == BG_COLOR then s.(bg := value % 16, needsRefresh := true)
    else if address == CONTROL then
      var cleared := if Bit0(value) then Cleared(s) else s;
      var shown := cleared.(showCursor := Bit1(value));
      if Bit2(value) then shown.(needsRefresh := true) else shown
    else if DISPLAY_BASE <= address <= DISPLAY_END then
      s.(cells := s.cells[address - DISPLAY_BASE := Lo8(value)], needsRefresh := true)
    else s
  }

  function Ticked(s: DisplayState): DisplayState
  {
    var n := s.ticks + 1;
    if n % REFRESH_PERIOD == 0 then s.(ticks := n, needsRefresh := true) else s.(ticks := n)
  }

  /** `scrollUp`: every row moves up one, the bottom row is blanked and the
      cursor goes to the bottom row. */
  function Scrolled(s: DisplayState): DisplayState
  {
    s.(cells := s.cells[WIDTH..] + BlankRow(), cursorY := HEIGHT - 1)
  }

  /** `writeChar`: a newline moves to the start of the next row, a printable
      character (0x20-0x7E) is stored at the cursor which then advances,
      wrapping to the next row; moving past the bottom row scrolls. Every
      call requests a redraw; other characters change nothing else. */
  function AfterChar(s: DisplayState, c: int): DisplayState
  {
    if c == NEWLINE then
      if s.cursorY + 1 >= HEIGHT then Scrolled(s.(cursorX := 0, needsRefresh := true))
      else s.(cursorX := 0, cursorY := s.cursorY + 1, needsRefresh := true)
    else if SPACE <= c <= 0x7E then
      var t := s.(cells := s.cells[s.cursorY * WIDTH + s.cursorX := c], needsRefresh := true);
      if s.cursorX + 1 < WIDTH then t.(cursorX := s.cursorX + 1)
      else if s.cursorY + 1 < HEIGHT then t.(cursorX := 0, cursorY := s.cursorY + 1)
      else Scrolled(t.(cursorX := 0))
    else s.(needsRefresh := true)
  }

  /** A byte written to character memory reads back cut to 8 bits, and no
      other address reads differently. */
  lemma CellReadBack(s: DisplayState, address: int, value: int, other: int)
    requires DISPLAY_BASE <= address <= DISPLAY_END
    ensures ReadAt(Written(s, address, value), address) == Lo8(value)
    ensures other != address ==> ReadAt(Written(s, address, value), other) == ReadAt(s, other)
  {
  }

  /** A cursor write reads back clamped into the screen, so the cursor never
      leaves it; a position already on screen reads back unchanged. */
  lemma CursorClamped(s: DisplayState, value: int)
    ensures ReadAt(Written(s, CURSOR_X, value), CURSOR_X) == Clamp(value, WIDTH - 1)
    ensures ReadAt(Written(s, CURSOR_Y, value), CURSOR_Y) == Clamp(value, HEIGHT - 1)
    ensures 0 <= value < WIDTH ==> ReadAt(Written(s, CURSOR_X, value), CURSOR_X) == value
    ensures 0 <= value < HEIGHT ==> ReadAt(Written(s, CURSOR_Y, value), CURSOR_Y) == value
  {
  }

  /** Colours keep their low four bits. */
  lemma ColourMasked(s: DisplayState, value: int)
    ensures ReadAt(Written(s, FG_COLOR, value), FG_COLOR) == value % 16
    ensures ReadAt(Written(s, BG_COLOR, value), BG_COLOR) == value % 16
  {
  }

  /** The control register reads back only the cursor-visibility bit; with
      the clear bit set the whole screen is blank and the cursor is home. */
  lemma ControlEffects(s: DisplayState, value: int, a: int)
    ensures ReadAt(Written(s, CONTROL, value), CONTROL) == if Bit1(value) then CTRL_SHOW_CURSOR else 0
    ensures Bit0(value) && DISPLAY_BASE <= a <= DISPLAY_END ==> ReadAt(Written(s, CONTROL, value), a) == SPACE
    ensures Bit0(value) ==> Written(s, CONTROL, value).cursorX == 0 && Written(s, CONTROL, value).cursorY == 0
    ensures !Bit0(value) ==> Written(s, CONTROL, value).cells == s.cells
  {
  }

  /** Scrolling moves row r+1 to row r and blanks the bottom row. */
  lemma {:induction false} ScrolledRows(s: DisplayState, row: int, col: int)
    requires 0 <= row < HEIGHT && 0 <= col < WIDTH
    ensures Scrolled(s).cells[row * WIDTH + col] ==
      if row < HEIGHT - 1 then s.cells[(row + 1) * WIDTH + col] else SPACE
    ensures Scrolled(s).cursorY == HEIGHT - 1
  {
    var c := s.cells[WIDTH..] + BlankRow();
    if row < HEIGHT - 1 {
      assert c[row * WIDTH + col] == s.cells[WIDTH..][row * WIDTH + col];
    } else {
      assert c[row * WIDTH + col] == BlankRow()[col];
    }
  }

  /** A printable character lands at the cursor; while the row is not full
      the cursor moves one column right, and at the end of a row that is
      not the last it moves to the start of the next. */
  lemma PrintableStored(s: DisplayState, c: int)
    requires SPACE <= c <= 0x7E
    ensures s.cursorY < HEIGHT - 1 || s.cursorX < WIDTH - 1 ==>
      AfterChar(s, c).cells[s.cursorY * WIDTH + s.cursorX] == c
    ensures s.cursorX < WIDTH - 1 ==>
      AfterChar(s, c).cursorX == s.cursorX + 1 && AfterChar(s, c).cursorY == s.cursorY
    ensures s.cursorX == WIDTH - 1 && s.cursorY < HEIGHT - 1 ==>
      AfterChar(s, c).cursorX == 0 && AfterChar(s, c).cursorY == s.cursorY + 1
    ensures AfterChar(s, c).needsRefresh
  {
  }

  /** Characters outside 0x20-0x7E other than newline only request a redraw. */
  lemma UnprintableIgnored(s: DisplayState, c: int)
    requires c != NEWLINE && !(SPACE <= c <= 0x7E)
    ensures AfterChar(s, c) == s.(needsRefresh := true)
  {
  }

  /** A newline on the bottom row scrolls: the old second row becomes the
      top row and the cursor is at the start of the bottom row. */
  lemma NewlineAtBottomScrolls(s: DisplayState, col: int)
    requires s.cursorY == HEIGHT - 1 && 0 <= col < WIDTH
    ensures AfterChar(s, NEWLINE).cursorX == 0 && AfterChar(s, NEWLINE).cursorY == HEIGHT - 1
    ensures AfterChar(s, NEWLINE).cells[col] == s.cells[WIDTH + col]
  {
    ScrolledRows(s.(cursorX := 0, needsRefresh := true), 0, col);
  }

  /** The redraw request is raised on every 30000th tick. */
  lemma TickRefresh(s: DisplayState)
    ensures Ticked(s).ticks == s.ticks + 1
    ensures (s.ticks + 1) % REFRESH_PERIOD == 0 ==> Ticked(s).needsRefresh
    ensures (s.ticks + 1) % REFRESH_PERIOD != 0 ==> Ticked(s) == s.(ticks := s.ticks + 1)
  {
  }

  class TextDisplay {
    const displayMemory: array<Byte>
    var cursorX: Col
    var cursorY: Row
    var fgColor: Nibble
    var bgColor: Nibble
    var showCursor: bool
    var needsRefresh: bool
    var tickCount: nat

    ghost predicate Valid()
      reads this
    {
      displayMemory.Length == WIDTH * HEIGHT
    }

    function State(): DisplayState
      requires Valid()
      reads this, displayMemory
    {
      var cells: seq<Byte> := displayMemory[..];
      DisplayState(cells, cursorX, cursorY, fgColor, bgColor, showCursor, needsRefresh, tickCount)
    }

    constructor()
      ensures Valid() && fresh(displayMemory)
      ensures State() == ResetState(0)
    {
      displayMemory := new Byte[WIDTH * HEIGHT](_ => SPACE);
      cursorX, cursorY := 0, 0;
      fgColor, bgColor := 7, 0;
      showCursor, needsRefresh := true, true;
      tickCount := 0;
      new;
      assert displayMemory[..] == BlankScreen();
    }

    function Read(address: int): Byte
      requires Valid()
      reads this, displayMemory
    {
      ReadAt(State(), address)
    }

    method Write(address: int, value: int)
      requires Valid()
      modifies this, displayMemory
      ensures Valid()
      ensures State() == Written(old(State()), address, value)
    {
      if address == CURSOR_X {
        cursorX := Clamp(value, WIDTH - 1);
        needsRefresh := true;
      } else if address == CURSOR_Y {
        cursorY := Clamp(value, HEIGHT - 1);
        needsRefresh := true;
      } else if address == FG_COLOR {
        fgColor := value % 16;
        needsRefresh := true;
      } else if address == BG_COLOR {
        bgColor := value % 16;
        needsRefresh := true;
      } else if address == CONTROL {
        if Bit0(value) {
          ClearScreen();
        }
        showCursor := Bit1(value);
        if Bit2(value) {
          needsRefresh := true;
        }
      } else if DISPLAY_BASE <= address <= DISPLAY_END {
        displayMemory[address - DISPLAY_BASE] := Lo8(value);
        needsRefresh := true;
      }
    }

    method Tick()
      requires Valid()
      modifies this
      ensures Valid()
      ensures State() == Ticked(old(State()))
    {
      tickCount := tickCount + 1;
      if tickCount % REFRESH_PERIOD == 0 {
        needsRefresh := true;
      }
    }

    method Reset()
      requires Valid()
      modifies this, displayMemory
      ensures Valid()
      ensures State() == ResetState(old(tickCount))
    {
      Blank();
      cursorX, cursorY := 0, 0;
      fgColor, bgColor := 7, 0;
      showCursor, needsRefresh := true, true;
    }

    method ClearScreen()
      requires Valid()
      modifies this, displayMemory
      ensures Valid()
      ensures State() == Cleared(old(State()))
    {
      Blank();
      cursorX, cursorY := 0, 0;
      needsRefresh := true;
    }

    /** Fills character memory with spaces (`array_fill`). */
    method Blank()
      requires Valid()
      modifies displayMemory
      ensures displayMemory[..] == BlankScreen()
    {
      forall i | 0 <= i < displayMemory.Length {
        displayMemory[i] := SPACE;
      }
    }

    method WriteChar(c: int)
      requires Valid()
      modifies this, displayMemory
      ensures Valid()
      ensures State() == AfterChar(old(State()), c)
    {
      if c == NEWLINE {
        cursorX := 0;
        if cursorY + 1 >= HEIGHT {
          ScrollUp();
        } else {
          cursorY := cursorY + 1;
        }
      } else if SPACE <= c <= 0x7E {
        displayMemory[cursorY * WIDTH + cursorX] := c;
        if cursorX + 1 < WIDTH {
          cursorX := cursorX + 1;
        } else {
          cursorX := 0;
          if cursorY + 1 < HEIGHT {
            cursorY := cursorY + 1;
          } else {
            ScrollUp();
          }
        }
      }
      needsRefresh := true;
    }

    /** Copies each row onto the one above it, cell by cell, then blanks the
        bottom row and puts the cursor on it. */
    method ScrollUp()
      requires Valid()
      modifies this, displayMemory
      ensures Valid()
      ensures State() == Scrolled(old(State()))
    {
      ghost var before := displayMemory[..];
      var y := 0;
      while y < HEIGHT - 1
        modifies displayMemory
        invariant 0 <= y <= HEIGHT - 1
        invariant forall k :: 0 <= k < y * WIDTH ==> displayMemory[k] == before[k + WIDTH]
        invariant forall k :: y * WIDTH <= k < WIDTH * HEIGHT ==> displayMemory[k] == before[k]
      {
        var x := 0;
        while x < WIDTH
          modifies displayMemory
          invariant 0 <= x <= WIDTH
          invariant forall k :: 0 <= k < y * WIDTH + x ==> displayMemory[k] == before[k + WIDTH]
          invariant forall k :: y * WIDTH + x <= k < WIDTH * HEIGHT ==> displayMemory[k] == before[k]
        {
          displayMemory[y * WIDTH + x] := displayMemory[(y + 1) * WIDTH + x];
          x := x + 1;
        }
        y := y + 1;
      }
      var x := 0;
      while x < WIDTH
        modifies displayMemory
        invariant 0 <= x <= WIDTH
        invariant forall k :: 0 <= k < (HEIGHT - 1) * WIDTH ==> displayMemory[k] == before[k + WIDTH]
        invariant forall k :: (HEIGHT - 1) * WIDTH <= k < (HEIGHT - 1) * WIDTH + x ==> displayMemory[k] == SPACE
      {
        displayMemory[(HEIGHT - 1) * WIDTH + x] := SPACE;
        x := x + 1;
      }
      cursorY := HEIGHT - 1;
      ShiftedScreen(before, displayMemory[..]);
    }
  }

  /** A screen whose first 24 rows are rows 1-24 of another and whose last
      row is blank is that screen scrolled. */
  lemma ShiftedScreen(before: seq<Byte>, after: seq<Byte>)
    requires |before| == |after| == WIDTH * HEIGHT
    requires forall k :: 0 <= k < (HEIGHT - 1) * WIDTH ==> after[k] == before[k + WIDTH]
    requires forall k :: (HEIGHT - 1) * WIDTH <= k < HEIGHT * WIDTH ==> after[k] == SPACE
    ensures after == before[WIDTH..] + BlankRow()
  {
  }
}

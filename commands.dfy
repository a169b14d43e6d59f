/** The command-byte arithmetic of the driver's command layer: flag toggles,
    cursor addressing, CGRAM addressing and the flags chosen at start-up.
    Where the driver's arithmetic departs from what it evidently intends,
    the intended definition stands beside the one the driver computes. */
module Commands {
  import opened Hd44780

  /** `flags` with bit(s) `flag` set (`on`) or cleared: exactly those bits
      change, to the requested value. */
  function WithFlag(flags: Byte, flag: Byte, on: bool): (r: Byte)
    ensures r & flag == (if on then flag else 0)
    ensures r & !flag == flags & !flag
  {
    if on then flags | flag else flags & !flag
  }

  /** Setting or clearing a flag a second time changes nothing. */
  lemma WithFlagIdempotent(flags: Byte, flag: Byte, on: bool)
    ensures WithFlag(WithFlag(flags, flag, on), flag, on) == WithFlag(flags, flag, on)
  {
  }

  /** Start of each display row in DDRAM. */
  const ROW_OFFSETS: seq<Byte> := [0x00, 0x40, 0x14, 0x54]

  /** The DDRAM offset of row `r`, looked up in ROW_OFFSETS. */
  function RowOffset(r: Byte): (offset: Byte)
    requires r < 4
    ensures offset < 0x80
  {
    ROW_OFFSETS[r as int]
  }

  /** The row SetCursor addresses for a requested `row` on a display of
      `rows` rows (8-bit arithmetic, so `rows - 1` wraps when rows is 0).
      It replaces a row beyond the last but lets `row == rows` through, so
      the result can be one past the last row. */
  function ClampRow(row: Byte, rows: Byte): (r: Byte)
    ensures row <= rows ==> r == row
    ensures row > rows ==> r == rows - 1
    ensures rows != 0 ==> r <= rows
    ensures rows != 0 ==> (r == rows <==> row == rows)
  {
    if row > rows then rows - 1 else row
  }

  /** The clamp the driver intends ("we count rows starting w/0"): every
      row at or past `rows` becomes the last row. */
  function ClampRowIntended(row: Byte, rows: Byte): (r: Byte)
    ensures rows != 0 ==> r < rows
    ensures row < rows ==> r == row
    ensures row >= rows ==> r == rows - 1
  {
    if row >= rows then rows - 1 else row
  }

  /** On a display of `rows` rows, asking for row `rows` is not clamped by
      the driver, whereas the intended clamp picks the last row. */
  lemma ClampRowLetsRowsThrough(rows: Byte)
    requires rows != 0
    ensures ClampRow(rows, rows) == rows
    ensures ClampRowIntended(rows, rows) == rows - 1
  {
  }

  /** The set-DDRAM-address command for column `col` of row `r`. The
      column plus the row's offset is cut to 8 bits by the uint8 command
      parameter (the wrapping 8-bit sum below), and only its value modulo
      0x80 survives under the command bit, which is always set. */
  function DdramCommand(col: Byte, r: Byte): (cmd: Byte)
    requires r < 4
    ensures cmd & LCD_SETDDRAMADDR == LCD_SETDDRAMADDR
    ensures cmd & 0x7F == (col + RowOffset(r)) % 0x80
  {
    var address := col + RowOffset(r);
    LowSevenBitsMod(address);
    LCD_SETDDRAMADDR | address
  }

  /** Under the set-DDRAM-address bit, the seven address bits are the
      address modulo 0x80. */
  lemma LowSevenBitsMod(x: Byte)
    ensures (LCD_SETDDRAMADDR | x) & 0x7F == x % 0x80
  {
  }

  /** On a two-row display, row 2 passes the clamp and addresses DDRAM 0x14,
      which is column 20 of the first row. */
  lemma SetCursorRowTwoOfTwo()
    ensures ClampRow(2, 2) == 2
    ensures DdramCommand(0, ClampRow(2, 2)) == LCD_SETDDRAMADDR | 0x14
  {
    assert RowOffset(2) == 0x14;
  }

  /** A column that pushes the address to 0x80 spills into the command bit:
      column 0x40 of row 1 addresses DDRAM 0, the home position. */
  lemma SetCursorAddressWraps()
    ensures DdramCommand(0x40, ClampRow(1, 2)) == LCD_SETDDRAMADDR
  {
    assert RowOffset(1) == 0x40;
  }

  /** The set-CGRAM-address command for glyph slot `location`: only the low
      three bits of the slot count, and they select the first of its eight
      row addresses. */
  function CgramCommand(location: Byte): (cmd: Byte)
    ensures cmd & 0xC0 == LCD_SETCGRAMADDR
    ensures cmd & 0x07 == 0
    ensures (cmd >> 3) & 0x07 == location & 0x07
  {
    LCD_SETCGRAMADDR | ((location & 0x7) << 3)
  }

  /** The function-set flags chosen at start-up: 4-bit bus always, two lines
      exactly when there is more than one row, the 5x10 font exactly when a
      nonzero character size is asked for on a one-row display. */
  function InitFunctionFlags(rows: Byte, charsize: Byte): (f: Byte)
    ensures f & LCD_8BITMODE == LCD_4BITMODE
    ensures f & LCD_2LINE != 0 <==> rows > 1
    ensures f & LCD_5x10DOTS != 0 <==> charsize != 0 && rows == 1
    ensures f & !FUNCTION_SET_FLAGS == 0
  {
    var f := LCD_4BITMODE | LCD_1LINE | LCD_5x8DOTS;
    var f := if rows > 1 then f | LCD_2LINE else f;
    if charsize != 0 && rows == 1 then f | LCD_5x10DOTS else f
  }

  /** The number of glyph rows CreateChar sends: chosen from the character
      size alone, and always one of the two font heights. */
  function GlyphRows(charsize: Byte): (n: nat)
    ensures n == 8 || n == 10
  {
    if charsize != 0 then 10 else 8
  }

  /** The glyph height that matches the font the display was put in: ten
      rows exactly when the function-set flags select the 5x10 font. */
  function GlyphRowsIntended(displayfunction: Byte): nat
  {
    if displayfunction & LCD_5x10DOTS != 0 then 10 else 8
  }

  /** After start-up the intended glyph height follows the display's
      geometry: ten rows only on a one-row display asked for the 5x10 font,
      so a display Init put in the 5x8 font is never sent more than eight. */
  lemma GlyphRowsIntendedFollowsInit(rows: Byte, charsize: Byte)
    ensures GlyphRowsIntended(InitFunctionFlags(rows, charsize)) == (if charsize != 0 && rows == 1 then 10 else 8)
    ensures InitFunctionFlags(rows, charsize) & LCD_5x10DOTS == 0 ==> GlyphRowsIntended(InitFunctionFlags(rows, charsize)) <= 8
  {
  }

  /** GlyphRows agrees with the font chosen at start-up on every display
      except one with several rows and a nonzero character size: that one
      runs the 5x8 font but is sent ten glyph rows, two more than a CGRAM
      slot holds. */
  lemma GlyphRowsVersusFont(rows: Byte, charsize: Byte)
    ensures GlyphRows(charsize) == GlyphRowsIntended(InitFunctionFlags(rows, charsize))
            <==> !(charsize != 0 && rows != 1)
  {
  }
}

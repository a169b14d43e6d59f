/** Command opcodes, flag bits and PCF8574 expander pin bits of an HD44780
    character LCD driven over I2C, with the facts about their encoding that
    the rest of the driver relies on. */
module Hd44780 {

  /** One 8-bit value: an expander pin state, a controller command or a character. */
  type Byte = bv8

  /** Capacity of the driver's transmit buffer. */
  const BUFFER_SIZE: nat := 500

  /** Command opcodes: each is one bit, and the highest set bit of a
      command byte says which command it is. */
  const LCD_CLEARDISPLAY: Byte := 0x01
  const LCD_RETURNHOME: Byte := 0x02
  const LCD_ENTRYMODESET: Byte := 0x04
  const LCD_DISPLAYCONTROL: Byte := 0x08
  const LCD_CURSORSHIFT: Byte := 0x10
  const LCD_FUNCTIONSET: Byte := 0x20
  const LCD_SETCGRAMADDR: Byte := 0x40
  const LCD_SETDDRAMADDR: Byte := 0x80

  /** Entry-mode options: cursor direction after a write, and whether the
      whole display shifts with it. */
  const LCD_ENTRYRIGHT: Byte := 0x00
  const LCD_ENTRYLEFT: Byte := 0x02
  const LCD_ENTRYSHIFTINCREMENT: Byte := 0x01
  const LCD_ENTRYSHIFTDECREMENT: Byte := 0x00

  /** Display-control options: display, cursor and blinking cursor. */
  const LCD_DISPLAYON: Byte := 0x04
  const LCD_DISPLAYOFF: Byte := 0x00
  const LCD_CURSORON: Byte := 0x02
  const LCD_CURSOROFF: Byte := 0x00
  const LCD_BLINKON: Byte := 0x01
  const LCD_BLINKOFF: Byte := 0x00

  /** Cursor-or-display-shift options: what moves, and which way. */
  const LCD_DISPLAYMOVE: Byte := 0x08
  const LCD_CURSORMOVE: Byte := 0x00
  const LCD_MOVERIGHT: Byte := 0x04
  const LCD_MOVELEFT: Byte := 0x00

  /** Function-set options: bus width, number of lines and font height. */
  const LCD_8BITMODE: Byte := 0x10
  const LCD_4BITMODE: Byte := 0x00
  const LCD_2LINE: Byte := 0x08
  const LCD_1LINE: Byte := 0x00
  const LCD_5x10DOTS: Byte := 0x04
  const LCD_5x8DOTS: Byte := 0x00

  /** The expander bit that powers the backlight, and its absence. */
  const LCD_BACKLIGHT: Byte := 0x08
  const LCD_NOBACKLIGHT: Byte := 0x00

  /** Expander bits wired to the controller's enable, read/write and
      register-select lines. */
  const EN: Byte := 0x04
  const RW: Byte := 0x02
  const RS: Byte := 0x01

  /** The eight command opcodes, lowest first. */
  const OPCODES: seq<Byte> := [LCD_CLEARDISPLAY, LCD_RETURNHOME, LCD_ENTRYMODESET,
                               LCD_DISPLAYCONTROL, LCD_CURSORSHIFT, LCD_FUNCTIONSET,
                               LCD_SETCGRAMADDR, LCD_SETDDRAMADDR]

  /** All flags each flag-carrying opcode can be combined with. */
  const ENTRY_MODE_FLAGS: Byte := LCD_ENTRYLEFT | LCD_ENTRYSHIFTINCREMENT
  const DISPLAY_CONTROL_FLAGS: Byte := LCD_DISPLAYON | LCD_CURSORON | LCD_BLINKON
  const CURSOR_SHIFT_FLAGS: Byte := LCD_DISPLAYMOVE | LCD_MOVERIGHT
  const FUNCTION_SET_FLAGS: Byte := LCD_8BITMODE | LCD_2LINE | LCD_5x10DOTS

  predicate IsSingleBit(x: Byte) {
    x != 0 && x & (x - 1) == 0
  }

  /** The opcodes that carry flags in their lower bits. */
  predicate IsFlagOpcode(op: Byte) {
    op == LCD_ENTRYMODESET || op == LCD_DISPLAYCONTROL || op == LCD_CURSORSHIFT || op == LCD_FUNCTIONSET
  }

  /** The flags a flag-carrying opcode admits. */
  function FlagsOf(op: Byte): Byte
    requires IsFlagOpcode(op)
  {
    if op == LCD_ENTRYMODESET then ENTRY_MODE_FLAGS
    else if op == LCD_DISPLAYCONTROL then DISPLAY_CONTROL_FLAGS
    else if op == LCD_CURSORSHIFT then CURSOR_SHIFT_FLAGS
    else FUNCTION_SET_FLAGS
  }

  /** RS, RW, EN and the backlight are four distinct single bits that fill the
      low nibble, so they never overlap nibble data carried in bits 4-7. */
  lemma PinBitsAreDistinctLowBits()
    ensures IsSingleBit(RS) && IsSingleBit(RW) && IsSingleBit(EN) && IsSingleBit(LCD_BACKLIGHT)
    ensures RS & RW == 0 && RS & EN == 0 && RS & LCD_BACKLIGHT == 0
    ensures RW & EN == 0 && RW & LCD_BACKLIGHT == 0 && EN & LCD_BACKLIGHT == 0
    ensures RS | RW | EN | LCD_BACKLIGHT == 0x0F
  {
  }

  /** The eight opcodes are eight different single bits. */
  lemma OpcodesAreDistinctBits()
    ensures |OPCODES| == 8
    ensures forall i :: 0 <= i < |OPCODES| ==> IsSingleBit(OPCODES[i])
    ensures forall i, j :: 0 <= i < j < |OPCODES| ==> OPCODES[i] & OPCODES[j] == 0
  {
  }

  /** Every flag of an opcode lies strictly below the opcode's bit, so the
      opcode is the highest bit of `op | flags` and the flags are the rest. */
  lemma FlagsLieBelowOpcode(op: Byte, flags: Byte)
    requires IsFlagOpcode(op)
    requires flags & !FlagsOf(op) == 0
    ensures FlagsOf(op) < op
    ensures (op | flags) & !(op - 1) == op
    ensures (op | flags) & (op - 1) == flags
  {
  }

  /** A command byte built from a flag-carrying opcode and its flags determines both. */
  lemma CommandDeterminesOpcodeAndFlags(op1: Byte, flags1: Byte, op2: Byte, flags2: Byte)
    requires IsFlagOpcode(op1) && flags1 & !FlagsOf(op1) == 0
    requires IsFlagOpcode(op2) && flags2 & !FlagsOf(op2) == 0
    requires op1 | flags1 == op2 | flags2
    ensures op1 == op2 && flags1 == flags2
  {
    FlagsLieBelowOpcode(op1, flags1);
    FlagsLieBelowOpcode(op2, flags2);
  }

  /** Every "off" or default flag is zero, so clearing the matching "on" bit
      from any flag set leaves exactly the "off" encoding in its place. */
  lemma OffFlagsAreZero(flags: Byte)
    ensures LCD_DISPLAYOFF == 0 && LCD_CURSOROFF == 0 && LCD_BLINKOFF == 0
    ensures LCD_ENTRYRIGHT == 0 && LCD_ENTRYSHIFTDECREMENT == 0
    ensures LCD_4BITMODE == 0 && LCD_1LINE == 0 && LCD_5x8DOTS == 0
    ensures LCD_MOVELEFT == 0 && LCD_CURSORMOVE == 0 && LCD_NOBACKLIGHT == 0
    ensures flags & !LCD_DISPLAYON & LCD_DISPLAYON == LCD_DISPLAYOFF
    ensures flags & !LCD_CURSORON & LCD_CURSORON == LCD_CURSOROFF
    ensures flags & !LCD_BLINKON & LCD_BLINKON == LCD_BLINKOFF
    ensures flags & !LCD_ENTRYLEFT & LCD_ENTRYLEFT == LCD_ENTRYRIGHT
    ensures flags & !LCD_ENTRYSHIFTINCREMENT & LCD_ENTRYSHIFTINCREMENT == LCD_ENTRYSHIFTDECREMENT
  {
  }

  /** The two scroll commands are cursor-shift commands that move the display
      and differ only in the direction bit. */
  lemma ScrollCommandsDifferOnlyInDirection()
    ensures LCD_CURSORSHIFT | LCD_DISPLAYMOVE | LCD_MOVELEFT == 0x18
    ensures LCD_CURSORSHIFT | LCD_DISPLAYMOVE | LCD_MOVERIGHT == 0x1C
    ensures (LCD_CURSORSHIFT | LCD_DISPLAYMOVE | LCD_MOVELEFT) ^ (LCD_CURSORSHIFT | LCD_DISPLAYMOVE | LCD_MOVERIGHT) == LCD_MOVERIGHT
  {
  }
}

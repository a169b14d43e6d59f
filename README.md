# LiquidCrystal_I2C in Dafny

A verified model of the driver for an HD44780 character LCD behind a PCF8574
I2C port expander, as implemented in `Src/LiquidCrystal_I2C.c` and
`Inc/LiquidCrystal_I2C.h`.

The driver keeps one global display context (`lc_t`: address, columns, rows,
character size, backlight, function-set, display-control and entry-mode
flags) and a static 500-byte transmit buffer with an 8-bit counter. Every
byte for the controller is sent in 4-bit mode as two enable pulses of three
expander values each (`AddValue`/`AddNibble`/`AddByte`/`AddBytes`). `Write`
flushes the buffer in one I2C transmission. On top of this sit the command
layer, the custom glyphs and the cold start of the HD44780U datasheet
(figure 24).

The project is four modules:

- `hd44780.dfy` (`Hd44780`): the header's opcodes, flags and pin bits, with
  the facts about their encoding that the driver relies on.
- `frames.dfy` (`Frames`): the pure nibble/byte encoder.
  - `ByteFrames` and `EncodeBytes` give the expander values for one byte or a run of bytes; `DecodeByte` and `DecodeBytes` invert them.
  - `Buffered` is what the 8-bit counter lets a flush transmit.
- `commands.dfy` (`Commands`): the pure command arithmetic.
  - Flag toggles, the `SetCursor` row clamp and DDRAM address, and the CGRAM address.
  - The start-up function-set flags and the glyph height.
- `lcd.dfy` (`LiquidCrystalI2C`): the class `Lcd`, which is `lc_t` together with `buffer` and `buffer_counter`. Every driver function is a method of it.
  - A ghost `pending` holds every value appended since the last flush.
  - A ghost `log` records, in order, every I2C transmission (`Transmit(address, data)`) and every delay.
  - Each method states exactly which events it appends, which fields it changes and how.
  - Lemmas then read the transmissions off those event sequences.

The counter wrap is modelled, not forbidden. `Valid()` ties
`buffer[0..counter)` to `Buffered(pending)`, the last `|pending| % 256`
values, so what a flush transmits after more than 255 appended values is
stated exactly.

## Model

| member | source | states |
|---|---|---|
| Hd44780.PinBitsAreDistinctLowBits | Inc/LiquidCrystal_I2C.h:51-56 | RS, RW, EN and the backlight bit are four distinct single bits that together fill the low nibble, so they never overlap nibble data in bits 4-7 |
| Hd44780.OpcodesAreDistinctBits | Inc/LiquidCrystal_I2C.h:13-20 | the eight command opcodes are pairwise disjoint single bits |
| Hd44780.FlagsLieBelowOpcode | Inc/LiquidCrystal_I2C.h:13-48 | every flag an opcode admits lies below the opcode bit; in the opcode OR-ed with its flags, the opcode is the top bit and the flags are the rest |
| Hd44780.CommandDeterminesOpcodeAndFlags | Inc/LiquidCrystal_I2C.h:13-48 | two commands built from well-formed opcode/flag pairs are equal only if both the opcodes and the flags are equal |
| Hd44780.OffFlagsAreZero | Inc/LiquidCrystal_I2C.h:22-52 | every "off" or default flag is 0, so clearing an "on" bit leaves exactly the "off" encoding |
| Hd44780.ScrollCommandsDifferOnlyInDirection | Src/LiquidCrystal_I2C.c:135-140 | the scroll commands are 0x18 and 0x1C and differ only in the move-right bit |
| Frames.HighNibble | Src/LiquidCrystal_I2C.c:234 | the high nibble keeps the byte's upper four bits in bits 4-7 and leaves bits 0-3, the control pins, clear |
| Frames.LowNibble | Src/LiquidCrystal_I2C.c:235 | the low nibble carries the byte's lower four bits in bits 4-7 and leaves bits 0-3, the control pins, clear |
| Frames.NibblesSplitByte | Src/LiquidCrystal_I2C.c:233-235 | both nibbles of a byte travel in bits 4-7, clear of the control pins, and together rebuild the byte |
| Frames.NibbleFramePulse | Src/LiquidCrystal_I2C.c:228-232 | the three values of a pulse keep the data and control lines of the nibble; when the nibble leaves enable low, only the middle value raises it |
| Frames.NibbleFrame | Src/LiquidCrystal_I2C.c:228-232 | a nibble is clocked in by exactly three expander values |
| Frames.PinState | Src/LiquidCrystal_I2C.c:236-237 | for a nibble in bits 4-7 and the driver's mode and backlight values, the pin state carries the nibble in bits 4-7 and exactly mode and backlight in bits 0-3, with enable and read/write low |
| Frames.ByteFrames | Src/LiquidCrystal_I2C.c:233-238 | one byte becomes exactly six expander values |
| Frames.ByteFramesLayout | Src/LiquidCrystal_I2C.c:228-238 | for mode 0 or RS and backlight 0 or 0x08: values 0 and 3 decode to the byte; only values 1 and 4 raise enable; none raises RW; each value carries the mode and backlight bits; the high nibble occupies values 0-2 and the low nibble values 3-5 |
| Frames.EncodeBytes | Src/LiquidCrystal_I2C.c:239-244 | a run of bytes becomes 6 values per byte, and the i-th group of six is the frame of the i-th byte |
| Frames.DecodeEncodeBytes | Src/LiquidCrystal_I2C.c:239-244 | decoding the encoded run gives back the run |
| Frames.Buffered | Src/LiquidCrystal_I2C.c:222-226 | after the values p, the buffer shows as many values as the length of p modulo 256 |
| Frames.BufferedIsSuffix | Src/LiquidCrystal_I2C.c:222-226 | what the buffer shows is the tail of p of that length |
| Frames.BufferedShort | Src/LiquidCrystal_I2C.c:222-226 | fewer than 256 appended values are shown whole |
| Frames.BufferedSnoc | Src/LiquidCrystal_I2C.c:222-226 | appending a value extends what is shown by that value, or empties it when the counter wraps to 0 |
| Frames.BufferedAllIff | Src/LiquidCrystal_I2C.c:252-256 | a flush transmits everything appended since the last one if and only if fewer than 256 values were appended |
| Frames.EncodedStringFitsIff | Src/LiquidCrystal_I2C.c:208-215 | a string reaches the wire whole in one flush if and only if it has at most 42 characters |
| Frames.LongStringSendsOnlyASuffix | Src/LiquidCrystal_I2C.c:208-215 | a 43-character string makes 258 values, and its flush carries only the last two |
| Frames.PrintChunks | Src/LiquidCrystal_I2C.c:208-215 | flushing after every 42 characters gives transmissions that each reach the wire whole and together carry the whole string's frames in order |
| Commands.WithFlag | Src/LiquidCrystal_I2C.c:105-164 | setting or clearing a flag changes exactly those bits, to the requested value |
| Commands.WithFlagIdempotent | Src/LiquidCrystal_I2C.c:105-164 | repeating a toggle leaves the flags as the first call left them |
| Commands.RowOffset | Src/LiquidCrystal_I2C.c:97 | every row start lies below 0x80 |
| Commands.ClampRow | Src/LiquidCrystal_I2C.c:98-100 | a row up to `rows` is kept and a row beyond it becomes `rows - 1` in 8-bit arithmetic (255 when `rows` is 0); on a non-empty display the result is at most `rows`, and equals `rows` exactly when `rows` was asked for |
| Commands.ClampRowIntended | Src/LiquidCrystal_I2C.c:98-100 | the intended clamp: an existing row is kept and every row at or past `rows` becomes `rows - 1`, so on a non-empty display the row is always below `rows` |
| Commands.ClampRowLetsRowsThrough | Src/LiquidCrystal_I2C.c:98-100 | asking for row `rows` is not clamped by the driver, while the intended clamp gives the last row |
| Commands.DdramCommand | Src/LiquidCrystal_I2C.c:101 | the cursor command always has the set-DDRAM bit, and its address bits are column plus row start, cut to 8 bits, modulo 0x80 |
| Commands.SetCursorRowTwoOfTwo | Src/LiquidCrystal_I2C.c:96-102 | on a two-row display, row 2 passes the clamp and addresses DDRAM 0x14 |
| Commands.SetCursorAddressWraps | Src/LiquidCrystal_I2C.c:101 | column 0x40 on row 1 overflows the address into the command bit and addresses DDRAM 0 |
| Commands.CgramCommand | Src/LiquidCrystal_I2C.c:170-171 | the glyph command has the set-CGRAM opcode, row bits 0, and the slot's low three bits in bits 3-5 |
| Commands.InitFunctionFlags | Src/LiquidCrystal_I2C.c:29-38 | always 4-bit mode; two lines exactly when rows > 1; the 5x10 font exactly when charsize is nonzero and rows == 1; no other bits |
| Commands.GlyphRows | Src/LiquidCrystal_I2C.c:172 | the glyph height CreateChar sends, taken from charsize alone, is one of the two font heights, 8 or 10 |
| Commands.GlyphRowsIntendedFollowsInit | Src/LiquidCrystal_I2C.c:29-38 | the intended glyph height, read from the function-set flags, is 10 only for a one-row display with a nonzero charsize; a display Init put in the 5x8 font is never sent more than 8 rows |
| Commands.GlyphRowsVersusFont | Src/LiquidCrystal_I2C.c:172 | the glyph height CreateChar uses matches the start-up font except when charsize is nonzero and rows != 1 |
| LiquidCrystalI2C.DeviceAddress | Src/LiquidCrystal_I2C.c:253 | the transmit call's device address holds the slave address above bit 0, and bit 0, the read/write bit, is 0 (write) |
| LiquidCrystalI2C.IndexAfter | Src/LiquidCrystal_I2C.c:240-241 | the 8-bit loop index is always below 256, and equals the number of increments until that reaches 256 |
| LiquidCrystalI2C.NarrowIndexNeverExits | Src/LiquidCrystal_I2C.c:239-244 | for a 16-bit size of 256 or more the 8-bit index stays below the size whatever the number of increments, so the loop test never fails; the 256th increment brings it back to 0 |
| LiquidCrystalI2C.FlushTransmits | Src/LiquidCrystal_I2C.c:252-256 | a flush makes exactly one transmission, of what the buffer shows |
| LiquidCrystalI2C.CommandTransmits | Src/LiquidCrystal_I2C.c:198-202 | with fewer than 250 values pending, a command makes one transmission: the pending values, then the command's frames, which decode to the command |
| LiquidCrystalI2C.ResetTransmissions | Src/LiquidCrystal_I2C.c:43-64 | the handshake makes five transmissions: pending values plus 0x00, then the pulses for nibbles 3, 3, 3 and 2 |
| LiquidCrystalI2C.StartupTransmissions | Src/LiquidCrystal_I2C.c:66-82 | the start-up makes five transmissions, the k-th carrying only the frames of the k-th start-up command, backlight off |
| LiquidCrystalI2C.InitTransmissions | Src/LiquidCrystal_I2C.c:20-83 | a cold start from an empty buffer transmits 0x00, the handshake nibbles 3, 3, 3, 2, then five 6-value frames. Those frames decode to function set, display on (0x0C), clear, left-to-right entry (0x06) and home |
| LiquidCrystalI2C.ShortStringArrivesWhole | Src/LiquidCrystal_I2C.c:208-215 | a string of at most 42 characters printed from an empty buffer is one transmission that decodes back to the string |
| LiquidCrystalI2C.Lcd.Valid | Src/LiquidCrystal_I2C.c:222-226 | the class invariant: the buffer has its 500 entries, the 8-bit counter equals the number of values appended since the last flush modulo 256, and buffer[0..counter) is what Buffered says those appends leave visible |
| LiquidCrystalI2C.Lcd.ValidShowsLastValues | Src/LiquidCrystal_I2C.c:9-10 | in a consistent state the buffer holds, at positions 0 to the counter, the last values appended since the last flush, the counter being at most their number |
| LiquidCrystalI2C.Lcd.constructor | Src/LiquidCrystal_I2C.c:9-12 | the static state starts zeroed, with an empty buffer and nothing sent |
| LiquidCrystalI2C.Lcd.DelayMicroseconds | Src/LiquidCrystal_I2C.c:273-278 | the busy-wait is recorded as one microsecond delay and changes nothing else |
| LiquidCrystalI2C.Lcd.HalDelay | Src/LiquidCrystal_I2C.c:88 | the millisecond delay is recorded and changes nothing else |
| LiquidCrystalI2C.Lcd.AddValue | Src/LiquidCrystal_I2C.c:222-226 | the value is appended at the counter; the buffer stays consistent with the wrapping 8-bit counter |
| LiquidCrystalI2C.Lcd.AddNibble | Src/LiquidCrystal_I2C.c:228-232 | appends the pulse: the nibble, the nibble with enable, the nibble |
| LiquidCrystalI2C.Lcd.AddByte | Src/LiquidCrystal_I2C.c:233-238 | appends exactly the six frames of the byte with the current backlight and the given mode, after what was there |
| LiquidCrystalI2C.Lcd.AddBytes | Src/LiquidCrystal_I2C.c:239-244 | appends the frames of data[0..size) as data, in order |
| LiquidCrystalI2C.Lcd.AddBytesWideIndex | Src/LiquidCrystal_I2C.c:239-244 | with an index as wide as the 16-bit size, the loop ends for every size and appends the frames of all of data[0..size) as data, in order |
| LiquidCrystalI2C.Lcd.Write | Src/LiquidCrystal_I2C.c:252-256 | one transmission to `addr << 1` of what the buffer shows, then a 40 us wait; the buffer is empty afterwards |
| LiquidCrystalI2C.Lcd.WriteExpander | Src/LiquidCrystal_I2C.c:247-250 | flushes the pending values followed by the single value |
| LiquidCrystalI2C.Lcd.WriteNibble | Src/LiquidCrystal_I2C.c:268-271 | flushes the pending values followed by one pulse of the nibble with the backlight bit |
| LiquidCrystalI2C.Lcd.WriteCommand | Src/LiquidCrystal_I2C.c:198-202 | flushes the pending values plus the command's frames in command mode, then waits 40 us more |
| LiquidCrystalI2C.Lcd.WriteSymbol | Src/LiquidCrystal_I2C.c:203-206 | flushes the pending values plus the character's frames in data mode |
| LiquidCrystalI2C.Lcd.PrintString | Src/LiquidCrystal_I2C.c:208-215 | one flush of the pending values plus the frames of every character before the terminator, in data mode and in order |
| LiquidCrystalI2C.Lcd.WriteSymbolCustomDDRAM | Src/LiquidCrystal_I2C.c:262-265 | a set-DDRAM command for the address, then a transmission of the character alone |
| LiquidCrystalI2C.Lcd.Clear | Src/LiquidCrystal_I2C.c:86-89 | the clear command, then a 3 ms wait |
| LiquidCrystalI2C.Lcd.Home | Src/LiquidCrystal_I2C.c:91-94 | the return-home command, then a 3 ms wait |
| LiquidCrystalI2C.Lcd.SetCursor | Src/LiquidCrystal_I2C.c:96-102 | sends the DDRAM command for the column and the row as the driver clamps it; no setting changes |
| LiquidCrystalI2C.Lcd.NoDisplay | Src/LiquidCrystal_I2C.c:105-108 | clears only the display-on bit and sends display control with the new flags |
| LiquidCrystalI2C.Lcd.Display | Src/LiquidCrystal_I2C.c:109-112 | sets only the display-on bit and sends display control with the new flags |
| LiquidCrystalI2C.Lcd.NoCursor | Src/LiquidCrystal_I2C.c:115-118 | clears only the cursor bit and sends display control with the new flags |
| LiquidCrystalI2C.Lcd.Cursor | Src/LiquidCrystal_I2C.c:119-122 | sets only the cursor bit and sends display control with the new flags |
| LiquidCrystalI2C.Lcd.NoBlink | Src/LiquidCrystal_I2C.c:125-128 | clears only the blink bit and sends display control with the new flags |
| LiquidCrystalI2C.Lcd.Blink | Src/LiquidCrystal_I2C.c:129-132 | sets only the blink bit and sends display control with the new flags |
| LiquidCrystalI2C.Lcd.ScrollDisplayLeft | Src/LiquidCrystal_I2C.c:135-137 | sends the display-move-left command and changes no setting |
| LiquidCrystalI2C.Lcd.ScrollDisplayRight | Src/LiquidCrystal_I2C.c:138-140 | sends the display-move-right command and changes no setting |
| LiquidCrystalI2C.Lcd.LeftToRight | Src/LiquidCrystal_I2C.c:143-146 | sets only the left-entry bit and sends entry mode with the new flags |
| LiquidCrystalI2C.Lcd.RightToLeft | Src/LiquidCrystal_I2C.c:149-152 | clears only the left-entry bit and sends entry mode with the new flags |
| LiquidCrystalI2C.Lcd.Autoscroll | Src/LiquidCrystal_I2C.c:155-158 | sets only the shift-increment bit and sends entry mode with the new flags |
| LiquidCrystalI2C.Lcd.NoAutoscroll | Src/LiquidCrystal_I2C.c:161-164 | clears only the shift-increment bit and sends entry mode with the new flags |
| LiquidCrystalI2C.Lcd.CreateChar | Src/LiquidCrystal_I2C.c:169-175 | the set-CGRAM command for the masked slot, then one transmission of the first 10 or 8 glyph rows, chosen by charsize alone, in data mode |
| LiquidCrystalI2C.Lcd.NoBacklight | Src/LiquidCrystal_I2C.c:178-181 | backlight off; the expander receives the single value 0x00 after the pending values |
| LiquidCrystalI2C.Lcd.Backlight | Src/LiquidCrystal_I2C.c:183-186 | backlight on; the expander receives the single value 0x08 after the pending values |
| LiquidCrystalI2C.Lcd.SetBacklight | Src/LiquidCrystal_I2C.c:188-194 | backlight on exactly when the argument is nonzero, and that value is what is transmitted |
| LiquidCrystalI2C.Lcd.Init | Src/LiquidCrystal_I2C.c:20-83 | binds address, size and character size; backlight off; function-set flags as InitFunctionFlags; display on with cursor and blink off; left-to-right entry; appends the reset handshake and then the start-up commands |
| LiquidCrystalI2C.Lcd.ColdStart | Src/LiquidCrystal_I2C.c:43-82 | the handshake and then the start-up commands, leaving display control 0x04 and entry mode 0x02 |
| LiquidCrystalI2C.Lcd.ResetToFourBitMode | Src/LiquidCrystal_I2C.c:43-64 | the 50 ms wait, the expander reset, the three 8-bit nibbles with their waits and the switch to 4 bits |
| LiquidCrystalI2C.Lcd.SendStartupCommands | Src/LiquidCrystal_I2C.c:66-82 | function set, display on, clear, left-to-right entry and home, with their waits |
| LiquidCrystalI2C.Lcd.StartDisplay | Src/LiquidCrystal_I2C.c:66-74 | function set, display on with cursor and blink off, clear |
| LiquidCrystalI2C.Lcd.StartEntryMode | Src/LiquidCrystal_I2C.c:76-82 | left-to-right entry without shift, then home |

## Left out

- The I2C handle, the 100 ms timeout and the status of `HAL_I2C_Master_Transmit` (Src/LiquidCrystal_I2C.c:253). It is a vendor HAL call. A transmission is recorded as a `Transmit(addr << 1, data)` event, and a failing transmission is not modelled.
- The timing of `DelayMicroseconds`: a volatile busy loop whose count is derived in floating point from the clock frequency. `HAL_Delay` likewise. Both are recorded as delay events with the requested duration.
- The MCU headers (`stm32f4xx*.h`, `i2c.h`), which hold no driver logic.
- Concurrency: the driver is a single-threaded global singleton.
- `char` signedness in `PrintString`: characters are taken as bytes.
- Lcd.AddBytes: requires `size < 256`. The uint8 loop index never reaches a larger 16-bit size and loops forever (see Findings).
- Lcd.PrintString: takes the C string with its terminator. It requires at most 256 bytes, for the same reason as AddBytes (see Findings).
- Lcd.SetCursor: requires the clamped row to be below 4. The four-entry offset table is read without a bound check, and a larger row reads past it.
- Lcd.CreateChar: requires `charmap` to hold the 8 or 10 rows it reads.
- Lcd.Init: the body of the source function is split into the helper methods ColdStart, ResetToFourBitMode, SendStartupCommands, StartDisplay and StartEntryMode, to keep each proof small. The statements and their order are unchanged.
- Lcd.Valid: it does not restrict `backlightval` to 0 or 0x08. The decoding lemmas require these values (`PinsOk`), which is what every assignment in the driver gives.

## Findings

| source | as written | input that shows it | evidently intended | confidence | as-written member | corrected member |
|---|---|---|---|---|---|---|
| Src/LiquidCrystal_I2C.c:98-99 | only a row strictly greater than `rows` is replaced by `rows - 1`, so `row == rows` passes unclamped | `rows = 2`, `SetCursor(0, 2)`: row 2 is kept and the cursor goes to DDRAM 0x14, column 20 of the first line | every row at or past `rows` becomes the last row (the comment counts rows from 0) | high; not executed | Commands.ClampRowLetsRowsThrough | Commands.ClampRowIntended |
| Src/LiquidCrystal_I2C.c:10 | the buffer counter is 8 bits wide while the buffer holds 500 values, so it wraps after 256 values and restarts the buffer | `PrintString` of a 43-character string: 258 values, and only the last two reach the display | the whole string reaches the display | high; not executed | Frames.LongStringSendsOnlyASuffix | Frames.PrintChunks |
| Src/LiquidCrystal_I2C.c:172 | the glyph height is chosen from `charsize` alone | `Init` with `rows = 2` and `charsize = LCD_5x10DOTS` selects the 5x8 font, yet `CreateChar` sends 10 rows, two more than a glyph slot holds | the glyph height follows the font selected in `displayfunction` | medium; not executed | Commands.GlyphRowsVersusFont | Commands.GlyphRowsIntendedFollowsInit |
| Src/LiquidCrystal_I2C.c:239-244 | the loop index of `AddBytes` is `uint8_t` while `size` is `uint16_t`; `PrintString` (lines 208-215) uses the same 8-bit index | `AddBytes(data, 256)`: the index wraps from 255 to 0, `i < 256` always holds and the loop never ends; `PrintString` of a 300-character string never reads its terminator | the loop visits each of the `size` bytes once and ends | high; not executed | LiquidCrystalI2C.NarrowIndexNeverExits | LiquidCrystalI2C.Lcd.AddBytesWideIndex |

The driver's methods in `Lcd` model the code as written. The corrected
definitions stand beside them with their intended properties proved.

/** The driver proper: the global display context and transmit buffer as one
    object, the buffer operations, the flush, the command layer and the
    HD44780 cold-start sequence. Every transmission over I2C and every delay
    is recorded, in order, in a ghost log, so each operation states exactly
    which bytes reach the wire. */
module LiquidCrystalI2C {
  import opened Hd44780
  import opened Frames
  import opened Commands

  /** One externally visible effect of the driver. */
  datatype Event =
    | Transmit(address: bv16, data: seq<Byte>)  // one blocking I2C master transmission
    | DelayMs(ms: nat)                         // a millisecond wait
    | DelayUs(us: nat)                         // a busy-wait of (about) `us` microseconds

  /** The slave address shifted into the transmit call's 16-bit
      device-address parameter: the address sits above bit 0, which is the
      read/write bit and stays 0 (write). */
  function DeviceAddress(addr: Byte): (a: bv16)
    ensures a & 1 == 0 && a >> 1 == addr as bv16 && a < 0x200
  {
    (addr as bv16) << 1
  }

  /** The effects of a flush after the values `p` were appended: one
      transmission of what the buffer shows, then the 40 microsecond wait. */
  function FlushEvents(addr: Byte, p: seq<Byte>): seq<Event>
  {
    [Transmit(DeviceAddress(addr), Buffered(p)), DelayUs(40)]
  }

  /** The effects of sending command `cmd` after the values `p`: one flush of
      `p` and the command's frames, then the command's own 40 microsecond wait. */
  function CommandEvents(addr: Byte, p: seq<Byte>, cmd: Byte, bl: Byte): seq<Event>
  {
    FlushEvents(addr, p + ByteFrames(cmd, 0, bl)) + [DelayUs(40)]
  }

  /** The effects of the power-on wait, the expander reset and the 4-bit
      handshake, after the values `p` were left in the buffer. */
  function ResetEvents(addr: Byte, p: seq<Byte>): seq<Event>
  {
    [DelayMs(50)]
    + FlushEvents(addr, p + [0x00])
    + FlushEvents(addr, NibbleFrame(0x30)) + [DelayUs(4500)]
    + FlushEvents(addr, NibbleFrame(0x30)) + [DelayUs(150)]
    + FlushEvents(addr, NibbleFrame(0x30))
    + FlushEvents(addr, NibbleFrame(0x20))
  }

  /** Appending the reset effects one call at a time appends ResetEvents. */
  lemma ResetEventsInOrder(log0: seq<Event>, addr: Byte, p: seq<Byte>)
    ensures log0 + [DelayMs(50)]
            + FlushEvents(addr, p + [0x00])
            + FlushEvents(addr, NibbleFrame(0x30)) + [DelayUs(4500)]
            + FlushEvents(addr, NibbleFrame(0x30)) + [DelayUs(150)]
            + FlushEvents(addr, NibbleFrame(0x30))
            + FlushEvents(addr, NibbleFrame(0x20))
            == log0 + ResetEvents(addr, p)
  {
  }

  /** The effects of the start-up commands with function-set flags
      `displayfunction`: function set, display on, clear, left-to-right
      entry, home. */
  function StartupEvents(addr: Byte, displayfunction: Byte): seq<Event>
  {
    CommandEvents(addr, [], LCD_FUNCTIONSET | displayfunction, LCD_NOBACKLIGHT)
    + CommandEvents(addr, [], LCD_DISPLAYCONTROL | LCD_DISPLAYON, LCD_NOBACKLIGHT)
    + CommandEvents(addr, [], LCD_CLEARDISPLAY, LCD_NOBACKLIGHT) + [DelayMs(3)]
    + CommandEvents(addr, [], LCD_ENTRYMODESET | LCD_ENTRYLEFT, LCD_NOBACKLIGHT)
    + CommandEvents(addr, [], LCD_RETURNHOME, LCD_NOBACKLIGHT) + [DelayMs(3)]
  }

  /** Appending the start-up effects one call at a time appends StartupEvents. */
  lemma StartupEventsInOrder(log0: seq<Event>, addr: Byte, displayfunction: Byte)
    ensures log0
            + CommandEvents(addr, [], LCD_FUNCTIONSET | displayfunction, LCD_NOBACKLIGHT)
            + CommandEvents(addr, [], LCD_DISPLAYCONTROL | LCD_DISPLAYON, LCD_NOBACKLIGHT)
            + CommandEvents(addr, [], LCD_CLEARDISPLAY, LCD_NOBACKLIGHT) + [DelayMs(3)]
            + CommandEvents(addr, [], LCD_ENTRYMODESET | LCD_ENTRYLEFT, LCD_NOBACKLIGHT)
            + CommandEvents(addr, [], LCD_RETURNHOME, LCD_NOBACKLIGHT) + [DelayMs(3)]
            == log0 + StartupEvents(addr, displayfunction)
  {
  }

  /** The data of every transmission in `log`, in order. */
  function Transmissions(log: seq<Event>): seq<seq<Byte>>
  {
    if log == [] then []
    else (if log[0].Transmit? then [log[0].data] else []) + Transmissions(log[1..])
  }

  lemma {:induction false} TransmissionsAppend(a: seq<Event>, b: seq<Event>)
    ensures Transmissions(a + b) == Transmissions(a) + Transmissions(b)
    decreases |a|
  {
    if a == [] {
      assert a + b == b;
    } else {
      assert (a + b)[1..] == a[1..] + b;
      TransmissionsAppend(a[1..], b);
    }
  }

  /** A flush makes exactly one transmission: what the buffer shows. */
  lemma FlushTransmits(addr: Byte, p: seq<Byte>)
    ensures Transmissions(FlushEvents(addr, p)) == [Buffered(p)]
  {
    var e := FlushEvents(addr, p);
    assert e[1..][1..] == [];
    assert Transmissions(e[1..]) == [] + Transmissions(e[1..][1..]);
  }

  /** A command sent with fewer than 250 values pending makes one
      transmission: the pending values, then the command's six frames, whose
      first four values decode back to the command. */
  lemma {:induction false} CommandTransmits(addr: Byte, p: seq<Byte>, cmd: Byte, bl: Byte)
    requires |p| < 250 && PinsOk(0, bl)
    ensures Transmissions(CommandEvents(addr, p, cmd, bl)) == [p + ByteFrames(cmd, 0, bl)]
    ensures DecodeByte(ByteFrames(cmd, 0, bl)) == cmd
  {
    var q := p + ByteFrames(cmd, 0, bl);
    BufferedShort(q);
    FlushTransmits(addr, q);
    TransmissionsAppend(FlushEvents(addr, q), [DelayUs(40)]);
    DelayTransmitsNothing([], DelayUs(40));
    ByteFramesLayout(cmd, 0, bl);
  }

  /** A delay adds no transmission. */
  lemma DelayTransmitsNothing(log: seq<Event>, d: Event)
    requires !d.Transmit?
    ensures Transmissions(log + [d]) == Transmissions(log)
  {
    TransmissionsAppend(log, [d]);
    assert Transmissions([d]) == [] + Transmissions([d][1..]);
  }

  /** A flush adds one transmission. */
  lemma FlushAddsOne(log: seq<Event>, addr: Byte, p: seq<Byte>)
    ensures Transmissions(log + FlushEvents(addr, p)) == Transmissions(log) + [Buffered(p)]
  {
    TransmissionsAppend(log, FlushEvents(addr, p));
    FlushTransmits(addr, p);
  }

  /** A command sent from an empty buffer adds one transmission: its frames. */
  lemma CommandAddsOne(log: seq<Event>, addr: Byte, cmd: Byte, bl: Byte)
    ensures Transmissions(log + CommandEvents(addr, [], cmd, bl)) == Transmissions(log) + [ByteFrames(cmd, 0, bl)]
  {
    var q := [] + ByteFrames(cmd, 0, bl);
    assert q == ByteFrames(cmd, 0, bl);
    BufferedShort(q);
    FlushAddsOne(log, addr, q);
    assert log + CommandEvents(addr, [], cmd, bl) == log + FlushEvents(addr, q) + [DelayUs(40)];
    DelayTransmitsNothing(log + FlushEvents(addr, q), DelayUs(40));
  }

  /** The reset handshake makes five transmissions: whatever was pending
      followed by the all-low expander value, then the pulses carrying the
      nibbles 3, 3, 3 and 2 with the backlight off. */
  lemma {:induction false} ResetTransmissions(addr: Byte, p: seq<Byte>)
    ensures Transmissions(ResetEvents(addr, p))
            == [Buffered(p + [0x00]), NibbleFrame(0x30), NibbleFrame(0x30), NibbleFrame(0x30), NibbleFrame(0x20)]
  {
    var n3, n2 := NibbleFrame(0x30), NibbleFrame(0x20);
    BufferedShort(n3);
    BufferedShort(n2);
    var e0 := [DelayMs(50)];
    var e1 := e0 + FlushEvents(addr, p + [0x00]);
    var e2 := e1 + FlushEvents(addr, n3);
    var e3 := e2 + [DelayUs(4500)];
    var e4 := e3 + FlushEvents(addr, n3);
    var e5 := e4 + [DelayUs(150)];
    var e6 := e5 + FlushEvents(addr, n3);
    assert ResetEvents(addr, p) == e6 + FlushEvents(addr, n2);
    DelayTransmitsNothing([], DelayMs(50));
    assert [] + [DelayMs(50)] == e0;
    FlushAddsOne(e0, addr, p + [0x00]);
    FlushAddsOne(e1, addr, n3);
    DelayTransmitsNothing(e2, DelayUs(4500));
    FlushAddsOne(e3, addr, n3);
    DelayTransmitsNothing(e4, DelayUs(150));
    FlushAddsOne(e5, addr, n3);
    FlushAddsOne(e6, addr, n2);
  }

  /** The five commands the start-up sends, in order. */
  function StartupCommands(displayfunction: Byte): seq<Byte>
  {
    [LCD_FUNCTIONSET | displayfunction, LCD_DISPLAYCONTROL | LCD_DISPLAYON, LCD_CLEARDISPLAY,
     LCD_ENTRYMODESET | LCD_ENTRYLEFT, LCD_RETURNHOME]
  }

  /** The start-up makes one transmission per command, each carrying that
      command alone, in command mode, with the backlight off. */
  lemma {:induction false} StartupTransmissions(addr: Byte, displayfunction: Byte)
    ensures |Transmissions(StartupEvents(addr, displayfunction))| == 5
    ensures forall k :: 0 <= k < 5 ==>
              Transmissions(StartupEvents(addr, displayfunction))[k]
              == ByteFrames(StartupCommands(displayfunction)[k], 0, LCD_NOBACKLIGHT)
  {
    var c := StartupCommands(displayfunction);
    var bl := LCD_NOBACKLIGHT;
    var e1 := CommandEvents(addr, [], c[0], bl);
    var e2 := e1 + CommandEvents(addr, [], c[1], bl);
    var e3 := e2 + CommandEvents(addr, [], c[2], bl);
    var e4 := e3 + [DelayMs(3)];
    var e5 := e4 + CommandEvents(addr, [], c[3], bl);
    var e6 := e5 + CommandEvents(addr, [], c[4], bl);
    assert StartupEvents(addr, displayfunction) == e6 + [DelayMs(3)];
    assert [] + e1 == e1;
    CommandAddsOne([], addr, c[0], bl);
    CommandAddsOne(e1, addr, c[1], bl);
    CommandAddsOne(e2, addr, c[2], bl);
    DelayTransmitsNothing(e3, DelayMs(3));
    CommandAddsOne(e4, addr, c[3], bl);
    CommandAddsOne(e5, addr, c[4], bl);
    DelayTransmitsNothing(e6, DelayMs(3));
  }

  /** A cold start from an empty buffer transmits, in order: the all-low
      expander value, the four handshake nibbles 3, 3, 3, 2, and then the
      five start-up commands, each decoding back to its command. */
  lemma {:induction false} InitTransmissions(addr: Byte, displayfunction: Byte)
    ensures |Transmissions(ResetEvents(addr, []) + StartupEvents(addr, displayfunction))| == 10
    ensures Transmissions(ResetEvents(addr, []) + StartupEvents(addr, displayfunction))[..5]
            == [[0x00], NibbleFrame(0x30), NibbleFrame(0x30), NibbleFrame(0x30), NibbleFrame(0x20)]
    ensures forall k :: 5 <= k < 10 ==>
              var t := Transmissions(ResetEvents(addr, []) + StartupEvents(addr, displayfunction))[k];
              |t| == 6 && DecodeByte(t) == StartupCommands(displayfunction)[k - 5]
  {
    var c := StartupCommands(displayfunction);
    TransmissionsAppend(ResetEvents(addr, []), StartupEvents(addr, displayfunction));
    ResetTransmissions(addr, []);
    assert [] + [0x00 as Byte] == [0x00];
    BufferedShort([0x00]);
    StartupTransmissions(addr, displayfunction);
    forall k | 0 <= k < 5
      ensures DecodeByte(ByteFrames(c[k], 0, LCD_NOBACKLIGHT)) == c[k]
    {
      ByteFramesLayout(c[k], 0, LCD_NOBACKLIGHT);
    }
  }

  /** A string of at most 42 characters printed from an empty buffer reaches
      the wire in one transmission that decodes back to the string. */
  lemma ShortStringArrivesWhole(addr: Byte, text: seq<Byte>, bl: Byte)
    requires |text| <= 42 && PinsOk(RS, bl)
    ensures Transmissions(FlushEvents(addr, [] + EncodeBytes(text, RS, bl))) == [EncodeBytes(text, RS, bl)]
    ensures DecodeBytes(Buffered(EncodeBytes(text, RS, bl))) == text
  {
    var e := EncodeBytes(text, RS, bl);
    assert [] + e == e;
    BufferedShort(e);
    FlushTransmits(addr, e);
    DecodeEncodeBytes(text, RS, bl);
  }

  /** A C string: characters, then the terminating zero and nothing after it. */
  predicate IsCString(str: seq<Byte>) {
    |str| > 0 && str[|str| - 1] == 0 && forall i :: 0 <= i < |str| - 1 ==> str[i] != 0
  }

  /** The 8-bit loop index of AddBytes and PrintString after `k` increments
      from 0: it wraps to 0 at 256. */
  function IndexAfter(k: nat): (i: nat)
    ensures i < 256
    ensures k < 256 ==> i == k
  {
    k % 256
  }

  /** However many increments it has made, the 8-bit index stays below 256:
      it never reaches a 16-bit `size` of 256 or more, so the test `i < size`
      never fails, and it never points past str[255], so a terminator
      further on is never read. Either loop runs forever; the 256th
      increment takes the index back to the first byte. */
  lemma NarrowIndexNeverExits(size: nat, k: nat)
    requires 256 <= size < 0x10000
    ensures IndexAfter(k) < 256 <= size
    ensures IndexAfter(256) == 0
  {
  }

  /** The global display context `lc_t` together with the static transmit
      buffer and its counter. Each method names in its `modifies` clause the
      fields it may change; every other field keeps its value. */
  class Lcd {
    var addr: Byte
    var cols: Byte
    var rows: Byte
    var charsize: Byte
    var backlightval: Byte
    var displayfunction: Byte
    var displaycontrol: Byte
    var displaymode: Byte

    const buffer: array<Byte>
    var counter: nat  // the uint8 buffer counter

    /** Every value appended since the last flush. */
    ghost var pending: seq<Byte>
    /** Every transmission and delay so far, oldest first. */
    ghost var log: seq<Event>

    /** The buffer has its fixed size and shows what the 8-bit counter lets
        through of the values appended since the last flush. */
    ghost predicate Valid()
      reads this`counter, this`pending, buffer
    {
      buffer.Length == BUFFER_SIZE && counter < 256 && counter == |pending| % 256 &&
      buffer[..counter] == Buffered(pending)
    }

    /** What the buffer shows is the last `counter` values appended since
        the last flush; earlier ones were overwritten when the counter
        wrapped. */
    lemma ValidShowsLastValues()
      requires Valid()
      ensures counter <= |pending| && buffer[..counter] == pending[|pending| - counter..]
    {
      BufferedIsSuffix(pending);
    }

    /** The zero-initialised static state before Init runs. */
    constructor ()
      ensures Valid() && fresh(buffer)
      ensures addr == 0 && cols == 0 && rows == 0 && charsize == 0
      ensures backlightval == 0 && displayfunction == 0 && displaycontrol == 0 && displaymode == 0
      ensures pending == [] && log == []
    {
      addr, cols, rows, charsize := 0, 0, 0, 0;
      backlightval, displayfunction, displaycontrol, displaymode := 0, 0, 0, 0;
      buffer := new Byte[BUFFER_SIZE];
      counter := 0;
      pending, log := [], [];
    }

    // ---------------------------------------------------------------
    // Timing: only recorded.

    /** The busy-wait of `mc` microseconds. */
    method DelayMicroseconds(mc: nat)
      modifies this`log
      ensures log == old(log) + [DelayUs(mc)]
    {
      log := log + [DelayUs(mc)];
    }

    /** The platform's millisecond delay. */
    method HalDelay(ms: nat)
      modifies this`log
      ensures log == old(log) + [DelayMs(ms)]
    {
      log := log + [DelayMs(ms)];
    }

    // ---------------------------------------------------------------
    // Buffer manipulation

    /** Stores `value` at the counter and advances the 8-bit counter. */
    method AddValue(value: Byte)
      requires Valid()
      modifies buffer, this`counter, this`pending
      ensures Valid()
      ensures pending == old(pending) + [value]
    {
      ghost var shown := buffer[..counter];
      buffer[counter] := value;
      assert buffer[..counter + 1] == shown + [value];
      BufferedSnoc(pending, value);
      counter := (counter + 1) % 256;
      pending := pending + [value];
    }

    /** Appends one enable pulse carrying `nibble`. */
    method AddNibble(nibble: Byte)
      requires Valid()
      modifies buffer, this`counter, this`pending
      ensures Valid()
      ensures pending == old(pending) + NibbleFrame(nibble)
    {
      AddValue(nibble);
      AddValue(nibble | EN);
      AddValue(nibble);
    }

    /** Appends byte `b` in register-select `mode`, high nibble first. */
    method AddByte(b: Byte, mode: Byte)
      requires Valid()
      modifies buffer, this`counter, this`pending
      ensures Valid()
      ensures pending == old(pending) + ByteFrames(b, mode, backlightval)
    {
      var highNibble := HighNibble(b);
      var lowNibble := LowNibble(b);
      AddNibble(PinState(highNibble, mode, backlightval));
      AddNibble(PinState(lowNibble, mode, backlightval));
    }

    /** Appends data[0..size) as data. The loop counter is 8 bits wide, so
        a size above 255 would never be reached. */
    method AddBytes(data: seq<Byte>, size: nat)
      requires Valid()
      requires size <= |data| && size < 256
      modifies buffer, this`counter, this`pending
      ensures Valid()
      ensures pending == old(pending) + EncodeBytes(data[..size], RS, backlightval)
    {
      var i := 0;
      while i < size
        invariant 0 <= i <= size
        invariant Valid()
        invariant pending == old(pending) + EncodeBytes(data[..i], RS, backlightval)
      {
        ghost var sent := EncodeBytes(data[..i], RS, backlightval);
        AddByte(data[i], RS);
        EncodePrefixStep(data, i, RS, backlightval);
        AppendAssoc(old(pending), sent, ByteFrames(data[i], RS, backlightval));
        i := i + 1;
      }
    }

    /** AddBytes with a loop index as wide as its 16-bit `size`: the loop
        ends after `size` iterations for every size the parameter can hold,
        having appended the frames of all of data[0..size). */
    method AddBytesWideIndex(data: seq<Byte>, size: nat)
      requires Valid()
      requires size <= |data| && size < 0x10000
      modifies buffer, this`counter, this`pending
      ensures Valid()
      ensures pending == old(pending) + EncodeBytes(data[..size], RS, backlightval)
    {
      var i := 0;
      while i < size
        invariant 0 <= i <= size
        invariant Valid()
        invariant pending == old(pending) + EncodeBytes(data[..i], RS, backlightval)
      {
        ghost var sent := EncodeBytes(data[..i], RS, backlightval);
        AddByte(data[i], RS);
        EncodePrefixStep(data, i, RS, backlightval);
        AppendAssoc(old(pending), sent, ByteFrames(data[i], RS, backlightval));
        i := i + 1;
      }
    }

    // ---------------------------------------------------------------
    // Data writing

    /** Transmits buffer[0..counter) to the expander and empties the buffer. */
    method Write()
      requires Valid()
      modifies this`counter, this`pending, this`log
      ensures Valid() && pending == []
      ensures log == old(log) + FlushEvents(addr, old(pending))
    {
      log := log + [Transmit(DeviceAddress(addr), buffer[..counter])];
      counter := 0;
      pending := [];
      DelayMicroseconds(40);
    }

    /** Sends the single expander value `data`. */
    method WriteExpander(data: Byte)
      requires Valid()
      modifies buffer, this`counter, this`pending, this`log
      ensures Valid() && pending == []
      ensures log == old(log) + FlushEvents(addr, old(pending) + [data])
    {
      AddValue(data);
      Write();
    }

    /** Sends one enable pulse carrying `nibble` with the backlight bit. */
    method WriteNibble(nibble: Byte)
      requires Valid()
      modifies buffer, this`counter, this`pending, this`log
      ensures Valid() && pending == []
      ensures log == old(log) + FlushEvents(addr, old(pending) + NibbleFrame(nibble | backlightval))
    {
      AddNibble(nibble | backlightval);
      Write();
    }

    /** Sends `cmd` in command mode and waits for it to execute. */
    method WriteCommand(cmd: Byte)
      requires Valid()
      modifies buffer, this`counter, this`pending, this`log
      ensures Valid() && pending == []
      ensures log == old(log) + CommandEvents(addr, old(pending), cmd, backlightval)
    {
      AddByte(cmd, 0);
      Write();
      DelayMicroseconds(40);
    }

    /** Sends the character `symb` in data mode. */
    method WriteSymbol(symb: Byte)
      requires Valid()
      modifies buffer, this`counter, this`pending, this`log
      ensures Valid() && pending == []
      ensures log == old(log) + FlushEvents(addr, old(pending) + ByteFrames(symb, RS, backlightval))
    {
      AddByte(symb, RS);
      Write();
    }

    /** Sends every character of the C string `str` as data, in one flush.
        The 8-bit index would wrap on a string of 256 or more characters and
        never stop, hence the bound on |str|. */
    method PrintString(str: seq<Byte>)
      requires Valid()
      requires IsCString(str) && |str| <= 256
      modifies buffer, this`counter, this`pending, this`log
      ensures Valid() && pending == []
      ensures log == old(log) + FlushEvents(addr, old(pending) + EncodeBytes(str[..|str| - 1], RS, backlightval))
    {
      var i := 0;
      while str[i] != 0
        invariant 0 <= i < |str|
        invariant Valid() && log == old(log)
        invariant pending == old(pending) + EncodeBytes(str[..i], RS, backlightval)
        decreases |str| - i
      {
        ghost var sent := EncodeBytes(str[..i], RS, backlightval);
        AddByte(str[i], RS);
        EncodePrefixStep(str, i, RS, backlightval);
        AppendAssoc(old(pending), sent, ByteFrames(str[i], RS, backlightval));
        i := i + 1;
      }
      Write();
    }

    /** Moves the cursor to DDRAM address `ddramAddr` and writes `ch` there. */
    method WriteSymbolCustomDDRAM(ddramAddr: Byte, ch: Byte)
      requires Valid()
      modifies buffer, this`counter, this`pending, this`log
      ensures Valid() && pending == []
      ensures log == old(log) + CommandEvents(addr, old(pending), LCD_SETDDRAMADDR | ddramAddr, backlightval)
                              + FlushEvents(addr, ByteFrames(ch, RS, backlightval))
    {
      WriteCommand(LCD_SETDDRAMADDR | ddramAddr);
      assert [] + ByteFrames(ch, RS, backlightval) == ByteFrames(ch, RS, backlightval);
      WriteSymbol(ch);
    }

    // ---------------------------------------------------------------
    // High level commands

    /** Clears the display, then waits for the slow command. */
    method Clear()
      requires Valid()
      modifies buffer, this`counter, this`pending, this`log
      ensures Valid() && pending == []
      ensures log == old(log) + CommandEvents(addr, old(pending), LCD_CLEARDISPLAY, backlightval) + [DelayMs(3)]
    {
      WriteCommand(LCD_CLEARDISPLAY);
      HalDelay(3);
    }

    /** Returns the cursor home, then waits for the slow command. */
    method Home()
      requires Valid()
      modifies buffer, this`counter, this`pending, this`log
      ensures Valid() && pending == []
      ensures log == old(log) + CommandEvents(addr, old(pending), LCD_RETURNHOME, backlightval) + [DelayMs(3)]
    {
      WriteCommand(LCD_RETURNHOME);
      HalDelay(3);
    }

    /** Moves the cursor. The row table has four entries and is read without
        a bound check, so the row left after the clamp must be below 4. */
    method SetCursor(col: Byte, row: Byte)
      requires Valid()
      requires ClampRow(row, rows) < 4
      modifies buffer, this`counter, this`pending, this`log
      ensures Valid() && pending == []
      ensures log == old(log) + CommandEvents(addr, old(pending), DdramCommand(col, ClampRow(row, rows)), backlightval)
    {
      var r := row;
      if r > rows {
        r := rows - 1;
      }
      WriteCommand(DdramCommand(col, r));
    }

    /** Turns the display off, keeping its contents. Only the LCD_DISPLAYON bit of displaycontrol changes. */
    method NoDisplay()
      requires Valid()
      modifies buffer, this`counter, this`pending, this`log, this`displaycontrol
      ensures Valid() && pending == []
      ensures displaycontrol == WithFlag(old(displaycontrol), LCD_DISPLAYON, false)
      ensures log == old(log) + CommandEvents(addr, old(pending), LCD_DISPLAYCONTROL | displaycontrol, backlightval)
    {
      displaycontrol := displaycontrol & !LCD_DISPLAYON;
      WriteCommand(LCD_DISPLAYCONTROL | displaycontrol);
    }

    /** Turns the display on. Only the LCD_DISPLAYON bit of displaycontrol changes. */
    method Display()
      requires Valid()
      modifies buffer, this`counter, this`pending, this`log, this`displaycontrol
      ensures Valid() && pending == []
      ensures displaycontrol == WithFlag(old(displaycontrol), LCD_DISPLAYON, true)
      ensures log == old(log) + CommandEvents(addr, old(pending), LCD_DISPLAYCONTROL | displaycontrol, backlightval)
    {
      displaycontrol := displaycontrol | LCD_DISPLAYON;
      WriteCommand(LCD_DISPLAYCONTROL | displaycontrol);
    }

    /** Hides the underline cursor. Only the LCD_CURSORON bit of displaycontrol changes. */
    method NoCursor()
      requires Valid()
      modifies buffer, this`counter, this`pending, this`log, this`displaycontrol
      ensures Valid() && pending == []
      ensures displaycontrol == WithFlag(old(displaycontrol), LCD_CURSORON, false)
      ensures log == old(log) + CommandEvents(addr, old(pending), LCD_DISPLAYCONTROL | displaycontrol, backlightval)
    {
      displaycontrol := displaycontrol & !LCD_CURSORON;
      WriteCommand(LCD_DISPLAYCONTROL | displaycontrol);
    }

    /** Shows the underline cursor. Only the LCD_CURSORON bit of displaycontrol changes. */
    method Cursor()
      requires Valid()
      modifies buffer, this`counter, this`pending, this`log, this`displaycontrol
      ensures Valid() && pending == []
      ensures displaycontrol == WithFlag(old(displaycontrol), LCD_CURSORON, true)
      ensures log == old(log) + CommandEvents(addr, old(pending), LCD_DISPLAYCONTROL | displaycontrol, backlightval)
    {
      displaycontrol := displaycontrol | LCD_CURSORON;
      WriteCommand(LCD_DISPLAYCONTROL | displaycontrol);
    }

    /** Stops the cursor blinking. Only the LCD_BLINKON bit of displaycontrol changes. */
    method NoBlink()
      requires Valid()
      modifies buffer, this`counter, this`pending, this`log, this`displaycontrol
      ensures Valid() && pending == []
      ensures displaycontrol == WithFlag(old(displaycontrol), LCD_BLINKON, false)
      ensures log == old(log) + CommandEvents(addr, old(pending), LCD_DISPLAYCONTROL | displaycontrol, backlightval)
    {
      displaycontrol := displaycontrol & !LCD_BLINKON;
      WriteCommand(LCD_DISPLAYCONTROL | displaycontrol);
    }

    /** Makes the cursor blink. Only the LCD_BLINKON bit of displaycontrol changes. */
    method Blink()
      requires Valid()
      modifies buffer, this`counter, this`pending, this`log, this`displaycontrol
      ensures Valid() && pending == []
      ensures displaycontrol == WithFlag(old(displaycontrol), LCD_BLINKON, true)
      ensures log == old(log) + CommandEvents(addr, old(pending), LCD_DISPLAYCONTROL | displaycontrol, backlightval)
    {
      displaycontrol := displaycontrol | LCD_BLINKON;
      WriteCommand(LCD_DISPLAYCONTROL | displaycontrol);
    }

    /** Shifts the whole display one position left without changing DDRAM. */
    method ScrollDisplayLeft()
      requires Valid()
      modifies buffer, this`counter, this`pending, this`log
      ensures Valid() && pending == []
      ensures log == old(log) + CommandEvents(addr, old(pending), LCD_CURSORSHIFT | LCD_DISPLAYMOVE | LCD_MOVELEFT, backlightval)
    {
      WriteCommand(LCD_CURSORSHIFT | LCD_DISPLAYMOVE | LCD_MOVELEFT);
    }

    /** Shifts the whole display one position right without changing DDRAM. */
    method ScrollDisplayRight()
      requires Valid()
      modifies buffer, this`counter, this`pending, this`log
      ensures Valid() && pending == []
      ensures log == old(log) + CommandEvents(addr, old(pending), LCD_CURSORSHIFT | LCD_DISPLAYMOVE | LCD_MOVERIGHT, backlightval)
    {
      WriteCommand(LCD_CURSORSHIFT | LCD_DISPLAYMOVE | LCD_MOVERIGHT);
    }

    /** Text flows left to right. Only the LCD_ENTRYLEFT bit of displaymode changes. */
    method LeftToRight()
      requires Valid()
      modifies buffer, this`counter, this`pending, this`log, this`displaymode
      ensures Valid() && pending == []
      ensures displaymode == WithFlag(old(displaymode), LCD_ENTRYLEFT, true)
      ensures log == old(log) + CommandEvents(addr, old(pending), LCD_ENTRYMODESET | displaymode, backlightval)
    {
      displaymode := displaymode | LCD_ENTRYLEFT;
      WriteCommand(LCD_ENTRYMODESET | displaymode);
    }

    /** Text flows right to left. Only the LCD_ENTRYLEFT bit of displaymode changes. */
    method RightToLeft()
      requires Valid()
      modifies buffer, this`counter, this`pending, this`log, this`displaymode
      ensures Valid() && pending == []
      ensures displaymode == WithFlag(old(displaymode), LCD_ENTRYLEFT, false)
      ensures log == old(log) + CommandEvents(addr, old(pending), LCD_ENTRYMODESET | displaymode, backlightval)
    {
      displaymode := displaymode & !LCD_ENTRYLEFT;
      WriteCommand(LCD_ENTRYMODESET | displaymode);
    }

    /** Each character shifts the display (right-justifies from the cursor). Only the LCD_ENTRYSHIFTINCREMENT bit of displaymode changes. */
    method Autoscroll()
      requires Valid()
      modifies buffer, this`counter, this`pending, this`log, this`displaymode
      ensures Valid() && pending == []
      ensures displaymode == WithFlag(old(displaymode), LCD_ENTRYSHIFTINCREMENT, true)
      ensures log == old(log) + CommandEvents(addr, old(pending), LCD_ENTRYMODESET | displaymode, backlightval)
    {
      displaymode := displaymode | LCD_ENTRYSHIFTINCREMENT;
      WriteCommand(LCD_ENTRYMODESET | displaymode);
    }

    /** Characters move the cursor, not the display. Only the LCD_ENTRYSHIFTINCREMENT bit of displaymode changes. */
    method NoAutoscroll()
      requires Valid()
      modifies buffer, this`counter, this`pending, this`log, this`displaymode
      ensures Valid() && pending == []
      ensures displaymode == WithFlag(old(displaymode), LCD_ENTRYSHIFTINCREMENT, false)
      ensures log == old(log) + CommandEvents(addr, old(pending), LCD_ENTRYMODESET | displaymode, backlightval)
    {
      displaymode := displaymode & !LCD_ENTRYSHIFTINCREMENT;
      WriteCommand(LCD_ENTRYMODESET | displaymode);
    }

    /** Defines glyph `location` (only its low three bits count) from the
        first 8 or 10 rows of `charmap`, chosen by the character size. */
    method CreateChar(location: Byte, charmap: seq<Byte>)
      requires Valid()
      requires GlyphRows(charsize) <= |charmap|
      modifies buffer, this`counter, this`pending, this`log
      ensures Valid() && pending == []
      ensures log == old(log) + CommandEvents(addr, old(pending), CgramCommand(location), backlightval)
                              + FlushEvents(addr, EncodeBytes(charmap[..GlyphRows(charsize)], RS, backlightval))
    {
      var loc := location & 0x7;
      WriteCommand(LCD_SETCGRAMADDR | (loc << 3));
      var symbolRows := if charsize != 0 then 10 else 8;
      AddBytes(charmap, symbolRows);
      assert pending == [] + EncodeBytes(charmap[..GlyphRows(charsize)], RS, backlightval);
      assert [] + EncodeBytes(charmap[..GlyphRows(charsize)], RS, backlightval)
             == EncodeBytes(charmap[..GlyphRows(charsize)], RS, backlightval);
      Write();
    }

    /** Switches the backlight off; the expander receives the bare backlight value. */
    method NoBacklight()
      requires Valid()
      modifies buffer, this`counter, this`pending, this`log, this`backlightval
      ensures Valid() && pending == []
      ensures backlightval == LCD_NOBACKLIGHT
      ensures log == old(log) + FlushEvents(addr, old(pending) + [LCD_NOBACKLIGHT])
    {
      backlightval := LCD_NOBACKLIGHT;
      WriteExpander(backlightval);
    }

    /** Switches the backlight on; the expander receives the bare backlight value. */
    method Backlight()
      requires Valid()
      modifies buffer, this`counter, this`pending, this`log, this`backlightval
      ensures Valid() && pending == []
      ensures backlightval == LCD_BACKLIGHT
      ensures log == old(log) + FlushEvents(addr, old(pending) + [LCD_BACKLIGHT])
    {
      backlightval := LCD_BACKLIGHT;
      WriteExpander(backlightval);
    }

    /** Switches the backlight on exactly when `newVal` is nonzero. */
    method SetBacklight(newVal: Byte)
      requires Valid()
      modifies buffer, this`counter, this`pending, this`log, this`backlightval
      ensures Valid() && pending == []
      ensures backlightval == if newVal != 0 then LCD_BACKLIGHT else LCD_NOBACKLIGHT
      ensures log == old(log) + FlushEvents(addr, old(pending) + [backlightval])
    {
      if newVal != 0 {
        Backlight();
      } else {
        NoBacklight();
      }
    }

    // ---------------------------------------------------------------
    // Cold start

    /** Binds the display, chooses the function-set flags and runs the 4-bit
        initialisation handshake of the HD44780U datasheet (figure 24),
        leaving the display on, cursor and blink off, left-to-right entry,
        the backlight off and the cursor home. */
    method Init(lcdAddr: Byte, lcdCols: Byte, lcdRows: Byte, lcdCharsize: Byte)
      requires Valid()
      modifies buffer, this`counter, this`pending, this`log
      modifies this`addr, this`cols, this`rows, this`charsize, this`backlightval,
               this`displayfunction, this`displaycontrol, this`displaymode
      ensures Valid() && pending == []
      ensures addr == lcdAddr && cols == lcdCols && rows == lcdRows && charsize == lcdCharsize
      ensures backlightval == LCD_NOBACKLIGHT && displayfunction == InitFunctionFlags(lcdRows, lcdCharsize)
      ensures displaycontrol == LCD_DISPLAYON && displaymode == LCD_ENTRYLEFT
      ensures log == old(log) + ResetEvents(addr, old(pending)) + StartupEvents(addr, displayfunction)
    {
      addr, cols, rows, charsize := lcdAddr, lcdCols, lcdRows, lcdCharsize;
      backlightval := LCD_NOBACKLIGHT;
      displayfunction := InitFunctionFlags(rows, charsize);
      ColdStart();
    }

    /** The part of Init after the settings are bound: the reset handshake,
        then the start-up commands. */
    method ColdStart()
      requires Valid() && backlightval == LCD_NOBACKLIGHT
      modifies buffer, this`counter, this`pending, this`log, this`displaycontrol, this`displaymode
      ensures Valid() && pending == []
      ensures displaycontrol == LCD_DISPLAYON && displaymode == LCD_ENTRYLEFT
      ensures log == old(log) + ResetEvents(addr, old(pending)) + StartupEvents(addr, displayfunction)
    {
      ResetToFourBitMode();
      SendStartupCommands();
    }

    /** The first half of Init: the power-on wait, the expander reset and the
        three 8-bit function-set nibbles followed by the switch to 4 bits. */
    method ResetToFourBitMode()
      requires Valid() && backlightval == LCD_NOBACKLIGHT
      modifies buffer, this`counter, this`pending, this`log
      ensures Valid() && pending == []
      ensures log == old(log) + ResetEvents(addr, old(pending))
    {
      assert (0x03 << 4) | backlightval == 0x30 && (0x02 << 4) | backlightval == 0x20;
      assert [] + NibbleFrame(0x30) == NibbleFrame(0x30) && [] + NibbleFrame(0x20) == NibbleFrame(0x20);
      ghost var log0, p0 := log, pending;
      HalDelay(50);
      WriteExpander(0x00);
      WriteNibble(0x03 << 4);
      DelayMicroseconds(4500);
      WriteNibble(0x03 << 4);
      DelayMicroseconds(150);
      WriteNibble(0x03 << 4);
      WriteNibble(0x02 << 4);
      assert log == log0 + [DelayMs(50)]
                    + FlushEvents(addr, p0 + [0x00])
                    + FlushEvents(addr, NibbleFrame(0x30)) + [DelayUs(4500)]
                    + FlushEvents(addr, NibbleFrame(0x30)) + [DelayUs(150)]
                    + FlushEvents(addr, NibbleFrame(0x30))
                    + FlushEvents(addr, NibbleFrame(0x20));
      ResetEventsInOrder(log0, addr, p0);
    }

    /** The second half of Init: function set, display on with cursor and
        blink off, clear, left-to-right entry, home. */
    method SendStartupCommands()
      requires Valid() && pending == [] && backlightval == LCD_NOBACKLIGHT
      modifies buffer, this`counter, this`pending, this`log, this`displaycontrol, this`displaymode
      ensures Valid() && pending == []
      ensures displaycontrol == LCD_DISPLAYON && displaymode == LCD_ENTRYLEFT
      ensures log == old(log) + StartupEvents(addr, displayfunction)
    {
      ghost var log0 := log;
      StartDisplay();
      StartEntryMode();
      StartupEventsInOrder(log0, addr, displayfunction);
    }

    /** Function set, then the display on with cursor and blink off, then clear. */
    method StartDisplay()
      requires Valid() && pending == [] && backlightval == LCD_NOBACKLIGHT
      modifies buffer, this`counter, this`pending, this`log, this`displaycontrol
      ensures Valid() && pending == []
      ensures displaycontrol == LCD_DISPLAYON
      ensures log == old(log)
                     + CommandEvents(addr, [], LCD_FUNCTIONSET | displayfunction, LCD_NOBACKLIGHT)
                     + CommandEvents(addr, [], LCD_DISPLAYCONTROL | LCD_DISPLAYON, LCD_NOBACKLIGHT)
                     + CommandEvents(addr, [], LCD_CLEARDISPLAY, LCD_NOBACKLIGHT) + [DelayMs(3)]
    {
      WriteCommand(LCD_FUNCTIONSET | displayfunction);
      displaycontrol := LCD_DISPLAYON | LCD_CURSOROFF | LCD_BLINKOFF;
      assert displaycontrol | LCD_DISPLAYON == LCD_DISPLAYON;
      Display();
      Clear();
    }

    /** Left-to-right entry without display shift, then home. */
    method StartEntryMode()
      requires Valid() && pending == [] && backlightval == LCD_NOBACKLIGHT
      modifies buffer, this`counter, this`pending, this`log, this`displaymode
      ensures Valid() && pending == []
      ensures displaymode == LCD_ENTRYLEFT
      ensures log == old(log)
                     + CommandEvents(addr, [], LCD_ENTRYMODESET | LCD_ENTRYLEFT, LCD_NOBACKLIGHT)
                     + CommandEvents(addr, [], LCD_RETURNHOME, LCD_NOBACKLIGHT) + [DelayMs(3)]
    {
      displaymode := LCD_ENTRYLEFT | LCD_ENTRYSHIFTDECREMENT;
      assert displaymode == LCD_ENTRYLEFT;
      WriteCommand(LCD_ENTRYMODESET | displaymode);
      Home();
    }
  }
}

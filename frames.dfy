/** The nibble/byte encoder: how one logical byte becomes the expander pin
    states that clock it into an HD44780 in 4-bit mode, how a run of bytes is
    laid out in the transmit buffer, and what the 8-bit buffer counter lets
    through when a run is flushed. */
module Frames {
  import opened Hd44780

  /** The register-select and backlight values the driver sends with: a mode
      of 0 (command) or RS (data), a backlight of LCD_NOBACKLIGHT or
      LCD_BACKLIGHT. */
  predicate PinsOk(mode: Byte, bl: Byte) {
    mode & !RS == 0 && bl & !LCD_BACKLIGHT == 0
  }

  /** The upper four bits of `b`, left in place. */
  function HighNibble(b: Byte): (n: Byte)
    ensures n & 0x0F == 0 && n >> 4 == b >> 4
  {
    b & 0xF0
  }

  /** The lower four bits of `b`, moved up into bits 4-7. */
  function LowNibble(b: Byte): (n: Byte)
    ensures n & 0x0F == 0 && n >> 4 == b & 0x0F
  {
    (b << 4) & 0xF0
  }

  /** Both nibbles travel in bits 4-7, clear of the control pins, and
      together they rebuild the byte. */
  lemma NibblesSplitByte(b: Byte)
    ensures HighNibble(b) & 0x0F == 0 && LowNibble(b) & 0x0F == 0
    ensures HighNibble(b) | (LowNibble(b) >> 4) == b
  {
  }

  /** One enable pulse: the pin state `n` with enable low, high, low again. */
  function NibbleFrame(n: Byte): (r: seq<Byte>)
    ensures |r| == 3
  {
    [n, n | EN, n]
  }

  /** All three values of a pulse show the same data and control lines as
      `n`; when `n` itself leaves enable low, only the middle value raises
      it, so the controller sees exactly one falling edge. */
  lemma NibbleFramePulse(n: Byte)
    ensures forall i :: 0 <= i < 3 ==> NibbleFrame(n)[i] & !EN == n & !EN
    ensures n & EN == 0 ==> forall i :: 0 <= i < 3 ==> (NibbleFrame(n)[i] & EN != 0 <==> i == 1)
  {
  }

  /** Recovers a byte from the first four values of its six-value frame:
      the high nibble from value 0 and the low nibble from value 3. */
  function DecodeByte(f: seq<Byte>): Byte
    requires |f| >= 4
  {
    (f[0] & 0xF0) | (f[3] >> 4)
  }

  /** The expander value that presents nibble `n` (in bits 4-7) with
      register-select `mode` and backlight `bl`. */
  function PinState(n: Byte, mode: Byte, bl: Byte): (v: Byte)
    ensures n & 0x0F == 0 && PinsOk(mode, bl) ==> v & 0xF0 == n && v & 0x0F == mode | bl && v & (EN | RW) == 0
  {
    n | bl | mode
  }

  /** The six expander values for byte `b` sent in register-select `mode` with
      backlight bits `bl`: a pulse for the high nibble, then one for the low
      nibble. */
  function ByteFrames(b: Byte, mode: Byte, bl: Byte): (r: seq<Byte>)
    ensures |r| == 6
  {
    NibbleFrame(PinState(HighNibble(b), mode, bl)) + NibbleFrame(PinState(LowNibble(b), mode, bl))
  }

  /** For the driver's modes and backlight values the frame gives back the
      byte, the mode and the backlight; only values 1 and 4 raise enable,
      none raises read/write, and the three high-nibble values come before
      the three low-nibble ones. */
  lemma ByteFramesLayout(b: Byte, mode: Byte, bl: Byte)
    requires PinsOk(mode, bl)
    ensures DecodeByte(ByteFrames(b, mode, bl)) == b
    ensures forall i :: 0 <= i < 6 ==>
              var v := ByteFrames(b, mode, bl)[i];
              (v & EN != 0 <==> i == 1 || i == 4) && v & RW == 0 && v & (RS | LCD_BACKLIGHT) == mode | bl
    ensures forall i :: 0 <= i < 6 ==>
              ByteFrames(b, mode, bl)[i] & 0xF0 == (if i < 3 then HighNibble(b) else LowNibble(b))
  {
  }

  /** The frames of every byte of `s`, in order. */
  function EncodeBytes(s: seq<Byte>, mode: Byte, bl: Byte): (r: seq<Byte>)
    ensures |r| == 6 * |s|
    ensures forall i :: 0 <= i < |s| ==> r[6 * i..6 * i + 6] == ByteFrames(s[i], mode, bl)
  {
    if s == [] then []
    else
      var rest := EncodeBytes(s[1..], mode, bl);
      var r := ByteFrames(s[0], mode, bl) + rest;
      assert forall i :: 1 <= i < |s| ==> r[6 * i..6 * i + 6] == rest[6 * (i - 1)..6 * (i - 1) + 6];
      assert forall i :: 1 <= i < |s| ==> s[i] == s[1..][i - 1];
      r
  }

  /** Recovers the bytes from a run of six-value frames. */
  function DecodeBytes(r: seq<Byte>): seq<Byte>
    requires |r| % 6 == 0
    decreases |r|
  {
    if r == [] then [] else [DecodeByte(r[..6])] + DecodeBytes(r[6..])
  }

  lemma {:induction false} EncodeBytesAppend(a: seq<Byte>, b: seq<Byte>, mode: Byte, bl: Byte)
    ensures EncodeBytes(a + b, mode, bl) == EncodeBytes(a, mode, bl) + EncodeBytes(b, mode, bl)
    decreases |a|
  {
    if a == [] {
      assert a + b == b;
    } else {
      assert (a + b)[1..] == a[1..] + b;
      EncodeBytesAppend(a[1..], b, mode, bl);
    }
  }

  /** Extending a prefix of `data` by its next byte extends the encoding by
      that byte's frames. */
  lemma EncodePrefixStep(data: seq<Byte>, i: nat, mode: Byte, bl: Byte)
    requires i < |data|
    ensures EncodeBytes(data[..i + 1], mode, bl) == EncodeBytes(data[..i], mode, bl) + ByteFrames(data[i], mode, bl)
  {
    assert data[..i + 1] == data[..i] + [data[i]];
    EncodeBytesAppend(data[..i], [data[i]], mode, bl);
  }

  /** Concatenation is associative. */
  lemma AppendAssoc<T>(a: seq<T>, b: seq<T>, c: seq<T>)
    ensures a + b + c == a + (b + c)
  {
  }

  /** Decoding the frames of a run of bytes gives back the run. */
  lemma {:induction false} DecodeEncodeBytes(s: seq<Byte>, mode: Byte, bl: Byte)
    requires PinsOk(mode, bl)
    ensures DecodeBytes(EncodeBytes(s, mode, bl)) == s
    decreases |s|
  {
    if s != [] {
      var head, rest := ByteFrames(s[0], mode, bl), EncodeBytes(s[1..], mode, bl);
      var r := EncodeBytes(s, mode, bl);
      ByteFramesLayout(s[0], mode, bl);
      assert r == head + rest;
      assert r[..6] == head && r[6..] == rest;
      assert DecodeBytes(r) == [DecodeByte(head)] + DecodeBytes(rest);
      DecodeEncodeBytes(s[1..], mode, bl);
    }
  }

  /** What buffer[0..buffer_counter) holds after the values `p` have been
      appended since the last flush: the 8-bit counter wraps every 256
      values, starting the buffer over, so only the last |p| % 256 values
      remain visible. */
  function Buffered(p: seq<Byte>): (r: seq<Byte>)
    ensures |r| == |p| % 256
    decreases |p|
  {
    if |p| < 256 then p else Buffered(p[256..])
  }

  /** What the buffer shows is the tail of what was appended. */
  lemma {:induction false} BufferedIsSuffix(p: seq<Byte>)
    ensures Buffered(p) == p[|p| - |p| % 256..]
    decreases |p|
  {
    if |p| >= 256 {
      BufferedIsSuffix(p[256..]);
      assert p[256..][|p| - 256 - |p| % 256..] == p[|p| - |p| % 256..];
    }
  }

  /** Fewer than 256 values are shown whole. */
  lemma BufferedShort(p: seq<Byte>)
    requires |p| < 256
    ensures Buffered(p) == p
  {
  }

  /** Appending one value either extends the visible contents by it or, when
      the counter wraps to zero, empties them. */
  lemma {:induction false} BufferedSnoc(p: seq<Byte>, v: Byte)
    ensures Buffered(p + [v]) == if |p| % 256 == 255 then [] else Buffered(p) + [v]
    decreases |p|
  {
    var q := p + [v];
    if |p| == 255 {
      assert q[256..] == [];
    } else if |p| >= 256 {
      var t := p[256..];
      assert q[256..] == t + [v];
      assert Buffered(q) == Buffered(t + [v]);
      assert Buffered(p) == Buffered(t);
      assert |t| % 256 == |p| % 256;
      BufferedSnoc(t, v);
    }
  }

  /** A flush transmits everything appended since the previous one exactly
      when fewer than 256 values were appended. */
  lemma BufferedAllIff(p: seq<Byte>)
    ensures Buffered(p) == p <==> |p| < 256
  {
    if |p| >= 256 {
      assert |Buffered(p)| < |p|;
    }
  }

  /** A string of data bytes reaches the wire whole in one flush exactly when
      it has at most 42 characters: 42 * 6 = 252 values fit below the
      counter's wrap, 43 * 6 = 258 do not. */
  lemma EncodedStringFitsIff(text: seq<Byte>, mode: Byte, bl: Byte)
    ensures Buffered(EncodeBytes(text, mode, bl)) == EncodeBytes(text, mode, bl) <==> |text| <= 42
  {
    BufferedAllIff(EncodeBytes(text, mode, bl));
  }

  /** A 43-character string makes 258 values; the counter wraps after 256 of
      them, so its flush carries only the last two. */
  lemma LongStringSendsOnlyASuffix(text: seq<Byte>, bl: Byte)
    requires |text| == 43
    ensures Buffered(EncodeBytes(text, RS, bl)) == EncodeBytes(text, RS, bl)[256..]
    ensures |Buffered(EncodeBytes(text, RS, bl))| == 2
  {
  }

  /** Concatenation of a sequence of transmissions. */
  function Concat(ss: seq<seq<Byte>>): seq<Byte>
  {
    if ss == [] then [] else ss[0] + Concat(ss[1..])
  }

  /** The transmissions a string of data bytes needs when the buffer is
      flushed after every 42 characters: each fits below the counter's wrap,
      so each reaches the wire whole, and together they carry the frames of
      the whole string in order. */
  function PrintChunks(text: seq<Byte>, bl: Byte): (r: seq<seq<Byte>>)
    ensures forall k :: 0 <= k < |r| ==> |r[k]| <= 252 && Buffered(r[k]) == r[k]
    ensures Concat(r) == EncodeBytes(text, RS, bl)
    decreases |text|
  {
    if |text| <= 42 then
      var e := EncodeBytes(text, RS, bl);
      BufferedShort(e);
      [e]
    else
      var first := EncodeBytes(text[..42], RS, bl);
      BufferedShort(first);
      var rest := PrintChunks(text[42..], bl);
      EncodeBytesAppend(text[..42], text[42..], RS, bl);
      assert text[..42] + text[42..] == text;
      var r := [first] + rest;
      assert r[0] == first && r[1..] == rest;
      assert forall k :: 1 <= k < |r| ==> r[k] == rest[k - 1];
      r
  }
}

/** Hexadecimal text as the emulator writes and reads it: `sprintf('%02X')`,
    `sprintf('%04X')`, the `0x%02X` opcode keys of the opcode table, and
    PHP's `hexdec`, which reads them back. */
module Hex {
  import opened Wrappers
  import opened Bits

  const DIGITS: string := "0123456789ABCDEF"

  /** The value of one hexadecimal digit, in either case; nothing for any
      other character. */
  function DigitValue(c: char): (r: Option<int>)
    ensures r.Some? ==> 0 <= r.value < 16
    ensures r.Some? <==> ('0' <= c <= '9' || 'A' <= c <= 'F' || 'a' <= c <= 'f')
  {
    if '0' <= c <= '9' then Some(c as int - '0' as int)
    else if 'A' <= c <= 'F' then Some(c as int - 'A' as int + 10)
    else if 'a' <= c <= 'f' then Some(c as int - 'a' as int + 10)
    else None
  }

  /** The upper-case digit for `d`; reading it back gives `d`. */
  function Digit(d: int): (c: char)
    requires 0 <= d < 16
    ensures DigitValue(c) == Some(d)
    ensures '0' <= c <= '9' || 'A' <= c <= 'F'
  {
    DIGITS[d]
  }

  /** `hexdec`: the hexadecimal digits of `s` read as one number. PHP skips
      every character that is not a hexadecimal digit, so the `x` of a
      `0x` prefix counts for nothing. */
  function HexDec(s: string): nat
  {
    if s == [] then 0
    else
      var init := HexDec(s[..|s| - 1]);
      match DigitValue(s[|s| - 1])
      case None => init
      case Some(d) => init * 16 + d
  }

  lemma HexDecSnoc(s: string, c: char)
    ensures HexDec(s + [c]) == if DigitValue(c).Some? then HexDec(s) * 16 + DigitValue(c).value else HexDec(s)
  {
    assert (s + [c])[..|s|] == s;
  }

  /** `sprintf('%02X', b)`. */
  function Hex2(b: Byte): (s: string)
    ensures |s| == 2 && HexDec(s) == b
    ensures forall i :: 0 <= i < 2 ==> DigitValue(s[i]).Some?
  {
    var s := [Digit(b / 16), Digit(b % 16)];
    HexDecSnoc([], s[0]);
    HexDecSnoc([s[0]], s[1]);
    s
  }

  /** `sprintf('%04X', w)`. */
  function Hex4(w: Word): (s: string)
    ensures |s| == 4 && HexDec(s) == w
  {
    var hi := Hex2(w / 256);
    var lo := Hex2(w % 256);
    HexDecSnoc(hi, lo[0]);
    HexDecSnoc(hi + [lo[0]], lo[1]);
    assert hi + lo == (hi + [lo[0]]) + [lo[1]];
    hi + lo
  }

  /** The key the opcode table files a byte under: `sprintf('0x%02X', b)`.
      `hexdec` reads the byte back from it, so no two bytes share a key. */
  function OpcodeKey(b: Byte): (k: string)
    ensures |k| == 4 && k[..2] == "0x" && k[2..] == Hex2(b)
    ensures HexDec(k) == b
  {
    var h := Hex2(b);
    HexDecSnoc([], '0');
    HexDecSnoc("0", 'x');
    HexDecSnoc("0x", h[0]);
    HexDecSnoc("0x" + [h[0]], h[1]);
    assert "0x" + h == ("0x" + [h[0]]) + [h[1]];
    "0x" + h
  }

  lemma OpcodeKeyInjective(b: Byte, c: Byte)
    ensures OpcodeKey(b) == OpcodeKey(c) <==> b == c
  {
  }

  /** The base-16 digits of `n`, most significant first, with no leading
      zero except for zero itself. */
  function Digits(n: nat): (s: string)
    ensures |s| >= 1 && HexDec(s) == n
    ensures forall i :: 0 <= i < |s| ==> '0' <= s[i] <= '9' || 'A' <= s[i] <= 'F'
    ensures n < 16 ==> |s| == 1
    ensures n < 256 ==> |s| <= 2
    ensures n < 0x1_0000 ==> |s| <= 4
    decreases n
  {
    if n < 16 then
      HexDecSnoc([], Digit(n));
      [Digit(n)]
    else
      var init := Digits(n / 16);
      HexDecSnoc(init, Digit(n % 16));
      init + [Digit(n % 16)]
  }

  /** Leading zeros add nothing to what `hexdec` reads. */
  lemma {:induction false} HexDecLeadingZeros(k: nat, s: string)
    ensures HexDec(seq(k, _ => '0') + s) == HexDec(s)
    decreases |s|
  {
    var z: string := seq(k, _ => '0');
    if s == [] {
      ZerosReadZero(k);
      assert z + s == z;
    } else {
      var init := s[..|s| - 1];
      HexDecLeadingZeros(k, init);
      assert z + s == (z + init) + [s[|s| - 1]];
      assert s == init + [s[|s| - 1]];
      HexDecSnoc(z + init, s[|s| - 1]);
      HexDecSnoc(init, s[|s| - 1]);
    }
  }

  lemma {:induction false} ZerosReadZero(k: nat)
    ensures HexDec(seq(k, _ => '0')) == 0
  {
    if k > 0 {
      ZerosReadZero(k - 1);
      assert seq(k, _ => '0') == seq(k - 1, _ => '0') + ['0'];
      HexDecSnoc(seq(k - 1, _ => '0'), '0');
    }
  }

  /** `sprintf('%0<width>X', n)`: the digits of `n`, padded with zeros on
      the left to at least `width` characters. */
  function HexPad(n: nat, width: nat): (s: string)
    ensures HexDec(s) == n
    ensures |s| >= width && |s| >= 1
    ensures forall i :: 0 <= i < |s| ==> '0' <= s[i] <= '9' || 'A' <= s[i] <= 'F'
  {
    var d := Digits(n);
    if |d| >= width then d
    else
      HexDecLeadingZeros(width - |d|, d);
      seq(width - |d|, _ => '0') + d
  }

  /** On a byte, `%02X` is exactly the two digits of `Hex2`. */
  lemma HexPadByte(b: Byte)
    ensures HexPad(b, 2) == Hex2(b)
  {
    assert Hex2(b) == [Digit(b / 16), Digit(b % 16)];
    if b < 16 {
      HexPadDigit(b);
      assert b / 16 == 0 && b % 16 == b;
    } else {
      HexPadTwoDigits(b);
    }
  }

  /** A single digit is padded with one zero. */
  lemma HexPadDigit(b: Byte)
    requires b < 16
    ensures HexPad(b, 2) == [Digit(0), Digit(b)]
  {
    assert Digits(b) == [Digit(b)];
    assert seq(1, _ => '0') == [Digit(0)];
  }

  /** Two digits need no padding. */
  lemma HexPadTwoDigits(b: Byte)
    requires b >= 16
    ensures HexPad(b, 2) == [Digit(b / 16), Digit(b % 16)]
  {
    assert Digits(b / 16) == [Digit(b / 16)];
    assert Digits(b) == [Digit(b / 16)] + [Digit(b % 16)];
  }
}

/** Python's `f"{v:08X}"` for a 32-bit unsigned value: upper-case hexadecimal
    digits, zero-padded on the left to eight places. */
module HexFormat {

  /** A Windows DWORD. */
  type Dword = x: int | 0 <= x < 0x1_0000_0000

  predicate IsUpperHexDigit(c: char) {
    '0' <= c <= '9' || 'A' <= c <= 'F'
  }

  predicate IsUpperHex(s: string) {
    forall k :: 0 <= k < |s| ==> IsUpperHexDigit(s[k])
  }

  function HexDigit(d: nat): (c: char)
    requires d < 16
    ensures IsUpperHexDigit(c)
  {
    if d < 10 then ('0' as int + d) as char else ('A' as int + (d - 10)) as char
  }

  function DigitValue(c: char): (d: nat)
    requires IsUpperHexDigit(c)
    ensures d < 16 && HexDigit(d) == c
  {
    if c <= '9' then c as int - '0' as int else c as int - 'A' as int + 10
  }

  function Pow16(n: nat): (p: nat)
    ensures p >= 1
  {
    if n == 0 then 1 else 16 * Pow16(n - 1)
  }

  /** The number a string of upper-case hex digits denotes, most significant
      digit first (Python's int(s, 16) on such a string). */
  function HexValue(s: string): nat
    requires IsUpperHex(s)
  {
    if s == [] then 0 else HexValue(s[..|s| - 1]) * 16 + DigitValue(s[|s| - 1])
  }

  /** The lowest `width` hex digits of v, most significant first. */
  function HexPad(v: nat, width: nat): (r: string)
    ensures |r| == width && IsUpperHex(r)
  {
    if width == 0 then [] else HexPad(v / 16, width - 1) + [HexDigit(v % 16)]
  }

  /** Padding a value that fits in `width` digits loses nothing. */
  lemma {:induction false} HexPadValue(v: nat, width: nat)
    requires v < Pow16(width)
    ensures HexValue(HexPad(v, width)) == v
  {
    if width > 0 {
      var r := HexPad(v, width);
      assert v / 16 < Pow16(width - 1);
      HexPadValue(v / 16, width - 1);
      assert r[..|r| - 1] == HexPad(v / 16, width - 1);
      assert DigitValue(r[|r| - 1]) == v % 16 by {
        var d := DigitValue(r[|r| - 1]);
        assert HexDigit(d) == HexDigit(v % 16);
      }
    }
  }

  /** A digit string of length n denotes a number below 16^n. */
  lemma {:induction false} HexValueBound(s: string)
    requires IsUpperHex(s)
    ensures HexValue(s) < Pow16(|s|)
  {
    if s != [] {
      HexValueBound(s[..|s| - 1]);
    }
  }

  /** Any digit string is the padded rendering of its own value. */
  lemma {:induction false} HexPadOfValue(s: string)
    requires IsUpperHex(s)
    ensures HexPad(HexValue(s), |s|) == s
  {
    if s != [] {
      var p := s[..|s| - 1];
      var d := DigitValue(s[|s| - 1]);
      var v := HexValue(s);
      assert v == HexValue(p) * 16 + d;
      assert v / 16 == HexValue(p) && v % 16 == d;
      HexPadOfValue(p);
      assert s == p + [s[|s| - 1]];
    }
  }

  /** f"{v:08X}" for a DWORD: exactly eight upper-case hex digits denoting v. */
  function FormatSerial(v: Dword): (r: string)
    ensures |r| == 8 && IsUpperHex(r) && HexValue(r) == v
  {
    assert Pow16(8) == 0x1_0000_0000;
    HexPadValue(v, 8);
    HexPad(v, 8)
  }

  /** Every eight-digit upper-case hex string is the rendering of exactly one
      DWORD, so the rendering loses no information and has no other shape. */
  lemma FormatSerialOnto(s: string)
    requires |s| == 8 && IsUpperHex(s)
    ensures HexValue(s) < 0x1_0000_0000
    ensures FormatSerial(HexValue(s)) == s
  {
    HexValueBound(s);
    assert Pow16(8) == 0x1_0000_0000;
    HexPadOfValue(s);
  }
}

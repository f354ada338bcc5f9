/** Colour handling: `parseInt(text, 16)` for the `#RRGGBB` colours the welcome embed stores,
    and the six-digit form in which such colours are written. */
module Colour {

  /** The default embed colour the dashboard stores (principal.js) and shows. */
  const BRAND_COLOUR: string := "#5865F2"

  /** The numeric result of `parseInt`, which is NaN when no digit can be read. */
  datatype HexInt = NaN | Int(value: int)

  predicate IsHexDigit(c: char) {
    ('0' <= c <= '9') || ('a' <= c <= 'f') || ('A' <= c <= 'F')
  }

  function DigitValue(c: char): (d: nat)
    requires IsHexDigit(c)
    ensures d < 16
  {
    if '0' <= c <= '9' then c as int - '0' as int
    else if 'a' <= c <= 'f' then c as int - 'a' as int + 10
    else c as int - 'A' as int + 10
  }

  predicate AllHex(s: string) {
    forall k :: 0 <= k < |s| ==> IsHexDigit(s[k])
  }

  /** Length of the longest prefix of `s` made of hexadecimal digits. */
  function HexPrefixLength(s: string): (n: nat)
    ensures n <= |s| && AllHex(s[..n])
    ensures n < |s| ==> !IsHexDigit(s[n])
    decreases |s|
  {
    if s != [] && IsHexDigit(s[0]) then
      var rest := HexPrefixLength(s[1..]);
      assert s[..rest + 1] == [s[0]] + s[1..][..rest];
      rest + 1
    else 0
  }

  /** The value of a string of hexadecimal digits, most significant first. */
  function HexValue(s: string): nat
    requires AllHex(s)
    decreases |s|
  {
    if s == [] then 0 else HexValue(s[..|s| - 1]) * 16 + DigitValue(s[|s| - 1])
  }

  /** `parseInt(s, 16)`: an optional sign, an optional `0x`/`0X`, then the longest run of
      hexadecimal digits; NaN when that run is empty. */
  function ParseIntHex(s: string): (r: HexInt)
    ensures r.NaN? <==> HexPrefixLength(StripHexPrefix(Unsigned(s))) == 0
  {
    var negative := |s| > 0 && s[0] == '-';
    var body := StripHexPrefix(Unsigned(s));
    var n := HexPrefixLength(body);
    if n == 0 then NaN
    else Int(if negative then -(HexValue(body[..n]) as int) else HexValue(body[..n]))
  }

  function Unsigned(s: string): string {
    if |s| > 0 && (s[0] == '-' || s[0] == '+') then s[1..] else s
  }

  function StripHexPrefix(s: string): string {
    if |s| >= 2 && s[0] == '0' && (s[1] == 'x' || s[1] == 'X') then s[2..] else s
  }

  /** A string that is all hexadecimal digits, starts with no sign and no `0x`, parses to its
      value. */
  lemma ParseIntHexOfDigits(s: string)
    requires |s| > 0 && AllHex(s)
    ensures ParseIntHex(s) == Int(HexValue(s))
  {
    assert IsHexDigit(s[0]);
    if |s| >= 2 {
      assert IsHexDigit(s[1]);
    }
    assert StripHexPrefix(Unsigned(s)) == s;
    assert s[..|s|] == s;
  }

  function Pow16(k: nat): nat {
    if k == 0 then 1 else 16 * Pow16(k - 1)
  }

  function HexChar(d: nat): (c: char)
    requires d < 16
    ensures IsHexDigit(c) && DigitValue(c) == d
  {
    "0123456789abcdef"[d]
  }

  /** The last `width` hexadecimal digits of `n`, zero-padded, lower case. */
  function FormatHex(n: nat, width: nat): (s: string)
    ensures |s| == width && AllHex(s)
    decreases width
  {
    if width == 0 then "" else FormatHex(n / 16, width - 1) + [HexChar(n % 16)]
  }

  lemma {:induction false} HexValueOfFormat(n: nat, width: nat)
    requires n < Pow16(width)
    ensures HexValue(FormatHex(n, width)) == n
    decreases width
  {
    if width > 0 {
      HexValueOfFormat(n / 16, width - 1);
      var s := FormatHex(n, width);
      assert s[..|s| - 1] == FormatHex(n / 16, width - 1);
    }
  }

  /** A colour written as `#` and six hexadecimal digits (the form an HTML colour input
      submits) is read back by the join handler's `parseInt(..., 16)` as the same 24-bit value. */
  lemma {:induction false} ParseFormattedColour(n: nat)
    requires n < 0x1000000
    ensures ("#" + FormatHex(n, 6))[1..] == FormatHex(n, 6)
    ensures ParseIntHex(FormatHex(n, 6)) == Int(n)
  {
    assert Pow16(6) == 0x1000000;
    HexValueOfFormat(n, 6);
    ParseIntHexOfDigits(FormatHex(n, 6));
  }

  /** The dashboard's default colour is 0x5865F2 at send time. */
  lemma BrandColourValue()
    ensures ParseIntHex(BRAND_COLOUR[1..]) == Int(0x5865F2)
  {
    var d := BRAND_COLOUR[1..];
    assert d == "5865F2";
    assert AllHex(d);
    ParseIntHexOfDigits(d);
    assert "5"[..0] == "" && "58"[..1] == "5" && "586"[..2] == "58";
    assert "5865"[..3] == "586" && "5865F"[..4] == "5865" && "5865F2"[..5] == "5865F";
    assert HexValue("5") == 0x5;
    assert HexValue("58") == 0x58;
    assert HexValue("586") == 0x586;
    assert HexValue("5865") == 0x5865;
    assert HexValue("5865F") == 0x5865F;
    assert HexValue("5865F2") == 0x5865F2;
  }
}

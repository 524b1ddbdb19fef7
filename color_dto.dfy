/**
 * ImoColorDto: parses "#rrggbb" and "#rrggbbaa" colour strings into an
 * RGBA colour and records in `ok` whether every digit was valid
 * (src/internal_model/lomse_internal_model.cpp, ImoColorDto).
 */
module ColorDto {

  /** Int8u */
  newtype byte = x: int | 0 <= x < 256

  datatype Color = Color(r: byte, g: byte, b: byte, a: byte)

  const Black := Color(0, 0, 0, 255)

  // ---------------------------------------------------------------------
  // Hexadecimal digits and numbers
  // ---------------------------------------------------------------------

  predicate IsHexDigit(c: char)
  {
    '0' <= c <= '9' || 'a' <= c <= 'f' || 'A' <= c <= 'F'
  }

  /** The value of a hex digit; an invalid character contributes 0. */
  function DigitValue(c: char): (d: nat)
    ensures d < 16
    ensures !IsHexDigit(c) ==> d == 0
  {
    if '0' <= c <= '9' then c as int - '0' as int
    else if 'a' <= c <= 'f' then c as int - 'a' as int + 10
    else if 'A' <= c <= 'F' then c as int - 'A' as int + 10
    else 0
  }

  predicate IsHexString(s: string)
  {
    forall i :: 0 <= i < |s| ==> IsHexDigit(s[i])
  }

  function Pow16(n: nat): (r: nat)
    ensures r >= 1
  {
    if n == 0 then 1 else 16 * Pow16(n - 1)
  }

  /** The number a string of hex digits denotes, read most significant digit first. */
  function HexValue(s: string): nat
  {
    if s == [] then 0 else HexValue(s[..|s| - 1]) * 16 + DigitValue(s[|s| - 1])
  }

  /** Reading from the right: the leading digit weighs 16^(number of digits after it). */
  lemma {:induction false} HexValuePrepend(c: char, s: string)
    ensures HexValue([c] + s) == DigitValue(c) * Pow16(|s|) + HexValue(s)
    decreases |s|
  {
    var cs := [c] + s;
    if s == [] {
      assert cs[..0] == [];
    } else {
      var init := s[..|s| - 1];
      assert cs[..|cs| - 1] == [c] + init;
      HexValuePrepend(c, init);
      var d, p, h := DigitValue(c), Pow16(|init|), HexValue(init);
      var last := DigitValue(s[|s| - 1]);
      assert Pow16(|s|) == 16 * p;
      assert HexValue(s) == h * 16 + last;
      assert HexValue(cs) == (d * p + h) * 16 + last;
      MulSixteen(d, p);
    }
  }

  /** The one nonlinear step of HexValuePrepend, kept apart so that proof stays small. */
  lemma MulSixteen(d: nat, p: nat)
    ensures d * (16 * p) == (d * p) * 16
  {
  }

  /** Two-digit hex spelling of a byte, in lower or upper case. */
  function HexDigitChar(d: nat, upper: bool): char
    requires d < 16
  {
    if d < 10 then ('0' as int + d) as char
    else if upper then ('A' as int + d - 10) as char
    else ('a' as int + d - 10) as char
  }

  function Hex2(n: byte, upper: bool): (s: string)
    ensures |s| == 2
  {
    [HexDigitChar(n as int / 16, upper), HexDigitChar(n as int % 16, upper)]
  }

  /** The two-digit spelling of a byte, in either case, converts back to that byte. */
  lemma Hex2RoundTrip(n: byte, upper: bool)
    ensures IsHexString(Hex2(n, upper))
    ensures HexValue(Hex2(n, upper)) == n as int
    ensures HexByte(Hex2(n, upper)) == n
  {
    var s := Hex2(n, upper);
    var hi, lo := n as int / 16, n as int % 16;
    assert DigitValue(s[0]) == hi && DigitValue(s[1]) == lo;
    assert s[..1][..0] == [];
    assert s[..1] == [s[0]];
    assert HexValue(s[..1]) == hi;
    assert HexValue(s) == hi * 16 + lo;
  }

  /** std::string::substr(pos, n): at most n characters starting at pos (pos <= length). */
  function Substr(s: string, pos: nat, n: nat): (r: string)
    requires pos <= |s|
    ensures |r| <= n
  {
    if pos + n <= |s| then s[pos..pos + n] else s[pos..]
  }

  /** The byte that convert_from_hex returns: the sum truncated to 8 bits. */
  function HexByte(s: string): byte
  {
    (HexValue(s) % 256) as byte
  }

  // ---------------------------------------------------------------------
  // Specification of the string setters
  // ---------------------------------------------------------------------

  /** The hex fields of "#rrggbb" / "#rrggbbaa" that set_from_rgb(a)_string converts. */
  function Field(s: string, i: nat): string
    requires 1 + 2 * i <= |s|
  {
    Substr(s, 1 + 2 * i, 2)
  }

  /**
   * Colour and `ok` after set_from_rgb_string (withAlpha = false) or
   * set_from_rgba_string (withAlpha = true), starting from colour `prev`.
   * A string that does not start with '#' leaves the colour alone.
   */
  function ParseHexColor(prev: Color, s: string, withAlpha: bool): (Color, bool)
    requires |s| > 0 && s[0] == '#' ==> |s| >= (if withAlpha then 7 else 5)
  {
    if |s| > 0 && s[0] == '#' then
      var valid := IsHexString(Field(s, 0)) && IsHexString(Field(s, 1)) && IsHexString(Field(s, 2))
                   && (withAlpha ==> IsHexString(Field(s, 3)));
      if !valid then (Black, false)
      else (Color(HexByte(Field(s, 0)), HexByte(Field(s, 1)), HexByte(Field(s, 2)),
                  if withAlpha then HexByte(Field(s, 3)) else 255), true)
    else (prev, true)
  }

  /** Colour and `ok` after set_from_string. */
  function ParseColorString(prev: Color, s: string): (Color, bool)
  {
    if |s| == 7 then ParseHexColor(prev, s, false)
    else if |s| == 9 then ParseHexColor(prev, s, true)
    else (Black, false)
  }

  /** Spelling "#rrggbb" (alpha 255) or "#rrggbbaa" of a colour. */
  function ColorText(c: Color, withAlpha: bool, upper: bool): (s: string)
    ensures |s| == (if withAlpha then 9 else 7)
  {
    "#" + Hex2(c.r, upper) + Hex2(c.g, upper) + Hex2(c.b, upper)
    + (if withAlpha then Hex2(c.a, upper) else "")
  }

  /** A spelled colour parses back to itself (alpha 255 when it has no alpha field). */
  lemma ColorRoundTrip(prev: Color, c: Color, withAlpha: bool, upper: bool)
    ensures ParseColorString(prev, ColorText(c, withAlpha, upper))
            == (if withAlpha then (c, true) else (c.(a := 255), true))
  {
    var s := ColorText(c, withAlpha, upper);
    Hex2RoundTrip(c.r, upper);
    Hex2RoundTrip(c.g, upper);
    Hex2RoundTrip(c.b, upper);
    Hex2RoundTrip(c.a, upper);
    var r, g, b, a := Hex2(c.r, upper), Hex2(c.g, upper), Hex2(c.b, upper), Hex2(c.a, upper);
    if withAlpha {
      assert s == "#" + r + g + b + a;
      assert Field(s, 0) == r && Field(s, 1) == g && Field(s, 2) == b && Field(s, 3) == a;
      assert ParseHexColor(prev, s, true) == (c, true);
    } else {
      assert s == "#" + r + g + b;
      assert Field(s, 0) == r && Field(s, 1) == g && Field(s, 2) == b;
      assert ParseHexColor(prev, s, false) == (c.(a := 255), true);
    }
  }

  /** The outcomes of set_from_string by length, leading '#' and digit validity. */
  lemma ColorStringCases(prev: Color, s: string)
    ensures |s| != 7 && |s| != 9 ==> ParseColorString(prev, s) == (Black, false)
    ensures (|s| == 7 || |s| == 9) && s[0] != '#' ==> ParseColorString(prev, s) == (prev, true)
    ensures (|s| == 7 || |s| == 9) && s[0] == '#' ==>
              (ParseColorString(prev, s).1 <==> IsHexString(s[1..]))
    ensures !ParseColorString(prev, s).1 ==> ParseColorString(prev, s).0 == Black
    ensures |s| == 7 && s[0] == '#' && IsHexString(s[1..]) ==> ParseColorString(prev, s).0.a == 255
  {
    if (|s| == 7 || |s| == 9) && s[0] == '#' {
      var n := if |s| == 7 then 3 else 4;
      assert s[1..] == Field(s, 0) + Field(s, 1) + Field(s, 2) + (if n == 4 then Field(s, 3) else "");
      if IsHexString(s[1..]) {
        forall i | 0 <= i < n ensures IsHexString(Field(s, i)) {
          forall j | 0 <= j < 2 ensures IsHexDigit(Field(s, i)[j]) {
            assert Field(s, i)[j] == s[1..][2 * i + j];
          }
        }
      } else {
        var k :| 0 <= k < |s[1..]| && !IsHexDigit(s[1..][k]);
        assert !IsHexDigit(Field(s, k / 2)[k % 2]);
      }
    }
  }

  // ---------------------------------------------------------------------
  // The object
  // ---------------------------------------------------------------------

  class ImoColorDto {
    var color: Color
    var ok: bool

    constructor (r: byte, g: byte, b: byte, a: byte)
      ensures color == Color(r, g, b, a) && ok
    {
      color := Color(r, g, b, a);
      ok := true;
    }

    /**
     * convert_from_hex: sums digit * 16^position from the rightmost
     * character, an invalid character adding 0 and clearing `ok`, and
     * truncates to 8 bits. Longer strings than 7 digits would overflow
     * the source's `int` accumulator.
     */
    method ConvertFromHex(hex: string) returns (v: byte)
      requires |hex| <= 7
      modifies this`ok
      ensures v == HexByte(hex)
      ensures ok == (old(ok) && IsHexString(hex))
    {
      var value := 0;
      var a := 0;
      var b := |hex| - 1;
      while b >= 0
        invariant -1 <= b < |hex| && a == |hex| - 1 - b
        invariant value == HexValue(hex[b + 1..])
        invariant ok == (old(ok) && IsHexString(hex[b + 1..]))
      {
        var c := hex[b];
        ghost var prev := value;
        var w := Pow16(a);
        if '0' <= c <= '9' {
          value := value + (c as int - '0' as int) * w;
        } else if c == 'A' || c == 'a' {
          value := value + 10 * w;
        } else if c == 'B' || c == 'b' {
          value := value + 11 * w;
        } else if c == 'C' || c == 'c' {
          value := value + 12 * w;
        } else if c == 'D' || c == 'd' {
          value := value + 13 * w;
        } else if c == 'E' || c == 'e' {
          value := value + 14 * w;
        } else if c == 'F' || c == 'f' {
          value := value + 15 * w;
        } else {
          ok := false;
        }
        assert value == prev + DigitValue(c) * w;
        HexValuePrepend(c, hex[b + 1..]);
        assert [c] + hex[b + 1..] == hex[b..];
        a, b := a + 1, b - 1;
      }
      assert hex[0..] == hex;
      v := (value % 256) as byte;
    }

    /** set_from_rgb_string */
    method SetFromRgbString(rgb: string) returns (c: Color)
      requires |rgb| > 0 && rgb[0] == '#' ==> |rgb| >= 5
      modifies this
      ensures (color, ok) == ParseHexColor(old(color), rgb, false)
      ensures c == color
    {
      ok := true;
      if |rgb| > 0 && rgb[0] == '#' {
        var r := ConvertFromHex(Substr(rgb, 1, 2));
        color := color.(r := r);
        var g := ConvertFromHex(Substr(rgb, 3, 2));
        color := color.(g := g);
        var b := ConvertFromHex(Substr(rgb, 5, 2));
        color := color.(b := b);
        color := color.(a := 255);
      }
      if !ok {
        color := Black;
      }
      c := color;
    }

    /** set_from_rgba_string */
    method SetFromRgbaString(rgba: string) returns (c: Color)
      requires |rgba| > 0 && rgba[0] == '#' ==> |rgba| >= 7
      modifies this
      ensures (color, ok) == ParseHexColor(old(color), rgba, true)
      ensures c == color
    {
      ok := true;
      if |rgba| > 0 && rgba[0] == '#' {
        var r := ConvertFromHex(Substr(rgba, 1, 2));
        color := color.(r := r);
        var g := ConvertFromHex(Substr(rgba, 3, 2));
        color := color.(g := g);
        var b := ConvertFromHex(Substr(rgba, 5, 2));
        color := color.(b := b);
        var a := ConvertFromHex(Substr(rgba, 7, 2));
        color := color.(a := a);
      }
      if !ok {
        color := Black;
      }
      c := color;
    }

    /** set_from_string: 7 characters are rgb, 9 are rgba, any other length is an error. */
    method SetFromString(hex: string) returns (c: Color)
      modifies this
      ensures (color, ok) == ParseColorString(old(color), hex)
      ensures c == color
    {
      if |hex| == 7 {
        c := SetFromRgbString(hex);
      } else if |hex| == 9 {
        c := SetFromRgbaString(hex);
      } else {
        ok := false;
        color := Black;
        c := color;
      }
    }
  }
}

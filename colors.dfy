/** Colour strings as the chart accepts them: a `#RRGGBB` or `RRGGBB` hex
    string becomes a normalised RGBA vector; anything else is kept as it is
    and handed to the line renderer unchanged. */
module Colors {

  /** A colour option: either an already normalised RGBA vector or a string
      (a hex code, a CSS name such as "black", or anything else). */
  datatype Color = Rgba(r: real, g: real, b: real, a: real) | Css(name: string)

  /** The characters of the class `[a-f\d]` under the case-insensitive flag. */
  predicate IsHexDigit(c: char) {
    '0' <= c <= '9' || 'a' <= c <= 'f' || 'A' <= c <= 'F'
  }

  function HexValue(c: char): (v: nat)
    requires IsHexDigit(c)
    ensures v < 16
  {
    if '0' <= c <= '9' then c as int - '0' as int
    else if 'a' <= c <= 'f' then c as int - 'a' as int + 10
    else c as int - 'A' as int + 10
  }

  /** The lower-case digit for a nibble. */
  function HexChar(v: nat): (c: char)
    requires v < 16
    ensures IsHexDigit(c) && HexValue(c) == v
  {
    "0123456789abcdef"[v]
  }

  /** ASCII lower-casing; the only case folding that matters for hex digits. */
  function LowerChar(c: char): char {
    if 'A' <= c <= 'Z' then (c as int - 'A' as int + 'a' as int) as char else c
  }

  function Lower(s: string): (t: string)
    ensures |t| == |s| && forall i :: 0 <= i < |s| ==> t[i] == LowerChar(s[i])
  {
    if s == [] then [] else [LowerChar(s[0])] + Lower(s[1..])
  }

  predicate HasHash(s: string) {
    |s| > 0 && s[0] == '#'
  }

  /** What follows the optional leading `#`. */
  function HexBody(s: string): string {
    if HasHash(s) then s[1..] else s
  }

  /** `s` matches `^#?([a-f\d]{2})([a-f\d]{2})([a-f\d]{2})$` with the `i` flag. */
  predicate IsHexColor(s: string) {
    var d := HexBody(s);
    |d| == 6 && forall i :: 0 <= i < 6 ==> IsHexDigit(d[i])
  }

  /** The value of the k-th two-digit group, as `parseInt(group, 16)`. */
  function Channel(s: string, k: nat): (v: nat)
    requires IsHexColor(s) && k < 3
    ensures v < 256
  {
    var d := HexBody(s);
    16 * HexValue(d[2 * k]) + HexValue(d[2 * k + 1])
  }

  /** The hex code of three bytes, lower case, with or without `#`. */
  function FormatHex(red: nat, green: nat, blue: nat, hash: bool): (s: string)
    requires red < 256 && green < 256 && blue < 256
    ensures |s| == if hash then 7 else 6
  {
    (if hash then "#" else "")
      + [HexChar(red / 16), HexChar(red % 16)]
      + [HexChar(green / 16), HexChar(green % 16)]
      + [HexChar(blue / 16), HexChar(blue % 16)]
  }

  /** `Helpers.hexToVec4`: a matching hex string becomes
      `[r/255, g/255, b/255, 1]`; every other colour is returned unchanged. */
  function HexToVec4(c: Color): (r: Color)
    ensures r.Rgba? <==> c.Rgba? || (c.Css? && IsHexColor(c.name))
    ensures !(c.Css? && IsHexColor(c.name)) ==> r == c
    ensures c.Css? && IsHexColor(c.name) ==>
      r.a == 1.0
      && 0.0 <= r.r <= 1.0 && 0.0 <= r.g <= 1.0 && 0.0 <= r.b <= 1.0
      && r.r * 255.0 == Channel(c.name, 0) as real
      && r.g * 255.0 == Channel(c.name, 1) as real
      && r.b * 255.0 == Channel(c.name, 2) as real
  {
    if c.Css? && IsHexColor(c.name) then
      Rgba(Channel(c.name, 0) as real / 255.0,
           Channel(c.name, 1) as real / 255.0,
           Channel(c.name, 2) as real / 255.0,
           1.0)
    else c
  }

  /** Formatting three bytes and parsing them back yields the same bytes. */
  lemma FormatThenParse(red: nat, green: nat, blue: nat, hash: bool)
    requires red < 256 && green < 256 && blue < 256
    ensures IsHexColor(FormatHex(red, green, blue, hash))
    ensures HasHash(FormatHex(red, green, blue, hash)) == hash
    ensures Channel(FormatHex(red, green, blue, hash), 0) == red
    ensures Channel(FormatHex(red, green, blue, hash), 1) == green
    ensures Channel(FormatHex(red, green, blue, hash), 2) == blue
  {
    var s := FormatHex(red, green, blue, hash);
    var d := [HexChar(red / 16), HexChar(red % 16), HexChar(green / 16),
              HexChar(green % 16), HexChar(blue / 16), HexChar(blue % 16)];
    assert HexBody(s) == d;
  }

  /** Parsing a hex code and formatting its bytes gives back the code, up to case. */
  lemma ParseThenFormat(s: string)
    requires IsHexColor(s)
    ensures FormatHex(Channel(s, 0), Channel(s, 1), Channel(s, 2), HasHash(s)) == Lower(s)
  {
    FormatChannels(s);
    var p := if HasHash(s) then "#" else "";
    assert s == p + HexBody(s);
    LowerConcat(p, HexBody(s));
    assert Lower(p) == p;
  }

  lemma FormatChannels(s: string)
    requires IsHexColor(s)
    ensures FormatHex(Channel(s, 0), Channel(s, 1), Channel(s, 2), HasHash(s))
         == (if HasHash(s) then "#" else "") + Lower(HexBody(s))
  {
    var d := HexBody(s);
    var r, g, b := Channel(s, 0), Channel(s, 1), Channel(s, 2);
    ByteDigits(d[0], d[1], r);
    ByteDigits(d[2], d[3], g);
    ByteDigits(d[4], d[5], b);
    var low := [LowerChar(d[0]), LowerChar(d[1]), LowerChar(d[2]),
                LowerChar(d[3]), LowerChar(d[4]), LowerChar(d[5])];
    assert Lower(d) == low;
  }

  lemma LowerConcat(a: string, b: string)
    ensures Lower(a + b) == Lower(a) + Lower(b)
  {
    assert |Lower(a + b)| == |Lower(a) + Lower(b)|;
    forall i | 0 <= i < |a + b| ensures Lower(a + b)[i] == (Lower(a) + Lower(b))[i] {
      if i < |a| { assert (a + b)[i] == a[i]; } else { assert (a + b)[i] == b[i - |a|]; }
    }
  }

  /** One two-digit group: its value's digits are the group's digits in lower case. */
  lemma ByteDigits(hi: char, lo: char, v: nat)
    requires IsHexDigit(hi) && IsHexDigit(lo) && v == 16 * HexValue(hi) + HexValue(lo)
    ensures v < 256 && HexChar(v / 16) == LowerChar(hi) && HexChar(v % 16) == LowerChar(lo)
  {
    assert v / 16 == HexValue(hi) && v % 16 == HexValue(lo);
    HexDigitFolds(hi);
    HexDigitFolds(lo);
  }

  /** A hex digit printed back from its value is the digit in lower case. */
  lemma HexDigitFolds(c: char)
    requires IsHexDigit(c)
    ensures HexChar(HexValue(c)) == LowerChar(c)
  {
  }

  /** The colour of a formatted code is its three bytes over 255, alpha 1. */
  lemma HexRoundTrip(red: nat, green: nat, blue: nat, hash: bool)
    requires red < 256 && green < 256 && blue < 256
    ensures HexToVec4(Css(FormatHex(red, green, blue, hash)))
         == Rgba(red as real / 255.0, green as real / 255.0, blue as real / 255.0, 1.0)
  {
    FormatThenParse(red, green, blue, hash);
  }

  /** Matching ignores case: two strings that agree up to case are both hex
      codes or both not, and as codes they give the same colour. */
  lemma HexCaseInsensitive(s: string, t: string)
    requires Lower(s) == Lower(t)
    ensures IsHexColor(s) <==> IsHexColor(t)
    ensures IsHexColor(s) ==> HexToVec4(Css(s)) == HexToVec4(Css(t))
  {
    assert |s| == |Lower(s)| == |t|;
    forall i | 0 <= i < |s| ensures LowerChar(s[i]) == LowerChar(t[i]) {
      assert Lower(s)[i] == Lower(t)[i];
    }
    if |s| > 0 {
      assert s[0] == '#' <==> t[0] == '#';
    }
    var ds, dt := HexBody(s), HexBody(t);
    assert |ds| == |dt|;
    forall i | 0 <= i < |ds|
      ensures LowerChar(ds[i]) == LowerChar(dt[i])
      ensures IsHexDigit(ds[i]) <==> IsHexDigit(dt[i])
      ensures IsHexDigit(ds[i]) ==> HexValue(ds[i]) == HexValue(dt[i])
    {
      var o := if HasHash(s) then 1 else 0;
      assert ds[i] == s[i + o] && dt[i] == t[i + o];
    }
    if IsHexColor(s) {
      assert IsHexColor(t);
      assert Channel(s, 0) == Channel(t, 0);
      assert Channel(s, 1) == Channel(t, 1);
      assert Channel(s, 2) == Channel(t, 2);
    }
  }

  /** Two hex codes give the same colour exactly when they name the same bytes. */
  lemma HexToVec4Injective(s: string, t: string)
    requires IsHexColor(s) && IsHexColor(t)
    ensures HexToVec4(Css(s)) == HexToVec4(Css(t))
        <==> (Channel(s, 0) == Channel(t, 0) && Channel(s, 1) == Channel(t, 1)
              && Channel(s, 2) == Channel(t, 2))
  {
  }
}

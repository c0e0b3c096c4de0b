/**
 * `CGColor.from(hex:)`: normalise the string, check its length, scan it as a
 * hexadecimal number and cut the number into colour components.
 *
 * Components are kept as bytes 0..255; the program divides each by 255 to get
 * the floating-point component it hands to Core Graphics.
 */
module HexColor {
  import opened Common

  type Byte = x: int | 0 <= x < 256

  /** A device-RGB colour, one byte per component. */
  datatype Rgba = Rgba(red: Byte, green: Byte, blue: Byte, alpha: Byte)

  /** `CGColor.clear`: fully transparent. */
  const Clear: Rgba := Rgba(0, 0, 0, 0)

  // ---------------------------------------------------------------------
  // Normalisation: trim, upper-case, drop one leading '#'
  // ---------------------------------------------------------------------

  /**
   * Membership in `CharacterSet.whitespacesAndNewlines`: the Unicode
   * separators (categories Zs, Zl, Zp), the controls U+0009 to U+000D and
   * U+0085.
   */
  predicate IsWhitespace(c: char)
  {
    ('\U{9}' <= c <= '\U{D}') || c == ' ' || c == '\U{85}' || c == '\U{A0}' || c == '\U{1680}'
    || ('\U{2000}' <= c <= '\U{200A}') || c == '\U{2028}' || c == '\U{2029}'
    || c == '\U{202F}' || c == '\U{205F}' || c == '\U{3000}'
  }

  /** `s` without its leading whitespace. */
  function TrimStart(s: string): string
  {
    if s != [] && IsWhitespace(s[0]) then TrimStart(s[1..]) else s
  }

  /** `s` without its trailing whitespace. */
  function TrimEnd(s: string): string
  {
    if s != [] && IsWhitespace(s[|s| - 1]) then TrimEnd(s[..|s| - 1]) else s
  }

  /**
   * `TrimStart` removes exactly the leading whitespace: what remains is a
   * suffix that is empty or starts with something else.
   */
  lemma {:induction false} TrimStartRemovesLeading(s: string)
    ensures var r := TrimStart(s);
      && |r| <= |s| && r == s[|s| - |r|..]
      && (forall i :: 0 <= i < |s| - |r| ==> IsWhitespace(s[i]))
      && (r == [] || !IsWhitespace(r[0]))
  {
    if s != [] && IsWhitespace(s[0]) {
      var t := s[1..];
      TrimStartRemovesLeading(t);
      var r := TrimStart(t);
      assert s[|s| - |r|..] == t[|t| - |r|..];
    }
  }

  /**
   * `TrimEnd` removes exactly the trailing whitespace: what remains is a
   * prefix that is empty or ends with something else.
   */
  lemma {:induction false} TrimEndRemovesTrailing(s: string)
    ensures var r := TrimEnd(s);
      && |r| <= |s| && r == s[..|r|]
      && (forall i :: |r| <= i < |s| ==> IsWhitespace(s[i]))
      && (r == [] || !IsWhitespace(r[|r| - 1]))
  {
    if s != [] && IsWhitespace(s[|s| - 1]) {
      var t := s[..|s| - 1];
      TrimEndRemovesTrailing(t);
      var r := TrimEnd(t);
      assert s[..|r|] == t[..|r|];
    }
  }

  /** `trimmingCharacters(in: .whitespacesAndNewlines)` */
  function Trim(s: string): string
  {
    TrimEnd(TrimStart(s))
  }

  function UpperChar(c: char): char
  {
    if 'a' <= c <= 'z' then (c as int - 32) as char else c
  }

  /** `uppercased()`, for the ASCII letters. */
  function UpperAscii(s: string): (r: string)
    ensures |r| == |s|
    ensures forall i :: 0 <= i < |s| ==> r[i] == UpperChar(s[i])
  {
    seq(|s|, i requires 0 <= i < |s| => UpperChar(s[i]))
  }

  /** The string the length check and the scanner see. */
  function Normalise(hex: string): string
  {
    var u := UpperAscii(Trim(hex));
    if |u| > 0 && u[0] == '#' then u[1..] else u
  }

  // ---------------------------------------------------------------------
  // Scanner.scanHexInt64
  // ---------------------------------------------------------------------

  predicate IsHexDigit(c: char)
  {
    '0' <= c <= '9' || 'A' <= c <= 'F' || 'a' <= c <= 'f'
  }

  function DigitValue(c: char): (d: nat)
    requires IsHexDigit(c)
    ensures d < 16
  {
    if '0' <= c <= '9' then c as int - '0' as int
    else if 'A' <= c <= 'F' then c as int - 'A' as int + 10
    else c as int - 'a' as int + 10
  }

  function Pow16(n: nat): (p: nat)
    ensures p >= 1
  {
    if n == 0 then 1 else 16 * Pow16(n - 1)
  }

  /** The number the digits `ds` denote, most significant first. */
  function HexValue(ds: string): (v: nat)
    requires forall i :: 0 <= i < |ds| ==> IsHexDigit(ds[i])
    ensures v < Pow16(|ds|)
  {
    if ds == [] then 0 else HexValue(ds[..|ds| - 1]) * 16 + DigitValue(ds[|ds| - 1])
  }

  /** An optional "0x" or "0X" in front of the digits. */
  function SkipRadixPrefix(t: string): string
  {
    if |t| >= 2 && t[0] == '0' && (t[1] == 'X' || t[1] == 'x') then t[2..] else t
  }

  /** The longest run of hex digits at the start of `t`. */
  function LeadingHexDigits(t: string): (ds: string)
    ensures |ds| <= |t| && ds == t[..|ds|]
    ensures forall i :: 0 <= i < |ds| ==> IsHexDigit(ds[i])
    ensures |ds| < |t| ==> !IsHexDigit(t[|ds|])
  {
    if t != [] && IsHexDigit(t[0]) then [t[0]] + LeadingHexDigits(t[1..]) else []
  }

  /**
   * What `scanHexInt64` leaves in a variable that held 0: the scanner skips
   * leading whitespace, accepts an optional "0x"/"0X" prefix and reads the
   * longest run of hexadecimal digits; when it reads none, the variable keeps
   * its 0. (At most 8 digits are ever scanned here, so the 64-bit value
   * cannot overflow.)
   */
  function ScanHex(s: string): (v: nat)
    ensures v < Pow16(|s|)
  {
    TrimStartRemovesLeading(s);
    var ds := LeadingHexDigits(SkipRadixPrefix(TrimStart(s)));
    PowMonotone(|ds|, |s|);
    HexValue(ds)
  }

  lemma {:induction false} PowMonotone(m: nat, n: nat)
    requires m <= n
    ensures Pow16(m) <= Pow16(n)
  {
    if m < n {
      PowMonotone(m, n - 1);
    }
  }

  // ---------------------------------------------------------------------
  // CGColor.from(hex:)
  // ---------------------------------------------------------------------

  /**
   * Red is bits 16-23, green bits 8-15 and blue bits 0-7 of the scanned
   * value; an 8-character string also gives alpha in bits 24-31, a
   * 6-character one is opaque. Any other length gives no colour.
   */
  function FromHex(hex: string): Option<Rgba>
  {
    var s := Normalise(hex);
    if |s| != 6 && |s| != 8 then None
    else
      assert Pow16(6) == 0x1000000 && Pow16(8) == 0x100000000;
      Some(Components(ScanHex(s), |s| == 8))
  }

  /**
   * What `FromHex` answers: no colour exactly when the normalised string
   * has neither 6 nor 8 characters; otherwise the components put back
   * together give the scanned value, with alpha on top for 8 characters and
   * opaque for 6.
   */
  lemma FromHexScans(hex: string)
    ensures var r := FromHex(hex);
      var s := Normalise(hex);
      && (r.None? <==> |s| != 6 && |s| != 8)
      && (r.Some? && |s| == 6 ==>
            r.value.alpha == 255 && r.value.red * 0x10000 + r.value.green * 0x100 + r.value.blue == ScanHex(s))
      && (r.Some? && |s| == 8 ==>
            r.value.alpha * 0x1000000 + r.value.red * 0x10000 + r.value.green * 0x100 + r.value.blue == ScanHex(s))
  {
    var s := Normalise(hex);
    if |s| == 6 || |s| == 8 {
      assert Pow16(6) == 0x1000000 && Pow16(8) == 0x100000000;
    }
  }

  /**
   * The colour made from a scanned value: `(v >> 16) & 0xFF` and so on, with
   * alpha from bits 24-31 only for an 8-character string.
   */
  function Components(v: nat, withAlpha: bool): (c: Rgba)
    requires v < 0x100000000
    ensures withAlpha ==> c.alpha * 0x1000000 + c.red * 0x10000 + c.green * 0x100 + c.blue == v
    ensures !withAlpha ==> c.alpha == 255
    ensures !withAlpha && v < 0x1000000 ==> c.red * 0x10000 + c.green * 0x100 + c.blue == v
  {
    Decompose(v);
    Rgba((v / 0x10000) % 0x100, (v / 0x100) % 0x100, v % 0x100,
         if withAlpha then (v / 0x1000000) % 0x100 else 255)
  }

  /** The byte fields of a 32-bit value put back together give the value. */
  lemma Decompose(v: nat)
    requires v < 0x100000000
    ensures v == ((v / 0x1000000) % 0x100) * 0x1000000 + ((v / 0x10000) % 0x100) * 0x10000
                 + ((v / 0x100) % 0x100) * 0x100 + v % 0x100
    ensures v < 0x1000000 ==> v / 0x1000000 == 0
  {
    var q1, b := v / 0x100, v % 0x100;
    var q2, g := q1 / 0x100, q1 % 0x100;
    var q3, r := q2 / 0x100, q2 % 0x100;
    assert v == q1 * 0x100 + b;
    assert q1 == q2 * 0x100 + g;
    assert q2 == q3 * 0x100 + r;
    assert v == q2 * 0x10000 + (g * 0x100 + b);
    assert v / 0x10000 == q2;
    assert v == q3 * 0x1000000 + (r * 0x10000 + g * 0x100 + b);
    assert v / 0x1000000 == q3;
    assert q3 < 0x100;
  }

  // ---------------------------------------------------------------------
  // Properties
  // ---------------------------------------------------------------------

  /** The upper-case digit of a value below sixteen. */
  function UpperDigit(n: nat): (c: char)
    requires n < 16
    ensures IsHexDigit(c) && UpperChar(c) == c && DigitValue(c) == n
  {
    if n < 10 then ('0' as int + n) as char else ('A' as int + n - 10) as char
  }

  /** The two upper-case digits of a byte, as a formatter would write them. */
  function HexByte(b: Byte): (s: string)
    ensures |s| == 2 && UpperHexDigits(s)
    ensures HexValue(s) == b
  {
    var s := [UpperDigit(b / 16), UpperDigit(b % 16)];
    assert HexValue(s[..1]) == b / 16;
    s
  }

  /** `v` shifted left by `n` hex digits, written without a product of two variables. */
  function Shift(v: nat, n: nat): nat
  {
    if n == 0 then v else Shift(v, n - 1) * 16
  }

  lemma ShiftByte(v: nat)
    ensures Shift(v, 2) == v * 0x100
  {
    assert Shift(v, 1) == v * 16;
  }

  lemma {:induction false} HexValueAppend(x: string, y: string)
    requires forall i :: 0 <= i < |x| ==> IsHexDigit(x[i])
    requires forall i :: 0 <= i < |y| ==> IsHexDigit(y[i])
    ensures HexValue(x + y) == Shift(HexValue(x), |y|) + HexValue(y)
  {
    if y == [] {
      assert x + y == x;
    } else {
      var y' := y[..|y| - 1];
      assert (x + y)[..|x + y| - 1] == x + y';
      assert (x + y)[|x + y| - 1] == y[|y| - 1];
      HexValueAppend(x, y');
    }
  }

  /** A string of hex digits, without whitespace or lower case, scans to its value. */
  lemma ScanDigits(d: string)
    requires |d| >= 2
    requires forall i :: 0 <= i < |d| ==> IsHexDigit(d[i])
    ensures ScanHex(d) == HexValue(d)
  {
    DigitsUntrimmed(d);
    DigitsAllLead(d);
  }

  lemma DigitsUntrimmed(d: string)
    requires |d| >= 2
    requires forall i :: 0 <= i < |d| ==> IsHexDigit(d[i])
    ensures TrimStart(d) == d && SkipRadixPrefix(d) == d
  {
  }

  lemma DigitsAllLead(d: string)
    requires forall i :: 0 <= i < |d| ==> IsHexDigit(d[i])
    ensures LeadingHexDigits(d) == d
  {
  }

  /** `Normalise` removes one '#' before upper-case text with no surrounding whitespace. */
  lemma NormaliseHashed(d: string)
    requires d != [] && !IsWhitespace(d[|d| - 1])
    requires forall i :: 0 <= i < |d| ==> UpperChar(d[i]) == d[i]
    ensures Normalise("#" + d) == d
  {
    var s := "#" + d;
    assert TrimStart(s) == s;
    assert TrimEnd(s) == s;
    assert UpperAscii(s) == s;
  }

  /** Only one '#' is removed: "##" followed by five characters keeps a '#' and scans to 0. */
  lemma HashRemovedOnce(d: string)
    requires |d| == 5 && forall i :: 0 <= i < |d| ==> IsHexDigit(d[i]) && UpperChar(d[i]) == d[i]
    ensures Normalise("##" + d) == "#" + d
    ensures FromHex("##" + d) == Some(Rgba(0, 0, 0, 255))
  {
    assert "##" + d == "#" + ("#" + d);
    NormaliseHashed("#" + d);
    var t := "#" + d;
    assert TrimStart(t) == t;
    assert LeadingHexDigits(SkipRadixPrefix(t)) == [];
  }

  /** "#" and six or eight upper-case digits: the colour is cut from the digits' value. */
  lemma HashedDigits(d: string)
    requires (|d| == 6 || |d| == 8) && UpperHexDigits(d)
    ensures HexValue(d) < 0x100000000
    ensures FromHex("#" + d) == Some(Components(HexValue(d), |d| == 8))
  {
    NormaliseHashed(d);
    ScanDigits(d);
    assert Pow16(6) == 0x1000000 && Pow16(8) == 0x100000000;
  }

  /** "#RRGGBB" gives back the three bytes it was written from, fully opaque. */
  lemma RgbRoundTrip(r: Byte, g: Byte, b: Byte)
    ensures FromHex("#" + HexByte(r) + HexByte(g) + HexByte(b)) == Some(Rgba(r, g, b, 255))
  {
    var d := HexByte(r) + HexByte(g) + HexByte(b);
    assert "#" + HexByte(r) + HexByte(g) + HexByte(b) == "#" + d;
    RgbDigits(r, g, b);
    HashedDigits(d);
    ComponentsOfRgb(r, g, b);
  }

  /** "#AARRGGBB" gives back its four bytes, alpha read from the FIRST pair. */
  lemma ArgbRoundTrip(a: Byte, r: Byte, g: Byte, b: Byte)
    ensures FromHex("#" + HexByte(a) + HexByte(r) + HexByte(g) + HexByte(b)) == Some(Rgba(r, g, b, a))
  {
    var d := HexByte(a) + HexByte(r) + HexByte(g) + HexByte(b);
    assert "#" + HexByte(a) + HexByte(r) + HexByte(g) + HexByte(b) == "#" + d;
    ArgbDigits(a, r, g, b);
    HashedDigits(d);
    var v := HexValue(d);
    assert v == a * 0x1000000 + r * 0x10000 + g * 0x100 + b;
    ComponentsOfArgb(a, r, g, b);
    assert Components(v, true) == Rgba(r, g, b, a);
  }

  /** Upper-case hex digits, as a formatter writes them. */
  predicate UpperHexDigits(d: string)
  {
    forall i :: 0 <= i < |d| ==> IsHexDigit(d[i]) && UpperChar(d[i]) == d[i]
  }

  /** Writing one more byte after `x` shifts its value by two digits. */
  lemma AppendByte(x: string, b: Byte)
    requires UpperHexDigits(x)
    ensures UpperHexDigits(x + HexByte(b))
    ensures HexValue(x + HexByte(b)) == HexValue(x) * 0x100 + b
  {
    HexValueAppend(x, HexByte(b));
    ShiftByte(HexValue(x));
  }

  lemma RgbDigits(r: Byte, g: Byte, b: Byte)
    ensures var d := HexByte(r) + HexByte(g) + HexByte(b);
      |d| == 6 && UpperHexDigits(d) && HexValue(d) == r * 0x10000 + g * 0x100 + b
  {
    AppendByte([], r);
    assert [] + HexByte(r) == HexByte(r);
    AppendByte(HexByte(r), g);
    AppendByte(HexByte(r) + HexByte(g), b);
  }

  lemma ArgbDigits(a: Byte, r: Byte, g: Byte, b: Byte)
    ensures var d := HexByte(a) + HexByte(r) + HexByte(g) + HexByte(b);
      |d| == 8 && UpperHexDigits(d) && HexValue(d) == a * 0x1000000 + r * 0x10000 + g * 0x100 + b
  {
    RgbDigits(a, r, g);
    AppendByte(HexByte(a) + HexByte(r) + HexByte(g), b);
  }

  lemma ByteDigit(q: nat, r: Byte)
    ensures (q * 0x100 + r) / 0x100 == q && (q * 0x100 + r) % 0x100 == r
  {
  }

  lemma DivDiv(v: nat)
    ensures v / 0x10000 == (v / 0x100) / 0x100
    ensures v / 0x1000000 == ((v / 0x100) / 0x100) / 0x100
  {
  }

  lemma ComponentsOfRgb(r: Byte, g: Byte, b: Byte)
    ensures Components(r * 0x10000 + g * 0x100 + b, false) == Rgba(r, g, b, 255)
  {
    var v := r * 0x10000 + g * 0x100 + b;
    var q1 := r * 0x100 + g;
    ByteDigit(q1, b);
    assert v == q1 * 0x100 + b;
    ByteDigit(r, g);
    ByteDigit(0, r);
    DivDiv(v);
  }

  lemma ComponentsOfArgb(a: Byte, r: Byte, g: Byte, b: Byte)
    ensures Components(a * 0x1000000 + r * 0x10000 + g * 0x100 + b, true) == Rgba(r, g, b, a)
  {
    var v := a * 0x1000000 + r * 0x10000 + g * 0x100 + b;
    var q1 := a * 0x10000 + r * 0x100 + g;
    var q2 := a * 0x100 + r;
    ByteDigit(q1, b);
    assert v == q1 * 0x100 + b;
    ByteDigit(q2, g);
    assert q1 == q2 * 0x100 + g;
    ByteDigit(a, r);
    ByteDigit(0, a);
    DivDiv(v);
  }

  /**
   * A string of the right length that does not start with a hex digit scans
   * to 0: six characters give opaque black, eight give transparent black.
   * Neither is "no colour".
   */
  lemma NonHexScansToZero(hex: string)
    requires var s := Normalise(hex);
      (|s| == 6 || |s| == 8) && !IsHexDigit(s[0]) && !IsWhitespace(s[0])
    ensures FromHex(hex) == Some(Rgba(0, 0, 0, if |Normalise(hex)| == 8 then 0 else 255))
  {
    var s := Normalise(hex);
    assert TrimStart(s) == s;
    assert LeadingHexDigits(SkipRadixPrefix(s)) == [];
  }
}

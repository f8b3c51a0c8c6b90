/** `Color(hex:)` in Sources/MenuBar/DigiNoiseMenuBarApp.swift: trim the
    non-alphanumeric characters at both ends, read the leading hexadecimal
    digits as an unsigned integer, and split it into alpha, red, green and blue
    bytes according to the trimmed length (3, 6 or 8 characters). The final
    division by 255 into `Double` channels is not part of this model. */
module HexColor {

  /** `CharacterSet.alphanumerics`, restricted to ASCII. */
  predicate IsAlphanumeric(ch: char) {
    '0' <= ch <= '9' || 'a' <= ch <= 'z' || 'A' <= ch <= 'Z'
  }

  /** Leading non-alphanumerics removed. */
  function TrimStart(s: string): (r: string)
    ensures |r| <= |s| && r == s[|s| - |r|..]
    ensures r == [] || IsAlphanumeric(r[0])
    ensures forall i | 0 <= i < |s| - |r| :: !IsAlphanumeric(s[i])
  {
    if s == [] || IsAlphanumeric(s[0]) then s else TrimStart(s[1..])
  }

  /** Trailing non-alphanumerics removed. */
  function TrimEnd(s: string): (r: string)
    ensures |r| <= |s| && r == s[..|r|]
    ensures r == [] || IsAlphanumeric(r[|r| - 1])
    ensures forall i | |r| <= i < |s| :: !IsAlphanumeric(s[i])
  {
    if s == [] || IsAlphanumeric(s[|s| - 1]) then s else TrimEnd(s[..|s| - 1])
  }

  /** `trimmingCharacters(in: CharacterSet.alphanumerics.inverted)`. */
  function Trim(s: string): string {
    TrimEnd(TrimStart(s))
  }

  /** Trimming keeps the middle of the string: the result is the infix of `s`
      that follows the leading and precedes the trailing non-alphanumerics, and
      it starts and ends with an alphanumeric unless it is empty. */
  lemma TrimShape(s: string)
    ensures var r := Trim(s); var i := |s| - |TrimStart(s)|;
      && (r == [] || (IsAlphanumeric(r[0]) && IsAlphanumeric(r[|r| - 1])))
      && i + |r| <= |s| && s[i..i + |r|] == r
      && (forall k | 0 <= k < i :: !IsAlphanumeric(s[k]))
      && (forall k | i + |r| <= k < |s| :: !IsAlphanumeric(s[k]))
  {
    var t := TrimStart(s);
    var r := TrimEnd(t);
    var i := |s| - |t|;
    assert s[i..i + |r|] == t[..|r|];
    if r != [] {
      assert r[0] == t[0];
    }
    forall k | i + |r| <= k < |s| ensures !IsAlphanumeric(s[k]) {
      assert s[k] == t[k - i];
    }
  }

  /** A string that starts and ends with an alphanumeric is not trimmed. */
  lemma TrimKeepsAlphanumericEnds(s: string)
    requires s != [] && IsAlphanumeric(s[0]) && IsAlphanumeric(s[|s| - 1])
    ensures Trim(s) == s
  {
  }

  /** A non-alphanumeric character in front is trimmed away. */
  lemma TrimDropsLeading(ch: char, s: string)
    requires !IsAlphanumeric(ch)
    ensures Trim([ch] + s) == Trim(s)
  {
    assert ([ch] + s)[1..] == s;
  }

  /** A non-alphanumeric character at the end is trimmed away. */
  lemma TrimDropsTrailing(ch: char, s: string)
    requires !IsAlphanumeric(ch)
    ensures Trim(s + [ch]) == Trim(s)
  {
    TrimStartAppend(s, ch);
    var t := TrimStart(s);
    if t != [] {
      assert (t + [ch])[..|t + [ch]| - 1] == t;
    }
  }

  lemma {:induction false} TrimStartAppend(s: string, ch: char)
    requires !IsAlphanumeric(ch)
    ensures TrimStart(s + [ch]) == if TrimStart(s) == [] then [] else TrimStart(s) + [ch]
  {
    if s == [] {
      assert TrimStart([ch]) == TrimStart([ch][1..]);
    } else if IsAlphanumeric(s[0]) {
      assert (s + [ch])[0] == s[0];
    } else {
      assert (s + [ch])[1..] == s[1..] + [ch];
      TrimStartAppend(s[1..], ch);
    }
  }

  /** Only the ends are trimmed: a `#` in the middle stays, so the string keeps
      its length and falls to the default case below. */
  lemma TrimKeepsInterior()
    ensures Trim("F#F") == "F#F"
  {
    TrimKeepsAlphanumericEnds("F#F");
  }

  predicate IsHexDigit(ch: char) {
    '0' <= ch <= '9' || 'a' <= ch <= 'f' || 'A' <= ch <= 'F'
  }

  function DigitValue(ch: char): (v: nat)
    requires IsHexDigit(ch)
    ensures v < 16
  {
    if '0' <= ch <= '9' then ch as int - '0' as int
    else if 'a' <= ch <= 'f' then ch as int - 'a' as int + 10
    else ch as int - 'A' as int + 10
  }

  predicate AllHex(s: string) {
    forall i | 0 <= i < |s| :: IsHexDigit(s[i])
  }

  function Pow16(n: nat): (p: nat)
    ensures p > 0
  {
    if n == 0 then 1 else 16 * Pow16(n - 1)
  }

  /** The number a string of hexadecimal digits denotes, most significant first. */
  function Value(ds: string): (v: nat)
    requires AllHex(ds)
    ensures v < Pow16(|ds|)
  {
    if ds == [] then 0 else Value(ds[..|ds| - 1]) * 16 + DigitValue(ds[|ds| - 1])
  }

  /** The length of the longest prefix of hexadecimal digits. */
  function HexPrefix(s: string): (n: nat)
    ensures n <= |s| && AllHex(s[..n])
    ensures n < |s| ==> !IsHexDigit(s[n])
    ensures AllHex(s) ==> n == |s|
  {
    if s == [] || !IsHexDigit(s[0]) then 0
    else
      var n := 1 + HexPrefix(s[1..]);
      assert s[..n] == [s[0]] + s[1..][..n - 1];
      n
  }

  /** `Scanner.scanHexInt64`: the value of the leading hexadecimal digits, 0 when
      there are none. */
  function ScanHex(s: string): (v: nat)
    ensures v < Pow16(|s|)
  {
    var n := HexPrefix(s);
    PowMonotone(n, |s|);
    Value(s[..n])
  }

  lemma {:induction false} PowMonotone(m: nat, n: nat)
    requires m <= n
    ensures Pow16(m) <= Pow16(n)
  {
    if m < n {
      PowMonotone(m, n - 1);
    }
  }

  /** The four components before their division by 255. */
  datatype Argb = Argb(alpha: nat, red: nat, green: nat, blue: nat)

  const OpaqueBlack := Argb(255, 0, 0, 0)

  /** The `switch hex.count` on the trimmed string, with `>> k` as division by
      `2^k` and `& m` as the remainder modulo `m + 1`. */
  function Components(h: string): Argb {
    var n := ScanHex(h);
    if |h| == 3 then Argb(255, (n / 256) * 17, (n / 16 % 16) * 17, (n % 16) * 17)
    else if |h| == 6 then Argb(255, n / 65536, n / 256 % 256, n % 256)
    else if |h| == 8 then Argb(n / 16777216, n / 65536 % 256, n / 256 % 256, n % 256)
    else OpaqueBlack
  }

  /** `Color(hex:)`. */
  function ColorFromHex(s: string): Argb {
    Components(Trim(s))
  }

  lemma PowValues()
    ensures Pow16(3) == 4096 && Pow16(6) == 16777216 && Pow16(8) == 4294967296
  {
    assert Pow16(1) == 16;
    assert Pow16(2) == 256;
    assert Pow16(3) == 4096;
    assert Pow16(4) == 65536;
    assert Pow16(5) == 1048576;
    assert Pow16(6) == 16777216;
    assert Pow16(7) == 268435456;
  }

  /** Every component is a byte, whatever the input. */
  lemma ComponentsAreBytes(s: string)
    ensures var c := ColorFromHex(s); c.alpha <= 255 && c.red <= 255 && c.green <= 255 && c.blue <= 255
  {
    PowValues();
  }

  /** Any trimmed length other than 3, 6 or 8 gives opaque black. */
  lemma OtherLengthsAreBlack(s: string)
    requires |Trim(s)| != 3 && |Trim(s)| != 6 && |Trim(s)| != 8
    ensures ColorFromHex(s) == OpaqueBlack
  {
  }

  /** A leading `#` is ignored: `"#FFF"` reads as `"FFF"`. */
  lemma HashIgnored(s: string)
    ensures ColorFromHex("#" + s) == ColorFromHex(s)
  {
    TrimDropsLeading('#', s);
    assert "#" + s == ['#'] + s;
  }

  /** The upper-case digit of a nibble. */
  function HexDigit(v: nat): (ch: char)
    requires v < 16
    ensures IsHexDigit(ch) && IsAlphanumeric(ch) && DigitValue(ch) == v
  {
    if v < 10 then ('0' as int + v) as char else ('A' as int + v - 10) as char
  }

  /** `v` written with exactly `width` hexadecimal digits. */
  function HexOf(v: nat, width: nat): (s: string)
    requires v < Pow16(width)
    ensures |s| == width && AllHex(s) && Value(s) == v
    ensures forall i | 0 <= i < |s| :: IsAlphanumeric(s[i])
  {
    if width == 0 then []
    else
      var s := HexOf(v / 16, width - 1) + [HexDigit(v % 16)];
      assert s[..|s| - 1] == HexOf(v / 16, width - 1);
      s
  }

  /** The value of a hex string of the right width is the one scanned. */
  lemma ScanHexOf(v: nat, width: nat)
    requires v < Pow16(width) && width > 0
    ensures Trim(HexOf(v, width)) == HexOf(v, width) && ScanHex(HexOf(v, width)) == v
  {
    var s := HexOf(v, width);
    TrimKeepsAlphanumericEnds(s);
    assert s[..|s|] == s;
  }

  /** Four bytes packed high to low, as eight hex digits spell them. */
  function Argb32(a: nat, r: nat, g: nat, b: nat): (n: nat)
    requires a < 256 && r < 256 && g < 256 && b < 256
    ensures n < 4294967296
    ensures n / 16777216 == a && n / 65536 % 256 == r && n / 256 % 256 == g && n % 256 == b
  {
    var n := a * 16777216 + r * 65536 + g * 256 + b;
    Split(a, r * 65536 + g * 256 + b, 16777216);
    Split(a * 256 + r, g * 256 + b, 65536);
    Split(a, r, 256);
    Split(a * 65536 + r * 256 + g, b, 256);
    Split(a * 256 + r, g, 256);
    n
  }

  /** Eight digits `AARRGGBB` round-trip to the four bytes. */
  lemma EightDigitRoundTrip(a: nat, r: nat, g: nat, b: nat)
    requires a < 256 && r < 256 && g < 256 && b < 256
    ensures Argb32(a, r, g, b) < Pow16(8)
    ensures ColorFromHex(HexOf(Argb32(a, r, g, b), 8)) == Argb(a, r, g, b)
  {
    PowValues();
    ScanHexOf(Argb32(a, r, g, b), 8);
  }

  /** Three bytes packed high to low, as six hex digits spell them. */
  function Rgb(r: nat, g: nat, b: nat): (n: nat)
    requires r < 256 && g < 256 && b < 256
    ensures n < 16777216
    ensures n / 65536 == r && n / 256 % 256 == g && n % 256 == b
  {
    SixBytes(r, g, b);
    r * 65536 + g * 256 + b
  }

  /** Six digits `RRGGBB` round-trip to the three bytes, fully opaque. */
  lemma SixDigitRoundTrip(r: nat, g: nat, b: nat)
    requires r < 256 && g < 256 && b < 256
    ensures Rgb(r, g, b) < Pow16(6)
    ensures ColorFromHex(HexOf(Rgb(r, g, b), 6)) == Argb(255, r, g, b)
  {
    var n := Rgb(r, g, b);
    PowValues();
    ScanHexOf(n, 6);
  }

  lemma SixBytes(r: nat, g: nat, b: nat)
    requires r < 256 && g < 256 && b < 256
    ensures var n := r * 65536 + g * 256 + b; n / 65536 == r && n / 256 % 256 == g && n % 256 == b
  {
    var n := r * 65536 + g * 256 + b;
    Split(r, g * 256 + b, 65536);
    var m := r * 256 + g;
    assert n == m * 256 + b;
    Split(m, b, 256);
    Split(r, g, 256);
  }

  /** Three nibbles packed high to low, as three hex digits spell them. */
  function Rgb12(r: nat, g: nat, b: nat): (n: nat)
    requires r < 16 && g < 16 && b < 16
    ensures n < 4096
    ensures n / 256 == r && n / 16 % 16 == g && n % 16 == b
  {
    var n := r * 256 + g * 16 + b;
    Split(r, g * 16 + b, 256);
    Split(r * 16 + g, b, 16);
    Split(r, g, 16);
    n
  }

  /** Three digits `RGB` give each nibble times 17 (`F` to 255), fully opaque. */
  lemma ThreeDigitNibbles(r: nat, g: nat, b: nat)
    requires r < 16 && g < 16 && b < 16
    ensures Rgb12(r, g, b) < Pow16(3)
    ensures ColorFromHex(HexOf(Rgb12(r, g, b), 3)) == Argb(255, r * 17, g * 17, b * 17)
  {
    PowValues();
    ScanHexOf(Rgb12(r, g, b), 3);
  }

  /** Shifting a byte-aligned or nibble-aligned sum right by the width of its low
      part recovers the high part, and masking recovers the low part. */
  lemma Split(hi: nat, lo: nat, d: nat)
    requires d == 16 || d == 256 || d == 65536 || d == 16777216
    requires lo < d
    ensures (hi * d + lo) / d == hi && (hi * d + lo) % d == lo
  {
    if d == 16 {} else if d == 256 {} else if d == 65536 {} else {}
  }
}

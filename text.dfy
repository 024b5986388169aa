/**
 * The JavaScript string primitives the components rely on, stated exactly:
 * UTF-16 code units (what `length` and `slice` count), decimal rendering of
 * a non-negative integer (`toString`), `padStart(2, '0')`, `slice` with its
 * clamping, and `encodeURIComponent`.
 */
module Text {

  /** One UTF-16 code unit, the element JavaScript strings are made of. */
  type CodeUnit = u: int | 0 <= u < 0x1_0000

  /** The code units of one character: one below U+10000, a surrogate pair above. */
  function CharUnits(c: char): (r: seq<CodeUnit>)
    ensures |r| == (if c as int < 0x1_0000 then 1 else 2)
    ensures c as int < 0x1_0000 ==> r == [c as int]
    ensures c as int >= 0x1_0000 ==> 0xD800 <= r[0] < 0xDC00 <= r[1] < 0xE000
  {
    var cp := c as int;
    if cp < 0x1_0000 then [cp]
    else [0xD800 + (cp - 0x1_0000) / 0x400, 0xDC00 + (cp - 0x1_0000) % 0x400]
  }

  /** The UTF-16 form of a string, the sequence JavaScript measures and slices. */
  function Utf16(s: string): (r: seq<CodeUnit>)
    ensures |s| <= |r| <= 2 * |s|
  {
    if s == [] then [] else CharUnits(s[0]) + Utf16(s[1..])
  }

  /** Every character of `s` lies in the Basic Multilingual Plane. */
  predicate InBmp(s: string) {
    forall i :: 0 <= i < |s| ==> s[i] as int < 0x1_0000
  }

  /** A string without astral characters has exactly one code unit per character. */
  lemma {:induction false} Utf16OfBmp(s: string)
    requires InBmp(s)
    ensures |Utf16(s)| == |s|
    ensures forall i :: 0 <= i < |s| ==> Utf16(s)[i] == s[i] as int
  {
    if s != [] {
      assert InBmp(s[1..]) by {
        forall i | 0 <= i < |s[1..]| ensures s[1..][i] as int < 0x1_0000 {
          assert s[1..][i] == s[i + 1];
        }
      }
      Utf16OfBmp(s[1..]);
    }
  }

  /** The UTF-16 form of a concatenation is the concatenation of the forms. */
  lemma {:induction false} Utf16Concat(a: string, b: string)
    ensures Utf16(a + b) == Utf16(a) + Utf16(b)
  {
    if a == [] {
      assert a + b == b;
    } else {
      assert (a + b)[0] == a[0];
      assert (a + b)[1..] == a[1..] + b;
      Utf16Concat(a[1..], b);
    }
  }

  // ---- Decimal rendering (`n.toString()` for a non-negative integer) ----

  function DigitChar(d: nat): (c: char)
    requires d < 10
    ensures '0' <= c <= '9' && c as int - '0' as int == d
  {
    ('0' as int + d) as char
  }

  predicate IsDigit(c: char) {
    '0' <= c <= '9'
  }

  /** The decimal digits of `n`, most significant first, without leading zeros. */
  function Decimal(n: nat): (r: string)
    ensures 1 <= |r|
    ensures forall i :: 0 <= i < |r| ==> IsDigit(r[i])
    ensures n < 10 <==> |r| == 1
    ensures |r| > 1 ==> r[0] != '0'
  {
    if n < 10 then [DigitChar(n)] else Decimal(n / 10) + [DigitChar(n % 10)]
  }

  /** The number a string of decimal digits denotes. */
  function DecimalValue(s: string): nat
    requires forall i :: 0 <= i < |s| ==> IsDigit(s[i])
  {
    if s == [] then 0
    else
      assert IsDigit(s[|s| - 1]);
      DecimalValue(s[..|s| - 1]) * 10 + (s[|s| - 1] as int - '0' as int)
  }

  /** Reading back the digits of `n` gives `n`; hence `Decimal` is injective. */
  lemma {:induction false} DecimalRoundTrip(n: nat)
    ensures DecimalValue(Decimal(n)) == n
  {
    if n >= 10 {
      var d := Decimal(n);
      assert d[..|d| - 1] == Decimal(n / 10);
      DecimalRoundTrip(n / 10);
    }
  }

  lemma DecimalInjective(m: nat, n: nat)
    requires Decimal(m) == Decimal(n)
    ensures m == n
  {
    DecimalRoundTrip(m);
    DecimalRoundTrip(n);
  }

  /** `s.padStart(2, '0')`: left-pad with zeros up to two characters, never cut. */
  function PadStart2(s: string): (r: string)
    ensures |r| == if |s| < 2 then 2 else |s|
    ensures r[|r| - |s|..] == s
    ensures forall i :: 0 <= i < |r| - |s| ==> r[i] == '0'
  {
    if |s| < 2 then seq(2 - |s|, _ => '0') + s else s
  }

  // ---- `s.slice(start, end)` for non-negative arguments ----

  /** JavaScript `slice` on code units: both ends clamped to the length, empty when crossed. */
  function Slice<T>(s: seq<T>, start: nat, end: nat): (r: seq<T>)
    ensures |r| == if end <= start || |s| <= start then 0
                   else (if end < |s| then end else |s|) - start
    ensures start <= end <= |s| ==> r == s[start..end]
    ensures forall i :: 0 <= i < |r| ==> r[i] == s[start + i]
  {
    var hi := if end < |s| then end else |s|;
    if hi <= start then [] else s[start..hi]
  }

  // ---- encodeURIComponent ----

  /** The characters `encodeURIComponent` leaves as they are. */
  predicate Unreserved(c: char) {
    ('A' <= c <= 'Z') || ('a' <= c <= 'z') || ('0' <= c <= '9') ||
    c in "-_.!~*'()"
  }

  predicate IsUpperHex(c: char) {
    ('0' <= c <= '9') || ('A' <= c <= 'F')
  }

  function HexDigit(d: nat): (c: char)
    requires d < 16
    ensures IsUpperHex(c)
  {
    "0123456789ABCDEF"[d]
  }

  /** The UTF-8 bytes of a Unicode scalar value. */
  function Utf8(cp: nat): (r: seq<nat>)
    requires cp < 0x11_0000
    ensures 1 <= |r| <= 4
    ensures forall i :: 0 <= i < |r| ==> r[i] < 0x100
    ensures cp < 0x80 ==> r == [cp]
  {
    if cp < 0x80 then [cp]
    else if cp < 0x800 then [0xC0 + cp / 0x40, 0x80 + cp % 0x40]
    else if cp < 0x1_0000 then [0xE0 + cp / 0x1000, 0x80 + cp / 0x40 % 0x40, 0x80 + cp % 0x40]
    else [0xF0 + cp / 0x4_0000, 0x80 + cp / 0x1000 % 0x40, 0x80 + cp / 0x40 % 0x40, 0x80 + cp % 0x40]
  }

  /** `%XX` for every byte, upper-case hexadecimal. */
  function PercentBytes(bytes: seq<nat>): (r: string)
    requires forall i :: 0 <= i < |bytes| ==> bytes[i] < 0x100
    ensures |r| == 3 * |bytes|
    ensures forall i :: 0 <= i < |r| ==> r[i] == '%' || IsUpperHex(r[i])
  {
    if bytes == [] then []
    else ['%', HexDigit(bytes[0] / 16), HexDigit(bytes[0] % 16)] + PercentBytes(bytes[1..])
  }

  function EncodeChar(c: char): (r: string)
    ensures Unreserved(c) ==> r == [c]
    ensures !Unreserved(c) ==> |r| >= 3 && r[0] == '%'
    ensures forall i :: 0 <= i < |r| ==> Unreserved(r[i]) || r[i] == '%'
  {
    if Unreserved(c) then [c] else PercentBytes(Utf8(c as int))
  }

  /**
   * `encodeURIComponent(s)`: every character outside the unreserved set is
   * replaced by the percent-escapes of its UTF-8 bytes. The result is made of
   * unreserved characters and `%` alone, so it cannot end a path segment or
   * start a query (no `/`, `?`, `&`, `#`, `:`).
   */
  function EncodeUriComponent(s: string): (r: string)
    ensures |s| <= |r|
    ensures forall i :: 0 <= i < |r| ==> Unreserved(r[i]) || r[i] == '%'
  {
    if s == [] then [] else EncodeChar(s[0]) + EncodeUriComponent(s[1..])
  }

  /** A string of unreserved characters passes through unchanged. */
  lemma {:induction false} EncodeUnreservedIdentity(s: string)
    requires forall i :: 0 <= i < |s| ==> Unreserved(s[i])
    ensures EncodeUriComponent(s) == s
  {
    if s != [] {
      EncodeUnreservedIdentity(s[1..]);
    }
  }

  /** Encoding a concatenation is concatenating the encodings. */
  lemma {:induction false} EncodeUriComponentConcat(a: string, b: string)
    ensures EncodeUriComponent(a + b) == EncodeUriComponent(a) + EncodeUriComponent(b)
  {
    if a == [] {
      assert a + b == b;
    } else {
      assert (a + b)[0] == a[0] && (a + b)[1..] == a[1..] + b;
      EncodeUriComponentConcat(a[1..], b);
    }
  }
}

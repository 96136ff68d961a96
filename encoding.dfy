/** The three library steps behind the in-memory stack's user ids
    (idiet/tracking/auth/views.py, line 80): `str.encode("utf-8")`,
    `base64.b16encode` and `int(s, 16)`, together with the facts about them
    that make the id a function of the e-mail address alone and tell which
    addresses share an id. */
module Encoding {
  import opened Common

  type byte = x: int | 0 <= x < 256

  // ---------------------------------------------------------------------
  // UTF-8
  // ---------------------------------------------------------------------

  /** The UTF-8 encoding of one Unicode scalar value (RFC 3629, section 3). */
  function EncodeChar(c: char): (r: seq<byte>)
    ensures 1 <= |r| <= 4
    ensures (r[0] == 0) <==> c == '\0'
  {
    var cp := c as int;
    if cp < 0x80 then [cp]
    else if cp < 0x800 then [0xC0 + cp / 64, 0x80 + cp % 64]
    else if cp < 0x10000 then [0xE0 + cp / 4096, 0x80 + (cp / 64) % 64, 0x80 + cp % 64]
    else [0xF0 + cp / 262144, 0x80 + (cp / 4096) % 64, 0x80 + (cp / 64) % 64, 0x80 + cp % 64]
  }

  /** `s.encode("utf-8")`. */
  function Utf8Encode(s: string): (r: seq<byte>)
    ensures |s| <= |r| <= 4 * |s|
  {
    if s == [] then [] else EncodeChar(s[0]) + Utf8Encode(s[1..])
  }

  /** The code points of a string, as integers. */
  function Codepoints(s: string): (r: seq<int>)
    ensures |r| == |s|
  {
    if s == [] then [] else [s[0] as int] + Codepoints(s[1..])
  }

  predicate IsContinuation(b: byte) {
    0x80 <= b < 0xC0
  }

  /** Reads one encoded code point from the front of `b`: its value and the
      number of bytes it occupies. This is a left inverse of `EncodeChar`
      used to prove that the encoding is injective; unlike Python's decoder
      it does not reject overlong forms or encoded surrogates. */
  function DecodeChar(b: seq<byte>): (r: Option<(int, nat)>)
    ensures r.Some? ==> 1 <= r.value.1 <= |b|
  {
    if b == [] then None
    else if b[0] < 0x80 then Some((b[0], 1))
    else if 0xC0 <= b[0] < 0xE0 && |b| >= 2 && IsContinuation(b[1]) then
      Some(((b[0] as int - 0xC0) * 64 + (b[1] as int - 0x80), 2))
    else if 0xE0 <= b[0] < 0xF0 && |b| >= 3 && IsContinuation(b[1]) && IsContinuation(b[2]) then
      Some(((b[0] as int - 0xE0) * 4096 + (b[1] as int - 0x80) * 64 + (b[2] as int - 0x80), 3))
    else if 0xF0 <= b[0] < 0xF8 && |b| >= 4 && IsContinuation(b[1]) && IsContinuation(b[2])
                                             && IsContinuation(b[3]) then
      Some(((b[0] as int - 0xF0) * 262144 + (b[1] as int - 0x80) * 4096
            + (b[2] as int - 0x80) * 64 + (b[3] as int - 0x80), 4))
    else None
  }

  /** Decodes a whole byte string into code points, or `None` when some
      byte does not start a well-formed sequence. */
  function Utf8Decode(b: seq<byte>): (r: Option<seq<int>>)
    decreases |b|
  {
    if b == [] then Some([])
    else match DecodeChar(b)
      case None => None
      case Some((cp, n)) =>
        match Utf8Decode(b[n..])
        case None => None
        case Some(rest) => Some([cp] + rest)
  }

  /** Division by 64 is determined by quotient and remainder. */
  lemma Div64(n: int, q: int, r: int)
    requires n == 64 * q + r && 0 <= r < 64
    ensures n / 64 == q && n % 64 == r
  {
  }

  /** Division by 4096 is determined by quotient and remainder. */
  lemma Div4096(n: int, q: int, r: int)
    requires n == 4096 * q + r && 0 <= r < 4096
    ensures n / 4096 == q && n % 4096 == r
  {
  }

  /** The three-byte form spelt with its digits in base 64. */
  lemma EncodeThree(c: char)
    requires 0x800 <= c as int < 0x10000
    ensures var cp := c as int;
      EncodeChar(c) == [0xE0 + cp / 4096, 0x80 + (cp % 4096) / 64, 0x80 + (cp % 4096) % 64]
  {
    var cp := c as int;
    var a, m := cp / 4096, cp % 4096;
    var b, d := m / 64, m % 64;
    Div64(cp, 64 * a + b, d);
    Div64(64 * a + b, a, b);
  }

  /** The four-byte form spelt with its digits in base 64. */
  lemma EncodeFour(c: char)
    requires 0x10000 <= c as int
    ensures var cp := c as int;
      var m := cp % 262144;
      EncodeChar(c) == [0xF0 + cp / 262144, 0x80 + m / 4096, 0x80 + (m % 4096) / 64, 0x80 + (m % 4096) % 64]
  {
    var cp := c as int;
    var a, m := cp / 262144, cp % 262144;
    var b, m2 := m / 4096, m % 4096;
    var d, e := m2 / 64, m2 % 64;
    Div4096(cp, 64 * a + b, 64 * d + e);
    Div64(64 * a + b, a, b);
    Div64(cp, 4096 * a + 64 * b + d, e);
    Div64(4096 * a + 64 * b + d, 64 * a + b, d);
  }

  lemma DecodeEncodeChar(c: char, rest: seq<byte>)
    ensures DecodeChar(EncodeChar(c) + rest) == Some((c as int, |EncodeChar(c)|))
  {
    var cp := c as int;
    if cp < 0x80 {
    } else if cp < 0x800 {
      Div64(cp, cp / 64, cp % 64);
    } else if cp < 0x10000 {
      EncodeThree(c);
    } else {
      EncodeFour(c);
    }
  }

  /** Decoding undoes encoding: the bytes of a string give back exactly its
      code points. */
  lemma {:induction false} Utf8RoundTrip(s: string)
    ensures Utf8Decode(Utf8Encode(s)) == Some(Codepoints(s))
  {
    if s != [] {
      var e := EncodeChar(s[0]);
      var b := Utf8Encode(s);
      assert b == e + Utf8Encode(s[1..]);
      DecodeEncodeChar(s[0], Utf8Encode(s[1..]));
      assert b[|e|..] == Utf8Encode(s[1..]);
      Utf8RoundTrip(s[1..]);
    }
  }

  lemma {:induction false} CodepointsInjective(s: string, t: string)
    requires Codepoints(s) == Codepoints(t)
    ensures s == t
  {
    if s != [] {
      assert Codepoints(s)[0] == Codepoints(t)[0];
      assert Codepoints(s)[1..] == Codepoints(s[1..]);
      assert Codepoints(t)[1..] == Codepoints(t[1..]);
      CodepointsInjective(s[1..], t[1..]);
    }
  }

  /** Different strings have different UTF-8 encodings. */
  lemma Utf8Injective(s: string, t: string)
    ensures Utf8Encode(s) == Utf8Encode(t) <==> s == t
  {
    if Utf8Encode(s) == Utf8Encode(t) {
      Utf8RoundTrip(s);
      Utf8RoundTrip(t);
      CodepointsInjective(s, t);
    }
  }

  // ---------------------------------------------------------------------
  // Base 16 (RFC 4648, section 8) and int(s, 16)
  // ---------------------------------------------------------------------

  /** The upper-case hex digit for `n`, as `base64.b16encode` writes it. */
  function HexDigit(n: int): (c: char)
    requires 0 <= n < 16
  {
    if n < 10 then ('0' as int + n) as char else ('A' as int + n - 10) as char
  }

  /** The value of a hex digit, in either case, as `int(s, 16)` reads it. */
  function DigitValue(c: char): (r: Option<int>)
    ensures r.Some? ==> 0 <= r.value < 16
  {
    if '0' <= c <= '9' then Some(c as int - '0' as int)
    else if 'A' <= c <= 'F' then Some(c as int - 'A' as int + 10)
    else if 'a' <= c <= 'f' then Some(c as int - 'a' as int + 10)
    else None
  }

  /** `base64.b16encode(b)`: two upper-case hex digits per byte, high
      nibble first. */
  function Base16Encode(b: seq<byte>): (r: string)
    ensures |r| == 2 * |b|
  {
    if b == [] then []
    else
      var x := b[|b| - 1];
      Base16Encode(b[..|b| - 1]) + [HexDigit(x / 16), HexDigit(x % 16)]
  }

  predicate AllHex(s: string) {
    forall i :: 0 <= i < |s| ==> DigitValue(s[i]).Some?
  }

  /** The number a string of hex digits denotes, most significant first. */
  function HexValue(s: string): (r: nat)
    requires AllHex(s)
  {
    if s == [] then 0
    else HexValue(s[..|s| - 1]) * 16 + DigitValue(s[|s| - 1]).value
  }

  /** `int(s, 16)` on strings made of hex digits only; the empty string
      raises `ValueError`. Python also accepts a sign, surrounding blanks,
      underscores and a `0x` prefix, which `b16encode` never produces and
      which this model rejects. */
  function ParseHexInt(s: string): (r: Result<int>)
    ensures r.Ok? <==> s != [] && AllHex(s)
    ensures r.Err? ==> r.error == ValueError
    ensures r.Ok? ==> r.value >= 0
  {
    if s == [] || !AllHex(s) then Err(ValueError) else Ok(HexValue(s))
  }

  /** The unsigned big-endian number a byte string denotes. */
  function BigEndian(b: seq<byte>): (r: nat)
  {
    if b == [] then 0 else BigEndian(b[..|b| - 1]) * 256 + b[|b| - 1]
  }

  /** Reading back the hex text of a byte string gives its big-endian value. */
  lemma {:induction false} HexValueOfBase16(b: seq<byte>)
    ensures AllHex(Base16Encode(b))
    ensures HexValue(Base16Encode(b)) == BigEndian(b)
  {
    if b != [] {
      var p := b[..|b| - 1];
      var x := b[|b| - 1];
      HexValueOfBase16(p);
      var s := Base16Encode(b);
      var hi, lo := HexDigit(x / 16), HexDigit(x % 16);
      assert s == Base16Encode(p) + [hi, lo];
      assert DigitValue(hi) == Some(x / 16);
      assert DigitValue(lo) == Some(x % 16);
      assert AllHex(s) by {
        forall i | 0 <= i < |s| ensures DigitValue(s[i]).Some? {
          if i < |s| - 2 { assert s[i] == Base16Encode(p)[i]; }
        }
      }
      assert s[..|s| - 1] == Base16Encode(p) + [hi];
      assert s[..|s| - 1][..|s| - 2] == Base16Encode(p);
      assert HexValue(s[..|s| - 1]) == HexValue(Base16Encode(p)) * 16 + x / 16;
    }
  }

  /** `int(base64.b16encode(b), 16)` is the big-endian value of `b`, and it
      raises `ValueError` exactly when `b` is empty. */
  lemma ParseBase16(b: seq<byte>)
    ensures b == [] ==> ParseHexInt(Base16Encode(b)) == Err(ValueError)
    ensures b != [] ==> ParseHexInt(Base16Encode(b)) == Ok(BigEndian(b))
  {
    HexValueOfBase16(b);
  }

  // ---------------------------------------------------------------------
  // When two byte strings have the same big-endian value
  // ---------------------------------------------------------------------

  /** `b` without its leading zero bytes. */
  function StripZeros(b: seq<byte>): (r: seq<byte>)
    ensures r == [] || r[0] != 0
  {
    if b != [] && b[0] == 0 then StripZeros(b[1..]) else b
  }

  function Pow256(n: nat): (r: nat)
    ensures r >= 1
  {
    if n == 0 then 1 else 256 * Pow256(n - 1)
  }

  lemma {:induction false} Pow256Monotonic(m: nat, n: nat)
    requires m <= n
    ensures Pow256(m) <= Pow256(n)
  {
    if m < n { Pow256Monotonic(m, n - 1); }
  }

  lemma {:induction false} BigEndianLeadingZero(b: seq<byte>)
    ensures BigEndian([0] + b) == BigEndian(b)
  {
    if b != [] {
      var z := [0] + b;
      assert z[..|z| - 1] == [0] + b[..|b| - 1];
      BigEndianLeadingZero(b[..|b| - 1]);
    }
  }

  lemma {:induction false} BigEndianStripZeros(b: seq<byte>)
    ensures BigEndian(StripZeros(b)) == BigEndian(b)
  {
    if b != [] && b[0] == 0 {
      BigEndianStripZeros(b[1..]);
      assert b == [0] + b[1..];
      BigEndianLeadingZero(b[1..]);
    }
  }

  lemma {:induction false} BigEndianUpper(b: seq<byte>)
    ensures BigEndian(b) < Pow256(|b|)
  {
    if b != [] { BigEndianUpper(b[..|b| - 1]); }
  }

  lemma {:induction false} BigEndianLower(b: seq<byte>)
    requires b != [] && b[0] != 0
    ensures BigEndian(b) >= Pow256(|b| - 1)
  {
    if |b| > 1 {
      var p := b[..|b| - 1];
      assert p[0] == b[0];
      BigEndianLower(p);
    }
  }

  lemma {:induction false} BigEndianSameLength(b: seq<byte>, c: seq<byte>)
    requires |b| == |c| && BigEndian(b) == BigEndian(c)
    ensures b == c
  {
    if b != [] {
      var n := |b| - 1;
      var vb, vc := BigEndian(b[..n]), BigEndian(c[..n]);
      assert vb * 256 + b[n] == vc * 256 + c[n];
      assert b[n] == c[n] && vb == vc;
      BigEndianSameLength(b[..n], c[..n]);
      assert b == b[..n] + [b[n]];
      assert c == c[..n] + [c[n]];
    }
  }

  /** A byte string without leading zeros outweighs every shorter one. */
  lemma LongerIsLarger(b: seq<byte>, c: seq<byte>)
    requires |b| < |c| && c[0] != 0
    ensures BigEndian(b) < BigEndian(c)
  {
    Pow256Monotonic(|b|, |c| - 1);
    BigEndianUpper(b);
    BigEndianLower(c);
  }

  /** Two byte strings without leading zeros have the same value only if
      they are the same string. */
  lemma BigEndianStrippedInjective(b: seq<byte>, c: seq<byte>)
    requires b == [] || b[0] != 0
    requires c == [] || c[0] != 0
    requires BigEndian(b) == BigEndian(c)
    ensures b == c
  {
    if |b| < |c| {
      LongerIsLarger(b, c);
    } else if |c| < |b| {
      LongerIsLarger(c, b);
    } else {
      BigEndianSameLength(b, c);
    }
  }

  /** Two byte strings have the same big-endian value exactly when they
      differ only in leading zero bytes. */
  lemma BigEndianEqual(b: seq<byte>, c: seq<byte>)
    ensures BigEndian(b) == BigEndian(c) <==> StripZeros(b) == StripZeros(c)
  {
    BigEndianStripZeros(b);
    BigEndianStripZeros(c);
    if BigEndian(b) == BigEndian(c) {
      BigEndianStrippedInjective(StripZeros(b), StripZeros(c));
    }
  }

  // ---------------------------------------------------------------------
  // Leading NUL characters are the only leading zero bytes
  // ---------------------------------------------------------------------

  /** `s` without its leading NUL characters. */
  function StripNul(s: string): (r: string)
    ensures r == [] || r[0] != '\0'
  {
    if s != [] && s[0] == '\0' then StripNul(s[1..]) else s
  }

  /** Removing leading zero bytes from an encoding is the same as encoding
      the string without its leading NUL characters. */
  lemma {:induction false} StripZerosOfUtf8(s: string)
    ensures StripZeros(Utf8Encode(s)) == Utf8Encode(StripNul(s))
  {
    if s != [] {
      var e := Utf8Encode(s);
      if s[0] == '\0' {
        assert EncodeChar(s[0]) == [0];
        assert e == [0] + Utf8Encode(s[1..]);
        assert e[1..] == Utf8Encode(s[1..]);
        StripZerosOfUtf8(s[1..]);
      } else {
        assert e[0] == EncodeChar(s[0])[0];
      }
    }
  }
}

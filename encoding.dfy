/**
 * Byte-level encodings used to derive cache keys from URL strings:
 * UTF-8 encoding of a string (the `dataUsingEncoding(NSUTF8StringEncoding)` step),
 * lowercase hexadecimal rendering of bytes, and the printed form of an NSData
 * value (`<68656c6c 6f>`), whose formatting characters the older key derivation strips.
 */
module Encoding {
  import opened Wrappers

  newtype byte = x: int | 0 <= x < 256

  // ---------------------------------------------------------------------------
  // UTF-8

  /** The bytes UTF-8 uses for one Unicode scalar value. */
  function EncodeCodePoint(n: int): (r: seq<byte>)
    requires 0 <= n < 0x11_0000
    ensures 1 <= |r| <= 4
  {
    if n < 0x80 then
      [n as byte]
    else if n < 0x800 then
      [(0xC0 + n / 0x40) as byte, (0x80 + n % 0x40) as byte]
    else if n < 0x1_0000 then
      [(0xE0 + n / 0x1000) as byte, (0x80 + (n / 0x40) % 0x40) as byte, (0x80 + n % 0x40) as byte]
    else
      [(0xF0 + n / 0x4_0000) as byte, (0x80 + (n / 0x1000) % 0x40) as byte,
       (0x80 + (n / 0x40) % 0x40) as byte, (0x80 + n % 0x40) as byte]
  }

  /** UTF-8 encoding of a string. */
  function Utf8(s: string): (r: seq<byte>)
    ensures |s| <= |r| <= 4 * |s|
  {
    if s == [] then [] else EncodeCodePoint(s[0] as int) + Utf8(s[1..])
  }

  /** Code points of a string, as integers. */
  function CodePoints(s: string): (r: seq<int>)
    ensures |r| == |s|
  {
    if s == [] then [] else [s[0] as int] + CodePoints(s[1..])
  }

  /**
   * Reads one code point at the front of `b`: its value and how many bytes it
   * took. The length is chosen by the lead byte, as UTF-8 prescribes.
   */
  function DecodeOne(b: seq<byte>): (r: Option<(int, nat)>)
    ensures r.Some? ==> 1 <= r.value.1 <= |b|
  {
    if |b| == 0 then None
    else if b[0] < 0x80 then Some((b[0] as int, 1))
    else if 0xC0 <= b[0] < 0xE0 && |b| >= 2 then
      Some(((b[0] as int - 0xC0) * 0x40 + (b[1] as int - 0x80), 2))
    else if 0xE0 <= b[0] < 0xF0 && |b| >= 3 then
      Some(((b[0] as int - 0xE0) * 0x1000 + (b[1] as int - 0x80) * 0x40 + (b[2] as int - 0x80), 3))
    else if 0xF0 <= b[0] && |b| >= 4 then
      Some(((b[0] as int - 0xF0) * 0x4_0000 + (b[1] as int - 0x80) * 0x1000
            + (b[2] as int - 0x80) * 0x40 + (b[3] as int - 0x80), 4))
    else None
  }

  /** Decodes a whole byte sequence into code points; the left inverse of `Utf8`. */
  function DecodeUtf8(b: seq<byte>): (r: Option<seq<int>>)
    decreases |b|
  {
    if b == [] then Some([])
    else match DecodeOne(b)
      case None => None
      case Some((cp, len)) =>
        match DecodeUtf8(b[len..])
        case None => None
        case Some(rest) => Some([cp] + rest)
  }

  lemma EncodeCodePointDecodes(n: int, rest: seq<byte>)
    requires 0 <= n < 0x11_0000
    ensures DecodeOne(EncodeCodePoint(n) + rest) == Some((n, |EncodeCodePoint(n)|))
  {
    var e := EncodeCodePoint(n);
    if n < 0x80 {
    } else if n < 0x800 {
      assert n == (n / 0x40) * 0x40 + n % 0x40;
    } else if n < 0x1_0000 {
      assert n / 0x40 == (n / 0x1000) * 0x40 + (n / 0x40) % 0x40;
      assert n == (n / 0x40) * 0x40 + n % 0x40;
    } else {
      assert n / 0x1000 == (n / 0x4_0000) * 0x40 + (n / 0x1000) % 0x40;
      assert n / 0x40 == (n / 0x1000) * 0x40 + (n / 0x40) % 0x40;
      assert n == (n / 0x40) * 0x40 + n % 0x40;
    }
  }

  /** Round trip: decoding the UTF-8 encoding of a string gives back its code points. */
  lemma {:induction false} Utf8RoundTrip(s: string)
    ensures DecodeUtf8(Utf8(s)) == Some(CodePoints(s))
  {
    if s != [] {
      var e := EncodeCodePoint(s[0] as int);
      var tail := Utf8(s[1..]);
      EncodeCodePointDecodes(s[0] as int, tail);
      assert Utf8(s) == e + tail;
      assert (e + tail)[|e|..] == tail;
      Utf8RoundTrip(s[1..]);
    }
  }

  lemma {:induction false} CodePointsInjective(s: string, t: string)
    requires CodePoints(s) == CodePoints(t)
    ensures s == t
  {
    if s != [] && t != [] {
      assert CodePoints(s)[0] == CodePoints(t)[0];
      assert CodePoints(s)[1..] == CodePoints(s[1..]);
      assert CodePoints(t)[1..] == CodePoints(t[1..]);
      CodePointsInjective(s[1..], t[1..]);
      assert s == [s[0]] + s[1..];
      assert t == [t[0]] + t[1..];
    }
  }

  /** Distinct strings have distinct UTF-8 encodings. */
  lemma Utf8Injective(s: string, t: string)
    requires s != t
    ensures Utf8(s) != Utf8(t)
  {
    if Utf8(s) == Utf8(t) {
      Utf8RoundTrip(s);
      Utf8RoundTrip(t);
      CodePointsInjective(s, t);
    }
  }

  // ---------------------------------------------------------------------------
  // Hexadecimal rendering

  predicate IsHexDigit(c: char) {
    ('0' <= c <= '9') || ('a' <= c <= 'f')
  }

  function HexDigit(d: int): (c: char)
    requires 0 <= d < 16
    ensures IsHexDigit(c)
  {
    if d < 10 then (48 + d) as char else (97 + d - 10) as char
  }

  function HexValue(c: char): (d: int)
    requires IsHexDigit(c)
    ensures 0 <= d < 16 && HexDigit(d) == c
  {
    if c <= '9' then c as int - 48 else c as int - 97 + 10
  }

  /** Two lowercase hexadecimal digits per byte, most significant digit first. */
  function Hex(b: seq<byte>): (r: string)
    ensures |r| == 2 * |b|
    ensures forall i :: 0 <= i < |r| ==> IsHexDigit(r[i])
  {
    if b == [] then [] else [HexDigit(b[0] as int / 16), HexDigit(b[0] as int % 16)] + Hex(b[1..])
  }

  /** Parses a hexadecimal rendering back into bytes; the left inverse of `Hex`. */
  function UnHex(s: string): (r: Option<seq<byte>>)
    decreases |s|
  {
    if s == [] then Some([])
    else if |s| >= 2 && IsHexDigit(s[0]) && IsHexDigit(s[1]) then
      match UnHex(s[2..])
      case None => None
      case Some(rest) => Some([(HexValue(s[0]) * 16 + HexValue(s[1])) as byte] + rest)
    else None
  }

  lemma {:induction false} HexRoundTrip(b: seq<byte>)
    ensures UnHex(Hex(b)) == Some(b)
  {
    if b != [] {
      var h := Hex(b);
      var x := b[0] as int;
      assert h[0] == HexDigit(x / 16) && h[1] == HexDigit(x % 16);
      assert HexValue(h[0]) == x / 16 by {
        var v := HexValue(h[0]);
        assert HexDigit(v) == HexDigit(x / 16);
        HexDigitInjective(v, x / 16);
      }
      assert HexValue(h[1]) == x % 16 by {
        var v := HexValue(h[1]);
        assert HexDigit(v) == HexDigit(x % 16);
        HexDigitInjective(v, x % 16);
      }
      assert h[2..] == Hex(b[1..]);
      HexRoundTrip(b[1..]);
      assert b == [b[0]] + b[1..];
    }
  }

  lemma HexDigitInjective(d: int, e: int)
    requires 0 <= d < 16 && 0 <= e < 16
    requires HexDigit(d) == HexDigit(e)
    ensures d == e
  {
  }

  /** Distinct byte sequences have distinct hexadecimal renderings. */
  lemma HexInjective(b: seq<byte>, c: seq<byte>)
    requires b != c
    ensures Hex(b) != Hex(c)
  {
    HexRoundTrip(b);
    HexRoundTrip(c);
  }

  lemma {:induction false} HexConcat(b: seq<byte>, c: seq<byte>)
    ensures Hex(b + c) == Hex(b) + Hex(c)
  {
    if b != [] {
      assert (b + c)[1..] == b[1..] + c;
      HexConcat(b[1..], c);
    } else {
      assert b + c == c;
    }
  }

  // ---------------------------------------------------------------------------
  // The printed form of NSData and the characters the older key derivation strips

  /** Hex groups of four bytes separated by single spaces. */
  function Grouped(b: seq<byte>): (r: string)
    decreases |b|
  {
    if |b| <= 4 then Hex(b) else Hex(b[..4]) + " " + Grouped(b[4..])
  }

  /** `NSData.description`: the grouped hex digits between angle brackets. */
  function Description(b: seq<byte>): (r: string)
  {
    "<" + Grouped(b) + ">"
  }

  /** Every occurrence of `c` replaced by the empty string. */
  function RemoveAll(s: string, c: char): (r: string)
    ensures c !in r
    ensures |r| <= |s|
    ensures forall x :: x in r ==> x in s
  {
    if s == [] then [] else (if s[0] == c then [] else [s[0]]) + RemoveAll(s[1..], c)
  }

  lemma {:induction false} RemoveAllConcat(s: string, t: string, c: char)
    ensures RemoveAll(s + t, c) == RemoveAll(s, c) + RemoveAll(t, c)
  {
    if s != [] {
      assert (s + t)[0] == s[0];
      assert (s + t)[1..] == s[1..] + t;
      RemoveAllConcat(s[1..], t, c);
    } else {
      assert s + t == t;
    }
  }

  lemma {:induction false} RemoveAllAbsent(s: string, c: char)
    requires c !in s
    ensures RemoveAll(s, c) == s
  {
    if s != [] {
      assert s[0] != c;
      assert c !in s[1..];
      RemoveAllAbsent(s[1..], c);
      assert s == [s[0]] + s[1..];
    }
  }

  /** The three literal replacements of " ", "<" and ">" by "", in that order. */
  function StripFormatting(s: string): (r: string)
    ensures ' ' !in r && '<' !in r && '>' !in r
  {
    RemoveAll(RemoveAll(RemoveAll(s, ' '), '<'), '>')
  }

  lemma HexHasNoFormatting(b: seq<byte>)
    ensures ' ' !in Hex(b) && '<' !in Hex(b) && '>' !in Hex(b)
  {
  }

  lemma {:induction false} StripGrouped(b: seq<byte>)
    ensures RemoveAll(Grouped(b), ' ') == Hex(b)
    ensures '<' !in Hex(b) && '>' !in Hex(b)
    decreases |b|
  {
    HexHasNoFormatting(b);
    if |b| <= 4 {
      RemoveAllAbsent(Hex(b), ' ');
    } else {
      HexHasNoFormatting(b[..4]);
      RemoveAllConcat(Hex(b[..4]) + " ", Grouped(b[4..]), ' ');
      RemoveAllConcat(Hex(b[..4]), " ", ' ');
      RemoveAllAbsent(Hex(b[..4]), ' ');
      RemoveAllSingle(' ', ' ');
      StripGrouped(b[4..]);
      HexConcat(b[..4], b[4..]);
      assert b[..4] + b[4..] == b;
    }
  }

  lemma RemoveAllSingle(x: char, c: char)
    ensures RemoveAll([x], c) == if x == c then [] else [x]
  {
    assert [x][1..] == [];
  }

  lemma RemoveAllWrapped(x: string, g: string, y: string, c: char)
    ensures RemoveAll(x + g + y, c) == RemoveAll(x, c) + RemoveAll(g, c) + RemoveAll(y, c)
  {
    RemoveAllConcat(x + g, y, c);
    RemoveAllConcat(x, g, c);
  }

  /**
   * Stripping the spaces and angle brackets from the printed form of a byte
   * sequence leaves exactly its plain lowercase hexadecimal rendering.
   */
  lemma StripDescriptionIsHex(b: seq<byte>)
    ensures StripFormatting(Description(b)) == Hex(b)
  {
    var h := Hex(b);
    StripSpaces(b);
    StripOpening(h);
    StripClosing(h);
  }

  /** Removing the spaces from the description leaves the hex digits between the brackets. */
  lemma StripSpaces(b: seq<byte>)
    ensures RemoveAll(Description(b), ' ') == "<" + Hex(b) + ">"
  {
    StripGrouped(b);
    RemoveAllWrapped("<", Grouped(b), ">", ' ');
    RemoveAllSingle('<', ' ');
    RemoveAllSingle('>', ' ');
  }

  /** Removing `<` from bracketed hex digits leaves the digits and the closing bracket. */
  lemma StripOpening(h: string)
    requires '<' !in h
    ensures RemoveAll("<" + h + ">", '<') == h + ">"
  {
    RemoveAllWrapped("<", h, ">", '<');
    RemoveAllAbsent(h, '<');
    RemoveAllSingle('<', '<');
    RemoveAllSingle('>', '<');
  }

  /** Removing `>` from the digits and the closing bracket leaves the digits. */
  lemma StripClosing(h: string)
    requires '>' !in h
    ensures RemoveAll(h + ">", '>') == h
  {
    RemoveAllConcat(h, ">", '>');
    RemoveAllAbsent(h, '>');
    RemoveAllSingle('>', '>');
  }

}

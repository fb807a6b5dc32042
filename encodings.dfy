/**
 * The two text encodings a receipt signature goes through:
 * `Encoding.ASCII.GetBytes`, which turns the text to hash into bytes, and
 * `byte.ToString("x2")`, which writes each digest byte as two lower-case
 * hexadecimal digits.
 */
module Encodings {
  import opened Basics

  /**
   * `Encoding.ASCII` for one character: characters of seven bits are kept,
   * every other character becomes '?' (the encoder's replacement fallback).
   */
  function AsciiByte(c: char): byte
  {
    if c as int < 0x80 then c as int as byte else 0x3F
  }

  /** `Encoding.ASCII.GetBytes(s)`: one byte per character. */
  function Ascii(s: string): seq<byte>
  {
    seq(|s|, i requires 0 <= i < |s| => AsciiByte(s[i]))
  }

  /** Reading bytes below 0x80 back as characters. */
  function AsciiText(bs: seq<byte>): string
  {
    seq(|bs|, i requires 0 <= i < |bs| => (if bs[i] < 0x80 then bs[i] as int as char else '?'))
  }

  predicate IsAscii(s: string)
  {
    forall i :: 0 <= i < |s| ==> s[i] as int < 0x80
  }

  /**
   * ASCII text encodes to its own code points and decodes back to itself;
   * any other character encodes as '?', so only ASCII text survives the
   * round trip.
   */
  lemma AsciiRoundTrip(s: string)
    ensures IsAscii(s) <==> AsciiText(Ascii(s)) == s
    ensures forall i :: 0 <= i < |s| && s[i] as int >= 0x80 ==> Ascii(s)[i] == 0x3F
  {
    var t := AsciiText(Ascii(s));
    assert |t| == |s|;
    if IsAscii(s) {
      forall i | 0 <= i < |s| ensures t[i] == s[i] {
        CharRoundTrip(s[i]);
      }
    } else {
      var i :| 0 <= i < |s| && s[i] as int >= 0x80;
      assert Ascii(s)[i] == 0x3F;
      assert t[i] == '?';
    }
  }

  lemma CharRoundTrip(c: char)
    requires c as int < 0x80
    ensures AsciiByte(c) < 0x80 && (AsciiByte(c) as int) as char == c
  {
  }

  const HexDigits: string := "0123456789abcdef"

  /** `b.ToString("x2")`: the high nibble, then the low one, as lower-case digits. */
  function HexByte(b: byte): (s: string)
    ensures |s| == 2
  {
    [HexDigits[b as int / 16], HexDigits[b as int % 16]]
  }

  /** Every byte in turn, as `StringBuilder.Append` in a `foreach` builds it. */
  function Hex(bs: seq<byte>): string
  {
    if bs == [] then [] else HexByte(bs[0]) + Hex(bs[1..])
  }

  /** The value of a lower-case hexadecimal digit. */
  function DigitValue(c: char): (v: nat)
    ensures v < 16
  {
    if '0' <= c <= '9' then c as int - '0' as int
    else if 'a' <= c <= 'f' then c as int - 'a' as int + 10
    else 0
  }

  /** The byte two digits stand for, the high nibble first. */
  function PairValue(high: char, low: char): byte
  {
    (16 * DigitValue(high) + DigitValue(low)) as byte
  }

  /** The inverse of `Hex`: two digits per byte. */
  function Unhex(s: string): seq<byte>
    decreases |s|
  {
    if |s| < 2 then [] else [PairValue(s[0], s[1])] + Unhex(s[2..])
  }

  predicate IsLowerHex(s: string)
  {
    forall i :: 0 <= i < |s| ==> s[i] in HexDigits
  }

  /** Each digit is read back as the nibble it was written for. */
  lemma DigitRoundTrip(i: int)
    requires 0 <= i < 16
    ensures DigitValue(HexDigits[i]) == i
  {
    if i < 10 {
      assert HexDigits[i] as int == '0' as int + i;
    } else {
      assert HexDigits[i] as int == 'a' as int + i - 10;
    }
  }

  /** Two digits give back their byte. */
  lemma HexByteRoundTrip(b: byte)
    ensures PairValue(HexByte(b)[0], HexByte(b)[1]) == b
    ensures IsLowerHex(HexByte(b))
  {
    DigitRoundTrip(b as int / 16);
    DigitRoundTrip(b as int % 16);
  }

  /** Appending a byte appends its two digits. */
  lemma {:induction false} HexAppend(bs: seq<byte>, b: byte)
    ensures Hex(bs + [b]) == Hex(bs) + HexByte(b)
    decreases |bs|
  {
    if bs == [] {
      assert [b][1..] == [];
      assert Hex([b]) == HexByte(b) + Hex([]);
    } else {
      assert (bs + [b])[1..] == bs[1..] + [b];
      HexAppend(bs[1..], b);
    }
  }

  /** Two digits in front of any text are read back as their byte. */
  lemma UnhexStep(b: byte, rest: string)
    ensures Unhex(HexByte(b) + rest) == [b] + Unhex(rest)
  {
    var h := HexByte(b);
    var s := h + rest;
    HexByteRoundTrip(b);
    assert s[0] == h[0] && s[1] == h[1] && s[2..] == rest;
  }

  /**
   * The text has two lower-case digits per byte, and `Unhex` recovers the
   * bytes: the encoding loses nothing.
   */
  lemma {:induction false} HexRoundTrip(bs: seq<byte>)
    ensures |Hex(bs)| == 2 * |bs|
    ensures IsLowerHex(Hex(bs))
    ensures Unhex(Hex(bs)) == bs
    decreases |bs|
  {
    if bs != [] {
      HexRoundTrip(bs[1..]);
      HexByteRoundTrip(bs[0]);
      UnhexStep(bs[0], Hex(bs[1..]));
      var s := Hex(bs);
      assert s == HexByte(bs[0]) + Hex(bs[1..]);
      forall i | 0 <= i < |s| ensures s[i] in HexDigits {
        if i < 2 {
          assert s[i] == HexByte(bs[0])[i];
        } else {
          assert s[i] == Hex(bs[1..])[i - 2];
        }
      }
      assert bs == [bs[0]] + bs[1..];
    }
  }
}

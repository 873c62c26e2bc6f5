/**
 * Lowercase hexadecimal encoding of canonical digest bytes (the Base16
 * alphabet of section 8 of RFC 4648, lower case): two characters per byte,
 * high nibble first.  `Hexlify` is the specification (it is also what
 * `binascii.hexlify` returns), `Unhexlify` its inverse, and `HexEncode` the
 * character-by-character loop that the C extension runs to fill its result
 * buffer.
 */
module Hex {
  import opened Optional
  import opened Words

  type Nibble = v: int | 0 <= v < 16

  predicate IsLowerHexChar(c: char) {
    '0' <= c <= '9' || 'a' <= c <= 'f'
  }

  predicate IsLowerHex(s: string) {
    forall i :: 0 <= i < |s| ==> IsLowerHexChar(s[i])
  }

  /** One nibble as a character: `'0' + v` up to nine, `'a' + v - 10` above. */
  function HexDigit(v: Nibble): (c: char)
    ensures IsLowerHexChar(c)
    ensures v <= 9 <==> '0' <= c <= '9'
  {
    if v > 9 then (v + 'a' as int - 10) as char else (v + '0' as int) as char
  }

  /** The value of one hexadecimal digit; upper-case digits are accepted too. */
  function DigitValue(c: char): (r: Option<Nibble>)
    ensures r.Some? <==> IsLowerHexChar(c) || 'A' <= c <= 'F'
  {
    if '0' <= c <= '9' then Some(c as int - '0' as int)
    else if 'a' <= c <= 'f' then Some(c as int - 'a' as int + 10)
    else if 'A' <= c <= 'F' then Some(c as int - 'A' as int + 10)
    else None
  }

  lemma DigitValueOfHexDigit(v: Nibble)
    ensures DigitValue(HexDigit(v)) == Some(v)
  {
  }

  lemma HexDigitOfDigitValue(c: char)
    requires IsLowerHexChar(c)
    ensures DigitValue(c).Some? && HexDigit(DigitValue(c).value) == c
  {
  }

  /** High and low nibble of a byte. */
  function High(b: Byte): Nibble { b / 16 }
  function Low(b: Byte): Nibble { b % 16 }

  /** The byte whose high and low nibbles are `hi` and `lo`. */
  function ByteOf(hi: Nibble, lo: Nibble): (b: Byte)
    ensures High(b) == hi && Low(b) == lo
  {
    hi * 16 + lo
  }

  /** The two characters one byte becomes. */
  function HexByte(b: Byte): string {
    [HexDigit(High(b)), HexDigit(Low(b))]
  }

  /** Hex of a byte string: byte i becomes characters 2i (high nibble) and 2i+1 (low nibble). */
  function Hexlify(bs: seq<Byte>): (s: string)
    ensures |s| == 2 * |bs|
    ensures IsLowerHex(s)
  {
    if |bs| == 0 then "" else Hexlify(bs[..|bs| - 1]) + HexByte(bs[|bs| - 1])
  }

  /** Byte i of the input becomes characters 2i (high nibble) and 2i+1 (low nibble) of its hex. */
  lemma {:induction false} HexlifyAt(bs: seq<Byte>, i: nat)
    requires i < |bs|
    ensures Hexlify(bs)[2 * i] == HexDigit(High(bs[i]))
    ensures Hexlify(bs)[2 * i + 1] == HexDigit(Low(bs[i]))
  {
    var n := |bs|;
    if i < n - 1 {
      HexlifyAt(bs[..n - 1], i);
    }
  }

  /** Every character of `s` is a hexadecimal digit (either case). */
  predicate AllHexDigits(s: string) {
    forall i :: 0 <= i < |s| ==> DigitValue(s[i]).Some?
  }

  lemma AllHexDigitsSplit(s: string)
    requires |s| >= 2
    ensures AllHexDigits(s) <==>
      AllHexDigits(s[..|s| - 2]) && DigitValue(s[|s| - 2]).Some? && DigitValue(s[|s| - 1]).Some?
  {
    assert forall i :: 0 <= i < |s| - 2 ==> s[..|s| - 2][i] == s[i];
  }

  /**
   * Decoding as `binascii.unhexlify` does it: `None` for a string of odd
   * length or one holding a character that is not a hexadecimal digit.
   */
  function Unhexlify(s: string): (r: Option<seq<Byte>>)
    ensures r.Some? <==> |s| % 2 == 0 && AllHexDigits(s)
    ensures r.Some? ==> 2 * |r.value| == |s|
  {
    if |s| == 0 then Some([])
    else if |s| == 1 then None
    else
      var n := |s|;
      var init, hi, lo := Unhexlify(s[..n - 2]), DigitValue(s[n - 2]), DigitValue(s[n - 1]);
      AllHexDigitsSplit(s);
      if init.Some? && hi.Some? && lo.Some? then Some(init.value + [ByteOf(hi.value, lo.value)])
      else None
  }

  /** Decoding the hex of any byte string gives back those bytes. */
  lemma {:induction false} UnhexlifyHexlify(bs: seq<Byte>)
    ensures Unhexlify(Hexlify(bs)) == Some(bs)
  {
    if |bs| > 0 {
      var n := |bs|;
      var init, last := bs[..n - 1], bs[n - 1];
      UnhexlifyHexlify(init);
      var s := Hexlify(bs);
      assert s == Hexlify(init) + HexByte(last);
      assert s[..|s| - 2] == Hexlify(init);
      DigitValueOfHexDigit(High(last));
      DigitValueOfHexDigit(Low(last));
      assert ByteOf(High(last), Low(last)) == last;
      assert init + [last] == bs;
    }
  }

  lemma HexlifySnoc(bs: seq<Byte>, b: Byte)
    ensures Hexlify(bs + [b]) == Hexlify(bs) + HexByte(b)
  {
    assert (bs + [b])[..|bs|] == bs;
  }

  lemma UnhexlifySnoc(s: string)
    requires |s| >= 2 && Unhexlify(s[..|s| - 2]).Some?
    requires DigitValue(s[|s| - 2]).Some? && DigitValue(s[|s| - 1]).Some?
    ensures Unhexlify(s) ==
      Some(Unhexlify(s[..|s| - 2]).value + [ByteOf(DigitValue(s[|s| - 2]).value, DigitValue(s[|s| - 1]).value)])
  {
  }

  /** Every even-length lowercase hex string is the hex of the bytes it decodes to. */
  lemma {:induction false} HexlifyUnhexlify(s: string)
    requires |s| % 2 == 0 && IsLowerHex(s)
    ensures Unhexlify(s).Some? && Hexlify(Unhexlify(s).value) == s
  {
    if |s| > 0 {
      var n := |s|;
      var init := s[..n - 2];
      assert IsLowerHex(init) by {
        forall i | 0 <= i < |init| ensures IsLowerHexChar(init[i]) {
          assert init[i] == s[i];
        }
      }
      HexlifyUnhexlify(init);
      var bs := Unhexlify(init).value;
      var c1, c2 := s[n - 2], s[n - 1];
      assert IsLowerHexChar(c1) && IsLowerHexChar(c2);
      HexDigitOfDigitValue(c1);
      HexDigitOfDigitValue(c2);
      var b := ByteOf(DigitValue(c1).value, DigitValue(c2).value);
      UnhexlifySnoc(s);
      HexlifySnoc(bs, b);
      assert HexByte(b) == [c1, c2];
      assert s == init + [c1, c2];
    }
  }

  /** Hex is injective: distinct byte strings have distinct hex. */
  lemma HexlifyInjective(a: seq<Byte>, b: seq<Byte>)
    requires Hexlify(a) == Hexlify(b)
    ensures a == b
  {
    UnhexlifyHexlify(a);
    UnhexlifyHexlify(b);
  }

  /**
   * The value a C `char` holding byte `b` has: the byte itself where `char`
   * is unsigned, its two's-complement reading where `char` is signed.
   */
  function CharValue(b: Byte, charIsSigned: bool): (v: int)
    ensures v % 256 == b
  {
    if charIsSigned && b >= 128 then b - 256 else b
  }

  /**
   * `(c >> 4) & 0xf` and `c & 0xf` on a possibly negative `char` promoted to
   * `int` give the byte's high and low nibble whatever the signedness of
   * `char`: `>>` is an arithmetic shift (floor division by 16) and `& 0xf`
   * on a two's-complement value is the remainder modulo 16.
   */
  lemma MaskedNibbles(b: Byte, charIsSigned: bool)
    ensures (CharValue(b, charIsSigned) / 16) % 16 == High(b)
    ensures CharValue(b, charIsSigned) % 16 == Low(b)
  {
  }

  /**
   * The loop of the C extension: `retbuf` gets two characters per digest
   * byte, written at `j++`, the high nibble first.
   */
  method HexEncode(digest: seq<Byte>, charIsSigned: bool) returns (hex: string)
    ensures hex == Hexlify(digest)
  {
    var retbuf := new char[2 * |digest|];
    var i, j := 0, 0;
    while i < |digest|
      invariant 0 <= i <= |digest| && j == 2 * i
      invariant retbuf[..j] == Hexlify(digest[..i])
    {
      var v := CharValue(digest[i], charIsSigned);
      MaskedNibbles(digest[i], charIsSigned);
      var c: Nibble := (v / 16) % 16;
      retbuf[j] := HexDigit(c);
      j := j + 1;
      c := v % 16;
      retbuf[j] := HexDigit(c);
      j := j + 1;
      assert digest[..i + 1][..i] == digest[..i];
      assert retbuf[..j] == retbuf[..j - 2] + HexByte(digest[i]);
      i := i + 1;
    }
    assert digest[..i] == digest;
    hex := retbuf[..];
  }
}

/**
 * The canonical form of a digest: its fixed-width big-endian bytes.  This is
 * what `XXH32_canonicalFromHash`/`XXH64_canonicalFromHash` write in the C
 * extension and what `struct.pack('>I')`/`struct.pack('>Q')` return in the
 * cffi binding.
 */
module Canonical {
  import opened Words

  const Xxh32DigestSize: nat := 4
  const Xxh64DigestSize: nat := 8

  function Pow256(w: nat): (p: nat)
    ensures p > 0
  {
    if w == 0 then 1 else 256 * Pow256(w - 1)
  }

  /** The `w` low-order bytes of `n`, most significant first. */
  function ToBigEndian(n: nat, w: nat): (bs: seq<Byte>)
    ensures |bs| == w
  {
    if w == 0 then [] else ToBigEndian(n / 256, w - 1) + [n % 256]
  }

  /** Reading bytes back as a big-endian unsigned integer. */
  function FromBigEndian(bs: seq<Byte>): (n: nat)
    ensures n < Pow256(|bs|)
  {
    if |bs| == 0 then 0 else FromBigEndian(bs[..|bs| - 1]) * 256 + bs[|bs| - 1]
  }

  lemma {:induction false} FromToBigEndian(n: nat, w: nat)
    requires n < Pow256(w)
    ensures FromBigEndian(ToBigEndian(n, w)) == n
  {
    if w > 0 {
      var bs := ToBigEndian(n, w);
      assert n / 256 < Pow256(w - 1);
      FromToBigEndian(n / 256, w - 1);
      assert bs[..w - 1] == ToBigEndian(n / 256, w - 1);
    }
  }

  lemma {:induction false} ToFromBigEndian(bs: seq<Byte>)
    ensures ToBigEndian(FromBigEndian(bs), |bs|) == bs
  {
    if |bs| > 0 {
      var n := |bs|;
      ToFromBigEndian(bs[..n - 1]);
      var m := FromBigEndian(bs);
      assert m / 256 == FromBigEndian(bs[..n - 1]) && m % 256 == bs[n - 1];
      assert bs[..n - 1] + [bs[n - 1]] == bs;
    }
  }

  lemma Pow256Widths()
    ensures Pow256(Xxh32DigestSize) == 0x1_0000_0000
    ensures Pow256(Xxh64DigestSize) == 0x1_0000_0000_0000_0000
  {
    assert Pow256(4) == 0x1_0000_0000 by {
      assert Pow256(2) == 0x1_0000;
    }
    assert Pow256(8) == 0x1_0000_0000_0000_0000 by {
      assert Pow256(6) == 0x1_0000_0000_0000;
    }
  }

  /** The 4-byte canonical form of an XXH32 hash; reading it back gives the hash. */
  function Canonical32(h: U32): (bs: seq<Byte>)
    ensures |bs| == Xxh32DigestSize
    ensures FromBigEndian(bs) == h
  {
    Pow256Widths();
    FromToBigEndian(h, Xxh32DigestSize);
    ToBigEndian(h, Xxh32DigestSize)
  }

  /** The 8-byte canonical form of an XXH64 hash; reading it back gives the hash. */
  function Canonical64(h: U64): (bs: seq<Byte>)
    ensures |bs| == Xxh64DigestSize
    ensures FromBigEndian(bs) == h
  {
    Pow256Widths();
    FromToBigEndian(h, Xxh64DigestSize);
    ToBigEndian(h, Xxh64DigestSize)
  }

  /** Every 4-byte string is the canonical form of exactly the hash it reads as. */
  lemma Canonical32OfBytes(bs: seq<Byte>)
    requires |bs| == Xxh32DigestSize
    ensures FromBigEndian(bs) < 0x1_0000_0000 && Canonical32(FromBigEndian(bs)) == bs
  {
    Pow256Widths();
    ToFromBigEndian(bs);
  }

  /** Every 8-byte string is the canonical form of exactly the hash it reads as. */
  lemma Canonical64OfBytes(bs: seq<Byte>)
    requires |bs| == Xxh64DigestSize
    ensures FromBigEndian(bs) < 0x1_0000_0000_0000_0000 && Canonical64(FromBigEndian(bs)) == bs
  {
    Pow256Widths();
    ToFromBigEndian(bs);
  }
}

/**
 * What callers of the two bindings can rely on, proved from the contracts of
 * the operations alone: the behaviour the repository's unit tests check
 * (update against one-shot, reset, copy), for every input and seed.
 */
module Clients {
  import opened Optional
  import opened Words
  import opened Hex
  import opened Canonical
  import opened Engine
  import XxhashC
  import XxhashCffi

  /**
   * Updating piece by piece, updating once with the concatenation, passing
   * the concatenation to the constructor and the one-shot function all give
   * the same digest.
   */
  method UpdateMatchesOneShot32(hash: Hash32, seed: U32, a: seq<Byte>, b: seq<Byte>)
    returns (streamed: seq<Byte>, constructed: seq<Byte>, oneShot: seq<Byte>)
    ensures streamed == constructed == oneShot
  {
    var x := XxhashC.Xxh32.New(true, None, seed);
    x.Update(a);
    x.Update(b);
    assert x.xxhashState.absorbed == a + b;
    streamed := x.Digest(hash);
    var y := XxhashC.Xxh32.New(true, Some(a + b), seed);
    constructed := y.Digest(hash);
    oneShot := XxhashC.Xxh32Digest(hash, a + b, seed);
  }

  /** However the input is cut into `update` calls, the digest is that of the whole input. */
  method ChunkingInvisible32(hash: Hash32, seed: U32, chunks: seq<seq<Byte>>) returns (d: seq<Byte>)
    ensures d == XxhashC.Xxh32Digest(hash, Flatten(chunks), seed)
  {
    var x := XxhashC.Xxh32.New(true, None, seed);
    for k := 0 to |chunks|
      invariant x.Valid() && x.seed == seed
      invariant x.xxhashState.absorbed == Flatten(chunks[..k])
    {
      x.Update(chunks[k]);
      assert chunks[..k + 1][..k] == chunks[..k];
    }
    assert chunks[..|chunks|] == chunks;
    d := x.Digest(hash);
  }

  /**
   * After any number of updates, `reset` gives back the digest the fresh
   * object had, and a second `reset` changes nothing.
   */
  method ResetForgetsUpdates32(hash: Hash32, seed: U32, chunks: seq<seq<Byte>>)
    returns (fresh0: U32, afterReset: U32, afterSecondReset: U32)
    ensures fresh0 == afterReset == afterSecondReset == XxhashC.Xxh32IntDigest(hash, [], seed)
  {
    var x := XxhashC.Xxh32.New(true, None, seed);
    fresh0 := x.IntDigest(hash);
    for k := 0 to |chunks|
      invariant x.Valid() && x.seed == seed
    {
      x.Update(chunks[k]);
    }
    x.Reset();
    afterReset := x.IntDigest(hash);
    x.Reset();
    afterSecondReset := x.IntDigest(hash);
  }

  /**
   * A copy starts with the original's digest; updating either one leaves the
   * other's digest unchanged; feeding both the same bytes makes them agree.
   */
  method CopyIsIndependent32(hash: Hash32, seed: U32, prefix: seq<Byte>, more: seq<Byte>)
    returns (original: seq<Byte>, copied: seq<Byte>, originalAfter: seq<Byte>, copiedAfter: seq<Byte>,
             caughtUp: seq<Byte>, copiedLater: seq<Byte>)
    ensures original == copied == originalAfter == XxhashC.Xxh32Digest(hash, prefix, seed)
    ensures copiedAfter == caughtUp == copiedLater == XxhashC.Xxh32Digest(hash, prefix + more, seed)
  {
    var a := XxhashC.Xxh32.New(true, None, seed);
    a.Update(prefix);
    assert a.xxhashState.absorbed == prefix;
    var b := a.Copy(true);
    original := a.Digest(hash);
    copied := b.Digest(hash);
    b.Update(more);
    originalAfter := a.Digest(hash);
    copiedAfter := b.Digest(hash);
    a.Update(more);
    caughtUp := a.Digest(hash);
    copiedLater := b.Digest(hash);
    copiedLater := b.Digest(hash);
  }

  /** Repeated digests of an unchanged object agree in all three forms. */
  method DigestsOnlyRead32(hash: Hash32, o: XxhashC.Xxh32, charIsSigned: bool)
    returns (d1: seq<Byte>, d2: seq<Byte>, h1: string, h2: string, n1: U32, n2: U32)
    requires o.Valid()
    ensures d1 == d2 && h1 == h2 && n1 == n2
    ensures Unhexlify(h1) == Some(d1) && FromBigEndian(d1) == n1
  {
    d1 := o.Digest(hash);
    h1 := o.HexDigest(hash, charIsSigned);
    n1 := o.IntDigest(hash);
    d2 := o.Digest(hash);
    h2 := o.HexDigest(hash, charIsSigned);
    n2 := o.IntDigest(hash);
    UnhexlifyHexlify(d1);
  }

  /** Through the cffi binding, updating piece by piece or passing the whole input to the constructor give the one-shot digest. */
  method CffiUpdateMatchesOneShot32(hash: Hash32, seed: U32, a: seq<Byte>, b: seq<Byte>)
    returns (streamed: seq<Byte>, constructed: seq<Byte>)
    ensures streamed == constructed == XxhashC.Xxh32Digest(hash, a + b, seed)
  {
    var x := new XxhashCffi.Xxh32(None, seed);
    x.Update(a);
    x.Update(b);
    assert x.xxhashState.absorbed == a + b;
    streamed := x.Digest(hash);
    var y := new XxhashCffi.Xxh32(Some(a + b), seed);
    constructed := y.Digest(hash);
  }

  /** Through the cffi binding, however the input is cut into `update` calls, the digest is that of the whole input. */
  method CffiChunkingInvisible32(hash: Hash32, seed: U32, chunks: seq<seq<Byte>>) returns (d: seq<Byte>)
    ensures d == XxhashC.Xxh32Digest(hash, Flatten(chunks), seed)
  {
    var x := new XxhashCffi.Xxh32(None, seed);
    for k := 0 to |chunks|
      invariant x.Valid() && x.seed == seed
      invariant x.xxhashState.absorbed == Flatten(chunks[..k])
    {
      x.Update(chunks[k]);
      assert chunks[..k + 1][..k] == chunks[..k];
    }
    assert chunks[..|chunks|] == chunks;
    d := x.Digest(hash);
  }

  /**
   * Through the cffi binding, after any number of updates `reset` gives back
   * the digest the new object had, and a second `reset` changes nothing.
   */
  method CffiResetForgetsUpdates32(hash: Hash32, seed: U32, chunks: seq<seq<Byte>>)
    returns (fresh0: U32, afterReset: U32, afterSecondReset: U32)
    ensures fresh0 == afterReset == afterSecondReset == XxhashC.Xxh32IntDigest(hash, [], seed)
  {
    var x := new XxhashCffi.Xxh32(None, seed);
    fresh0 := x.IntDigest(hash);
    for k := 0 to |chunks|
      invariant x.Valid() && x.seed == seed
    {
      x.Update(chunks[k]);
    }
    x.Reset();
    afterReset := x.IntDigest(hash);
    x.Reset();
    afterSecondReset := x.IntDigest(hash);
  }

  /** The C extension and the cffi binding, built with the same arguments, report the same hex digest. */
  method BindingsAgree32(hash: Hash32, input: Option<seq<Byte>>, seed: U32, charIsSigned: bool)
    returns (fromC: string, fromCffi: string)
    ensures fromC == fromCffi
  {
    var c := XxhashC.Xxh32.New(true, input, seed);
    fromC := c.HexDigest(hash, charIsSigned);
    var p := new XxhashCffi.Xxh32(input, seed);
    fromCffi := p.HexDigest(hash);
  }

  /**
   * Updating piece by piece, updating once with the concatenation, passing
   * the concatenation to the constructor and the one-shot function all give
   * the same digest.
   */
  method UpdateMatchesOneShot64(hash: Hash64, seed: U64, a: seq<Byte>, b: seq<Byte>)
    returns (streamed: seq<Byte>, constructed: seq<Byte>, oneShot: seq<Byte>)
    ensures streamed == constructed == oneShot
  {
    var x := XxhashC.Xxh64.New(true, None, seed);
    x.Update(a);
    x.Update(b);
    assert x.xxhashState.absorbed == a + b;
    streamed := x.Digest(hash);
    var y := XxhashC.Xxh64.New(true, Some(a + b), seed);
    constructed := y.Digest(hash);
    oneShot := XxhashC.Xxh64Digest(hash, a + b, seed);
  }

  /** However the input is cut into `update` calls, the digest is that of the whole input. */
  method ChunkingInvisible64(hash: Hash64, seed: U64, chunks: seq<seq<Byte>>) returns (d: seq<Byte>)
    ensures d == XxhashC.Xxh64Digest(hash, Flatten(chunks), seed)
  {
    var x := XxhashC.Xxh64.New(true, None, seed);
    for k := 0 to |chunks|
      invariant x.Valid() && x.seed == seed
      invariant x.xxhashState.absorbed == Flatten(chunks[..k])
    {
      x.Update(chunks[k]);
      assert chunks[..k + 1][..k] == chunks[..k];
    }
    assert chunks[..|chunks|] == chunks;
    d := x.Digest(hash);
  }

  /**
   * After any number of updates, `reset` gives back the digest the fresh
   * object had, and a second `reset` changes nothing.
   */
  method ResetForgetsUpdates64(hash: Hash64, seed: U64, chunks: seq<seq<Byte>>)
    returns (fresh0: U64, afterReset: U64, afterSecondReset: U64)
    ensures fresh0 == afterReset == afterSecondReset == XxhashC.Xxh64IntDigest(hash, [], seed)
  {
    var x := XxhashC.Xxh64.New(true, None, seed);
    fresh0 := x.IntDigest(hash);
    for k := 0 to |chunks|
      invariant x.Valid() && x.seed == seed
    {
      x.Update(chunks[k]);
    }
    x.Reset();
    afterReset := x.IntDigest(hash);
    x.Reset();
    afterSecondReset := x.IntDigest(hash);
  }

  /**
   * A copy starts with the original's digest; updating either one leaves the
   * other's digest unchanged; feeding both the same bytes makes them agree.
   */
  method CopyIsIndependent64(hash: Hash64, seed: U64, prefix: seq<Byte>, more: seq<Byte>)
    returns (original: seq<Byte>, copied: seq<Byte>, originalAfter: seq<Byte>, copiedAfter: seq<Byte>,
             caughtUp: seq<Byte>, copiedLater: seq<Byte>)
    ensures original == copied == originalAfter == XxhashC.Xxh64Digest(hash, prefix, seed)
    ensures copiedAfter == caughtUp == copiedLater == XxhashC.Xxh64Digest(hash, prefix + more, seed)
  {
    var a := XxhashC.Xxh64.New(true, None, seed);
    a.Update(prefix);
    assert a.xxhashState.absorbed == prefix;
    var b := a.Copy(true);
    original := a.Digest(hash);
    copied := b.Digest(hash);
    b.Update(more);
    originalAfter := a.Digest(hash);
    copiedAfter := b.Digest(hash);
    a.Update(more);
    caughtUp := a.Digest(hash);
    copiedLater := b.Digest(hash);
    copiedLater := b.Digest(hash);
  }

  /** Repeated digests of an unchanged object agree in all three forms. */
  method DigestsOnlyRead64(hash: Hash64, o: XxhashC.Xxh64, charIsSigned: bool)
    returns (d1: seq<Byte>, d2: seq<Byte>, h1: string, h2: string, n1: U64, n2: U64)
    requires o.Valid()
    ensures d1 == d2 && h1 == h2 && n1 == n2
    ensures Unhexlify(h1) == Some(d1) && FromBigEndian(d1) == n1
  {
    d1 := o.Digest(hash);
    h1 := o.HexDigest(hash, charIsSigned);
    n1 := o.IntDigest(hash);
    d2 := o.Digest(hash);
    h2 := o.HexDigest(hash, charIsSigned);
    n2 := o.IntDigest(hash);
    UnhexlifyHexlify(d1);
  }

  /** Through the cffi binding, updating piece by piece or passing the whole input to the constructor give the one-shot digest. */
  method CffiUpdateMatchesOneShot64(hash: Hash64, seed: U64, a: seq<Byte>, b: seq<Byte>)
    returns (streamed: seq<Byte>, constructed: seq<Byte>)
    ensures streamed == constructed == XxhashC.Xxh64Digest(hash, a + b, seed)
  {
    var x := new XxhashCffi.Xxh64(None, seed);
    x.Update(a);
    x.Update(b);
    assert x.xxhashState.absorbed == a + b;
    streamed := x.Digest(hash);
    var y := new XxhashCffi.Xxh64(Some(a + b), seed);
    constructed := y.Digest(hash);
  }

  /** Through the cffi binding, however the input is cut into `update` calls, the digest is that of the whole input. */
  method CffiChunkingInvisible64(hash: Hash64, seed: U64, chunks: seq<seq<Byte>>) returns (d: seq<Byte>)
    ensures d == XxhashC.Xxh64Digest(hash, Flatten(chunks), seed)
  {
    var x := new XxhashCffi.Xxh64(None, seed);
    for k := 0 to |chunks|
      invariant x.Valid() && x.seed == seed
      invariant x.xxhashState.absorbed == Flatten(chunks[..k])
    {
      x.Update(chunks[k]);
      assert chunks[..k + 1][..k] == chunks[..k];
    }
    assert chunks[..|chunks|] == chunks;
    d := x.Digest(hash);
  }

  /**
   * Through the cffi binding, after any number of updates `reset` gives back
   * the digest the new object had, and a second `reset` changes nothing.
   */
  method CffiResetForgetsUpdates64(hash: Hash64, seed: U64, chunks: seq<seq<Byte>>)
    returns (fresh0: U64, afterReset: U64, afterSecondReset: U64)
    ensures fresh0 == afterReset == afterSecondReset == XxhashC.Xxh64IntDigest(hash, [], seed)
  {
    var x := new XxhashCffi.Xxh64(None, seed);
    fresh0 := x.IntDigest(hash);
    for k := 0 to |chunks|
      invariant x.Valid() && x.seed == seed
    {
      x.Update(chunks[k]);
    }
    x.Reset();
    afterReset := x.IntDigest(hash);
    x.Reset();
    afterSecondReset := x.IntDigest(hash);
  }

  /** The C extension and the cffi binding, built with the same arguments, report the same hex digest. */
  method BindingsAgree64(hash: Hash64, input: Option<seq<Byte>>, seed: U64, charIsSigned: bool)
    returns (fromC: string, fromCffi: string)
    ensures fromC == fromCffi
  {
    var c := XxhashC.Xxh64.New(true, input, seed);
    fromC := c.HexDigest(hash, charIsSigned);
    var p := new XxhashCffi.Xxh64(input, seed);
    fromCffi := p.HexDigest(hash);
  }
}

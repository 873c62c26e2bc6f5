/**
 * The CPython extension module `_xxhash`: the one-shot functions
 * `xxh32_digest`, `xxh32_intdigest`, `xxh32_hexdigest` (and their XXH64
 * counterparts) and the streaming types `xxh32` and `xxh64`.
 */
module XxhashC {
  import opened Optional
  import opened Words
  import opened Hex
  import opened Canonical
  import opened Engine

  // ---------------------------------------------------------------- XXH32

  const Xxh32BlockSize: nat := 16

  /** `xxh32_digest(input, seed)`: the canonical bytes of `XXH32(input, seed)`. */
  function Xxh32Digest(hash: Hash32, input: seq<Byte>, seed: U32): (d: seq<Byte>)
    ensures |d| == Xxh32DigestSize
    ensures FromBigEndian(d) == hash(input, seed)
  {
    Canonical32(hash(input, seed))
  }

  /** `xxh32_intdigest(input, seed)`: the integer whose canonical bytes `xxh32_digest` returns. */
  function Xxh32IntDigest(hash: Hash32, input: seq<Byte>, seed: U32): (n: U32)
    ensures Canonical32(n) == Xxh32Digest(hash, input, seed)
  {
    hash(input, seed)
  }

  /** `xxh32_hexdigest(input, seed)`: the lowercase hex of the bytes `xxh32_digest` returns. */
  method Xxh32HexDigest(hash: Hash32, input: seq<Byte>, seed: U32, charIsSigned: bool) returns (hex: string)
    ensures |hex| == 2 * Xxh32DigestSize && IsLowerHex(hex)
    ensures hex == Hexlify(Xxh32Digest(hash, input, seed))
    ensures Unhexlify(hex) == Some(Xxh32Digest(hash, input, seed))
  {
    var intdigest := hash(input, seed);
    var digest := Canonical32(intdigest);
    hex := HexEncode(digest, charIsSigned);
    UnhexlifyHexlify(digest);
  }

  /**
   * A `PYXXH32Object`: the seed given to `__init__` and the engine state it
   * owns.  The state is allocated once, by `tp_new`, and never replaced.
   */
  class Xxh32 {
    const xxhashState: State<U32>
    var seed: U32

    /** The engine state was last reset with the stored seed. */
    ghost predicate Valid()
      reads this, xxhashState
    {
      xxhashState.seed == seed
    }

    /** `PYXXH32_new` when both allocations succeed; the object is not yet initialised. */
    constructor Allocate()
      ensures fresh(xxhashState)
    {
      xxhashState := new State();
    }

    /**
     * `xxh32(input, seed)`: `PYXXH32_new` followed by `PYXXH32_init`.  When the
     * object or its engine state cannot be allocated, no object is returned.
     */
    static method New(allocationSucceeds: bool, input: Option<seq<Byte>>, seed: U32) returns (o: Xxh32?)
      ensures allocationSucceeds <==> o != null
      ensures o != null ==> fresh(o) && fresh(o.xxhashState) && o.Valid()
      ensures o != null ==> o.seed == seed && o.xxhashState.absorbed == input.GetOr([])
    {
      if !allocationSucceeds {
        return null;
      }
      o := new Xxh32.Allocate();
      o.Init(input, seed);
    }

    /** `PYXXH32_init`: store the seed, reset the engine with it, then feed the input if one was given. */
    method Init(input: Option<seq<Byte>>, seed: U32)
      modifies this, xxhashState
      ensures Valid()
      ensures this.seed == seed && xxhashState.absorbed == input.GetOr([])
    {
      this.seed := seed;
      xxhashState.Reset(seed);
      if input.Some? {
        Update(input.value);
      }
    }

    /** `PYXXH32_update`: feed every byte of `input` to the engine. */
    method Update(input: seq<Byte>)
      requires Valid()
      modifies xxhashState
      ensures Valid()
      ensures xxhashState.absorbed == old(xxhashState.absorbed) + input
    {
      xxhashState.Update(input);
    }

    /** `PYXXH32_digest`: the XXH32 of everything fed so far, with the stored seed, as canonical bytes. */
    method Digest(hash: Hash32) returns (d: seq<Byte>)
      requires Valid()
      ensures d == Xxh32Digest(hash, xxhashState.absorbed, seed)
    {
      var digest := xxhashState.Digest(hash);
      d := Canonical32(digest);
    }

    /** `PYXXH32_hexdigest`: like `Digest`, as lowercase hex. */
    method HexDigest(hash: Hash32, charIsSigned: bool) returns (hex: string)
      requires Valid()
      ensures hex == Hexlify(Xxh32Digest(hash, xxhashState.absorbed, seed))
    {
      var intdigest := xxhashState.Digest(hash);
      var digest := Canonical32(intdigest);
      hex := HexEncode(digest, charIsSigned);
    }

    /** `PYXXH32_intdigest`: like `Digest`, as the integer the library returns. */
    method IntDigest(hash: Hash32) returns (n: U32)
      requires Valid()
      ensures n == Xxh32IntDigest(hash, xxhashState.absorbed, seed)
    {
      n := xxhashState.Digest(hash);
    }

    /**
     * `PYXXH32_copy`: a new object with its own engine state, holding the same
     * seed and the same absorbed bytes; none when allocation fails.
     */
    method Copy(allocationSucceeds: bool) returns (p: Xxh32?)
      requires Valid()
      ensures allocationSucceeds <==> p != null
      ensures p != null ==> fresh(p) && fresh(p.xxhashState) && p.Valid()
      ensures p != null ==> p.seed == seed && p.xxhashState.absorbed == xxhashState.absorbed
    {
      if !allocationSucceeds {
        return null;
      }
      p := new Xxh32.Allocate();
      p.seed := seed;
      p.xxhashState.CopyFrom(xxhashState);
    }

    /** `PYXXH32_reset`: back to the fresh state for the stored seed. */
    method Reset()
      requires Valid()
      modifies xxhashState
      ensures Valid()
      ensures xxhashState.absorbed == []
    {
      xxhashState.Reset(seed);
    }

    /** The `digest_size`/`digestsize` getter: the length of every canonical digest. */
    function DigestSize(): (n: nat)
      ensures forall h: U32 :: |Canonical32(h)| == n && |Hexlify(Canonical32(h))| == 2 * n
    {
      Xxh32DigestSize
    }

    /** The `block_size` getter. */
    function BlockSize(): nat
    {
      Xxh32BlockSize
    }

    /** The `name` getter. */
    function Name(): string
    {
      "XXH32"
    }

    /** The `seed` getter: the seed the engine state was last reset with. */
    function GetSeed(): (s: U32)
      reads this, xxhashState
      ensures Valid() ==> s == xxhashState.seed
    {
      seed
    }
  }

  // ---------------------------------------------------------------- XXH64

  const Xxh64BlockSize: nat := 32

  /** `xxh64_digest(input, seed)`: the canonical bytes of `XXH64(input, seed)`. */
  function Xxh64Digest(hash: Hash64, input: seq<Byte>, seed: U64): (d: seq<Byte>)
    ensures |d| == Xxh64DigestSize
    ensures FromBigEndian(d) == hash(input, seed)
  {
    Canonical64(hash(input, seed))
  }

  /** `xxh64_intdigest(input, seed)`: the integer whose canonical bytes `xxh64_digest` returns. */
  function Xxh64IntDigest(hash: Hash64, input: seq<Byte>, seed: U64): (n: U64)
    ensures Canonical64(n) == Xxh64Digest(hash, input, seed)
  {
    hash(input, seed)
  }

  /** `xxh64_hexdigest(input, seed)`: the lowercase hex of the bytes `xxh64_digest` returns. */
  method Xxh64HexDigest(hash: Hash64, input: seq<Byte>, seed: U64, charIsSigned: bool) returns (hex: string)
    ensures |hex| == 2 * Xxh64DigestSize && IsLowerHex(hex)
    ensures hex == Hexlify(Xxh64Digest(hash, input, seed))
    ensures Unhexlify(hex) == Some(Xxh64Digest(hash, input, seed))
  {
    var intdigest := hash(input, seed);
    var digest := Canonical64(intdigest);
    hex := HexEncode(digest, charIsSigned);
    UnhexlifyHexlify(digest);
  }

  /**
   * A `PYXXH64Object`: the seed given to `__init__` and the engine state it
   * owns.  The state is allocated once, by `tp_new`, and never replaced.
   */
  class Xxh64 {
    const xxhashState: State<U64>
    var seed: U64

    /** The engine state was last reset with the stored seed. */
    ghost predicate Valid()
      reads this, xxhashState
    {
      xxhashState.seed == seed
    }

    /** `PYXXH64_new` when both allocations succeed; the object is not yet initialised. */
    constructor Allocate()
      ensures fresh(xxhashState)
    {
      xxhashState := new State();
    }

    /**
     * `xxh64(input, seed)`: `PYXXH64_new` followed by `PYXXH64_init`.  When the
     * object or its engine state cannot be allocated, no object is returned.
     */
    static method New(allocationSucceeds: bool, input: Option<seq<Byte>>, seed: U64) returns (o: Xxh64?)
      ensures allocationSucceeds <==> o != null
      ensures o != null ==> fresh(o) && fresh(o.xxhashState) && o.Valid()
      ensures o != null ==> o.seed == seed && o.xxhashState.absorbed == input.GetOr([])
    {
      if !allocationSucceeds {
        return null;
      }
      o := new Xxh64.Allocate();
      o.Init(input, seed);
    }

    /** `PYXXH64_init`: store the seed, reset the engine with it, then feed the input if one was given. */
    method Init(input: Option<seq<Byte>>, seed: U64)
      modifies this, xxhashState
      ensures Valid()
      ensures this.seed == seed && xxhashState.absorbed == input.GetOr([])
    {
      this.seed := seed;
      xxhashState.Reset(seed);
      if input.Some? {
        Update(input.value);
      }
    }

    /** `PYXXH64_update`: feed every byte of `input` to the engine. */
    method Update(input: seq<Byte>)
      requires Valid()
      modifies xxhashState
      ensures Valid()
      ensures xxhashState.absorbed == old(xxhashState.absorbed) + input
    {
      xxhashState.Update(input);
    }

    /** `PYXXH64_digest`: the XXH64 of everything fed so far, with the stored seed, as canonical bytes. */
    method Digest(hash: Hash64) returns (d: seq<Byte>)
      requires Valid()
      ensures d == Xxh64Digest(hash, xxhashState.absorbed, seed)
    {
      var digest := xxhashState.Digest(hash);
      d := Canonical64(digest);
    }

    /** `PYXXH64_hexdigest`: like `Digest`, as lowercase hex. */
    method HexDigest(hash: Hash64, charIsSigned: bool) returns (hex: string)
      requires Valid()
      ensures hex == Hexlify(Xxh64Digest(hash, xxhashState.absorbed, seed))
    {
      var intdigest := xxhashState.Digest(hash);
      var digest := Canonical64(intdigest);
      hex := HexEncode(digest, charIsSigned);
    }

    /** `PYXXH64_intdigest`: like `Digest`, as the integer the library returns. */
    method IntDigest(hash: Hash64) returns (n: U64)
      requires Valid()
      ensures n == Xxh64IntDigest(hash, xxhashState.absorbed, seed)
    {
      n := xxhashState.Digest(hash);
    }

    /**
     * `PYXXH64_copy`: a new object with its own engine state, holding the same
     * seed and the same absorbed bytes; none when allocation fails.
     */
    method Copy(allocationSucceeds: bool) returns (p: Xxh64?)
      requires Valid()
      ensures allocationSucceeds <==> p != null
      ensures p != null ==> fresh(p) && fresh(p.xxhashState) && p.Valid()
      ensures p != null ==> p.seed == seed && p.xxhashState.absorbed == xxhashState.absorbed
    {
      if !allocationSucceeds {
        return null;
      }
      p := new Xxh64.Allocate();
      p.seed := seed;
      p.xxhashState.CopyFrom(xxhashState);
    }

    /** `PYXXH64_reset`: back to the fresh state for the stored seed. */
    method Reset()
      requires Valid()
      modifies xxhashState
      ensures Valid()
      ensures xxhashState.absorbed == []
    {
      xxhashState.Reset(seed);
    }

    /** The `digest_size`/`digestsize` getter: the length of every canonical digest. */
    function DigestSize(): (n: nat)
      ensures forall h: U64 :: |Canonical64(h)| == n && |Hexlify(Canonical64(h))| == 2 * n
    {
      Xxh64DigestSize
    }

    /** The `block_size` getter. */
    function BlockSize(): nat
    {
      Xxh64BlockSize
    }

    /** The `name` getter. */
    function Name(): string
    {
      "XXH64"
    }

    /** The `seed` getter: the seed the engine state was last reset with. */
    function GetSeed(): (s: U64)
      reads this, xxhashState
      ensures Valid() ==> s == xxhashState.seed
    {
      seed
    }
  }
}

/**
 * The cffi binding `xxhash/cffi.py`: Python classes `xxh32` and `xxh64` over
 * the same library calls.  `digest` is `struct.pack` of `intdigest`, and
 * `hexdigest` is `binascii.hexlify` of `digest`.
 */
module XxhashCffi {
  import opened Optional
  import opened Words
  import opened Hex
  import opened Canonical
  import opened Engine

  /** The Python class `xxh32` of the cffi binding. */
  class Xxh32 {
    const xxhashState: State<U32>
    var seed: U32

    /** The engine state was last reset with the stored seed. */
    ghost predicate Valid()
      reads this, xxhashState
    {
      xxhashState.seed == seed
    }

    /**
     * `__init__`: allocate an engine state, store the seed, reset, and feed the
     * initial input only when it is truthy (present and non-empty).
     */
    constructor (input: Option<seq<Byte>>, seed: U32)
      ensures Valid() && fresh(xxhashState)
      ensures this.seed == seed && xxhashState.absorbed == input.GetOr([])
    {
      xxhashState := new State();
      this.seed := seed;
      new;
      Reset();
      if input.Some? && |input.value| > 0 {
        xxhashState.Update(input.value);
      }
    }

    /** `update`: feed all `len(input)` bytes to the engine. */
    method Update(input: seq<Byte>)
      requires Valid()
      modifies xxhashState
      ensures Valid()
      ensures xxhashState.absorbed == old(xxhashState.absorbed) + input
    {
      xxhashState.Update(input);
    }

    /** `intdigest`: `XXH32_digest` of the state, which only reads it. */
    function IntDigest(hash: Hash32): (n: U32)
      requires Valid()
      reads this, xxhashState
      ensures n == hash(xxhashState.absorbed, seed)
    {
      xxhashState.Digest(hash)
    }

    /** `digest`: `struct.pack('>I', intdigest())`; reading it back big-endian gives `intdigest()`. */
    function Digest(hash: Hash32): (d: seq<Byte>)
      requires Valid()
      reads this, xxhashState
      ensures |d| == Xxh32DigestSize
      ensures FromBigEndian(d) == IntDigest(hash)
    {
      Canonical32(IntDigest(hash))
    }

    /** `hexdigest`: `binascii.hexlify(digest())`; unhexlifying it gives `digest()` back. */
    function HexDigest(hash: Hash32): (hex: string)
      requires Valid()
      reads this, xxhashState
      ensures |hex| == 2 * Xxh32DigestSize && IsLowerHex(hex)
      ensures Unhexlify(hex) == Some(Digest(hash))
    {
      UnhexlifyHexlify(Digest(hash));
      Hexlify(Digest(hash))
    }

    /** `reset`: re-initialise the engine from the stored seed. */
    method Reset()
      modifies xxhashState
      ensures Valid()
      ensures xxhashState.absorbed == []
    {
      xxhashState.Reset(seed);
    }
  }

  /** The Python class `xxh64` of the cffi binding. */
  class Xxh64 {
    const xxhashState: State<U64>
    var seed: U64

    /** The engine state was last reset with the stored seed. */
    ghost predicate Valid()
      reads this, xxhashState
    {
      xxhashState.seed == seed
    }

    /**
     * `__init__`: allocate an engine state, store the seed, reset, and feed the
     * initial input only when it is truthy (present and non-empty).
     */
    constructor (input: Option<seq<Byte>>, seed: U64)
      ensures Valid() && fresh(xxhashState)
      ensures this.seed == seed && xxhashState.absorbed == input.GetOr([])
    {
      xxhashState := new State();
      this.seed := seed;
      new;
      Reset();
      if input.Some? && |input.value| > 0 {
        xxhashState.Update(input.value);
      }
    }

    /** `update`: feed all `len(input)` bytes to the engine. */
    method Update(input: seq<Byte>)
      requires Valid()
      modifies xxhashState
      ensures Valid()
      ensures xxhashState.absorbed == old(xxhashState.absorbed) + input
    {
      xxhashState.Update(input);
    }

    /** `intdigest`: `XXH64_digest` of the state, which only reads it. */
    function IntDigest(hash: Hash64): (n: U64)
      requires Valid()
      reads this, xxhashState
      ensures n == hash(xxhashState.absorbed, seed)
    {
      xxhashState.Digest(hash)
    }

    /** `digest`: `struct.pack('>Q', intdigest())`; reading it back big-endian gives `intdigest()`. */
    function Digest(hash: Hash64): (d: seq<Byte>)
      requires Valid()
      reads this, xxhashState
      ensures |d| == Xxh64DigestSize
      ensures FromBigEndian(d) == IntDigest(hash)
    {
      Canonical64(IntDigest(hash))
    }

    /** `hexdigest`: `binascii.hexlify(digest())`; unhexlifying it gives `digest()` back. */
    function HexDigest(hash: Hash64): (hex: string)
      requires Valid()
      reads this, xxhashState
      ensures |hex| == 2 * Xxh64DigestSize && IsLowerHex(hex)
      ensures Unhexlify(hex) == Some(Digest(hash))
    {
      UnhexlifyHexlify(Digest(hash));
      Hexlify(Digest(hash))
    }

    /** `reset`: re-initialise the engine from the stored seed. */
    method Reset()
      modifies xxhashState
      ensures Valid()
      ensures xxhashState.absorbed == []
    {
      xxhashState.Reset(seed);
    }
  }
}

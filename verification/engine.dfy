/**
 * The xxHash library as the bindings see it.  Its mixing code is not part of
 * this model: a state is known only by the seed it was last reset with and
 * the bytes absorbed since, and the one-shot functions `XXH32(input, seed)`
 * and `XXH64(input, seed)` are parameters of type `Hash32`/`Hash64`.  Digesting
 * a state yields the one-shot hash of everything absorbed, with the state's
 * seed: the library's own promise that chunk boundaries never show in a digest.
 */
module Engine {
  import opened Words

  /** `XXH32(input, seed)`. */
  type Hash32 = (seq<Byte>, U32) -> U32

  /** `XXH64(input, seed)`. */
  type Hash64 = (seq<Byte>, U64) -> U64

  /** An `XXH32_state_t` (with `S` = `U32`) or an `XXH64_state_t` (with `S` = `U64`). */
  class State<S(0)> {
    var seed: S
    var absorbed: seq<Byte>

    /**
     * `XXH*_createState`: a newly allocated state, shared with nothing else.
     * Its contents are not yet meaningful; every binding resets it before use.
     */
    constructor ()
      ensures fresh(this)
    {
    }

    /** `XXH*_reset(state, seed)`: start over with `seed`, nothing absorbed. */
    method Reset(s: S)
      modifies this
      ensures seed == s && absorbed == []
    {
      seed, absorbed := s, [];
    }

    /** `XXH*_update(state, input, len)`: absorb all of `input`, in order. */
    method Update(input: seq<Byte>)
      modifies this`absorbed
      ensures absorbed == old(absorbed) + input
    {
      absorbed := absorbed + input;
    }

    /** `XXH*_copyState(dst, src)` with `this` as `dst`. */
    method CopyFrom(src: State<S>)
      modifies this
      ensures seed == src.seed && absorbed == src.absorbed
    {
      seed, absorbed := src.seed, src.absorbed;
    }

    /**
     * `XXH*_digest(state)`: reads the state without changing it.  By the
     * definition of this model, the result is the one-shot hash of the
     * absorbed bytes under the state's seed.
     */
    function Digest<H>(hash: (seq<Byte>, S) -> H): (h: H)
      reads this
      ensures h == hash(absorbed, seed)
    {
      hash(absorbed, seed)
    }
  }

  /** The concatenation of a list of chunks. */
  function Flatten(chunks: seq<seq<Byte>>): (all: seq<Byte>)
  {
    if |chunks| == 0 then [] else Flatten(chunks[..|chunks| - 1]) + chunks[|chunks| - 1]
  }
}

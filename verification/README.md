# python-xxhash bindings: a Dafny model

This project models the logic that the python-xxhash bindings add on top of
the xxHash library: the CPython extension `src/_xxhash.c` and the cffi
binding `xxhash/cffi.py`, for the XXH32 and XXH64 algorithms.

- **Hex encoding** (`Hex`). The C extension turns the canonical digest bytes
  into lowercase hexadecimal in a loop that writes two characters per byte,
  high nibble first. This is the lowercase Base16 alphabet of section 8 of
  RFC 4648. `HexEncode` is that loop over an array buffer. It is proved equal
  to the specification `Hexlify`, which is also what `binascii.hexlify`
  returns in the cffi binding. `Unhexlify` is the inverse, and the two are
  proved to be a bijection between byte strings and even-length lowercase hex
  strings. The C loop reads each byte through a `char`, which may be signed.
  `MaskedNibbles` proves that the `& 0xf` masks make the signedness of `char`
  irrelevant.
- **Canonical form** (`Canonical`). A digest's canonical form is its
  fixed-width big-endian bytes: 4 for XXH32 and 8 for XXH64. The C extension
  gets them from `XXH32_canonicalFromHash`/`XXH64_canonicalFromHash`, and the
  cffi binding from `struct.pack('>I')`/`struct.pack('>Q')`. Reading the
  bytes back big-endian gives the integer back, and every byte string of the
  right width is the canonical form of exactly one value.
- **The engine** (`Engine`). The hashing code of the xxHash library is not
  part of this model. An engine state (`XXH32_state_t`, `XXH64_state_t`) is
  known only by the seed it was last reset with and the bytes absorbed since.
  The one-shot functions `XXH32(input, seed)` and `XXH64(input, seed)` are
  parameters of type `Hash32`/`Hash64`, so every result holds whatever those
  functions are. Digesting a state yields the one-shot hash of all absorbed
  bytes under the state's seed. This is the library's own promise that chunk
  boundaries never show in a digest, and the model takes it as the
  definition of a state's digest.
- **The C extension** (`XxhashC`). It has the one-shot functions
  `xxh32_digest`, `xxh32_intdigest` and `xxh32_hexdigest`, and the same three
  for XXH64. Its streaming types `xxh32`/`xxh64` are the classes `Xxh32` and
  `Xxh64`. Each object stores its seed and owns an engine state. The object
  invariant `Valid()` says the engine state was last reset with the stored
  seed. `New` is `tp_new` followed by `__init__` and returns no object when
  allocation fails. `Copy` does the same on failure, and on success returns
  an object with a fresh engine state. `Update`, `Reset`, the three digests and the
  getters (`digest_size`, `block_size`, `name`, `seed`) are modelled too.
- **The cffi binding** (`XxhashCffi`). It has the Python classes `xxh32` and
  `xxh64`, with `__init__`, `update`, `intdigest`, `digest`, `hexdigest` and
  `reset`.
- **Clients** (`Clients`). These are properties that callers of the
  bindings get from the contracts above alone, for every input and seed.
  The first two hold for both bindings (the `Cffi…` methods state them for
  the cffi classes); the cffi binding has no `copy`:
  - updating piece by piece, passing the input to the constructor, and the
    one-shot function all agree, for any cutting of the input into `update`
    calls;
  - `reset` gives back the fresh digest, and a second `reset` changes
    nothing;
  - a copy of a C-extension object is independent of the original, in both
    directions;
  - digests only read the object, and their three forms agree;
  - both bindings, given the same arguments, report the same digest.

I/O-like parameters: the engine's one-shot functions (`hash`), whether an
allocation succeeds (`allocationSucceeds`) and whether the platform's `char`
is signed (`charIsSigned`) are all inputs of the operations that depend on
them.

## Model

| member | source | states |
|---|---|---|
| `Hex.HexDigit` | src/_xxhash.c:154 | a nibble becomes a lowercase hex digit; it is a decimal digit exactly when the nibble is at most 9 |
| `Hex.DigitValue` | src/_xxhash.c:153-157 | the reference decoder of one hex digit, the inverse of the digit the encoder writes: decoding a character gives a value exactly when it is a hex digit (either case) |
| `Hex.DigitValueOfHexDigit` | src/_xxhash.c:153-157 | decoding the digit written for a nibble gives the nibble back |
| `Hex.HexDigitOfDigitValue` | src/_xxhash.c:153-157 | every lowercase hex digit is the digit written for its own value |
| `Hex.ByteOf` | src/_xxhash.c:153-156 | the byte built from two nibbles has exactly those high and low nibbles |
| `Hex.Hexlify` | src/_xxhash.c:151-159 | hex of n bytes has 2n characters, all lowercase hex digits |
| `Hex.HexlifyAt` | src/_xxhash.c:151-159 | byte i becomes character 2i (its high nibble) and character 2i+1 (its low nibble) |
| `Hex.Unhexlify` | xxhash/cffi.py:72-73 | the reference decoder against which the promise that a hex digest encodes the digest is stated (the bindings only encode): decoding succeeds exactly on even-length strings of hex digits and then yields half as many bytes |
| `Hex.UnhexlifyHexlify` | src/_xxhash.c:151-159 | hex-decoding the hex of any bytes gives those bytes back |
| `Hex.HexlifyUnhexlify` | src/_xxhash.c:151-159 | every even-length lowercase hex string is the hex of the bytes it decodes to |
| `Hex.HexlifyInjective` | src/_xxhash.c:151-159 | distinct byte strings have distinct hex |
| `Hex.CharValue` | src/_xxhash.c:110 | a `char` holding a byte has that byte's value modulo 256, signed or not |
| `Hex.MaskedNibbles` | src/_xxhash.c:153-156 | `(c >> 4) & 0xf` and `c & 0xf` give the byte's high and low nibble whether `char` is signed or unsigned |
| `Hex.HexEncode` | src/_xxhash.c:151-159 | the buffer filled at `j++` holds exactly the hex of the digest bytes |
| `Canonical.ToBigEndian` | xxhash/cffi.py:69-70 | `struct.pack` of width w yields w bytes |
| `Canonical.FromBigEndian` | xxhash/cffi.py:93-94 | reading w bytes big-endian gives a value below 256^w |
| `Canonical.FromToBigEndian` | xxhash/cffi.py:69-70 | reading back the big-endian bytes of any value that fits gives the value |
| `Canonical.ToFromBigEndian` | xxhash/cffi.py:93-94 | writing back the value read from any bytes gives the same bytes |
| `Canonical.Canonical32` | src/_xxhash.c:86 | the XXH32 canonical form has 4 bytes, and they read back big-endian as the hash |
| `Canonical.Canonical64` | src/_xxhash.c:198 | the XXH64 canonical form has 8 bytes, and they read back big-endian as the hash |
| `Canonical.Canonical32OfBytes` | src/_xxhash.c:402 | every 4-byte string is the XXH32 canonical form of the value it reads as |
| `Canonical.Canonical64OfBytes` | src/_xxhash.c:757 | every 8-byte string is the XXH64 canonical form of the value it reads as |
| `Engine.State.constructor` | src/_xxhash.c:320 | `XXH32_createState` (also lines 486, 676, 842 and xxhash/cffi.py lines 57, 81) yields a newly allocated state shared with no existing object; its contents are not meaningful until a reset |
| `Engine.State.Digest` | src/_xxhash.c:401 | `XXH32_digest`/`XXH64_digest` (also lines 445, 469, 756, 800, 825 and xxhash/cffi.py lines 67, 91) gives the one-shot hash of the absorbed bytes under the state's seed; this holds by definition (see Left out) |
| `Engine.State.Reset` | src/_xxhash.c:503 | `XXH32_reset` leaves the state with the given seed and nothing absorbed |
| `Engine.State.Update` | src/_xxhash.c:297-308 | `XXH32_update` appends all of the input to what the state has absorbed |
| `Engine.State.CopyFrom` | src/_xxhash.c:491 | `XXH32_copyState` gives the destination the source's seed and absorbed bytes |
| `XxhashC.Xxh32Digest` | src/_xxhash.c:54-89 | `xxh32_digest` returns 4 bytes that read back big-endian as `XXH32(input, seed)` |
| `XxhashC.Xxh32IntDigest` | src/_xxhash.c:91-105 | the canonical bytes of `xxh32_intdigest` are what `xxh32_digest` returns |
| `XxhashC.Xxh32HexDigest` | src/_xxhash.c:107-162 | `xxh32_hexdigest` returns 8 lowercase hex characters that decode to what `xxh32_digest` returns |
| `XxhashC.Xxh32.Allocate` | src/_xxhash.c:312-325 | `tp_new` gives the object an engine state of its own |
| `XxhashC.Xxh32.New` | src/_xxhash.c:312-345 | construction returns no object when allocation fails; otherwise it stores the seed, resets, and absorbs exactly the given input (none when there is none) |
| `XxhashC.Xxh32.Init` | src/_xxhash.c:327-345 | `__init__` stores the seed, resets the engine with it, then feeds the input if one was given |
| `XxhashC.Xxh32.Update` | src/_xxhash.c:353-364 | `update` appends all of the input to the absorbed bytes and leaves the seed alone |
| `XxhashC.Xxh32.Digest` | src/_xxhash.c:374-405 | `digest()` is the one-shot `xxh32_digest` of everything absorbed, under the stored seed |
| `XxhashC.Xxh32.HexDigest` | src/_xxhash.c:412-459 | `hexdigest()` is the hex of the one-shot `xxh32_digest` of everything absorbed |
| `XxhashC.Xxh32.IntDigest` | src/_xxhash.c:467-471 | `intdigest()` is the one-shot `xxh32_intdigest` of everything absorbed |
| `XxhashC.Xxh32.Copy` | src/_xxhash.c:478-494 | `copy()` returns nothing when allocation fails; otherwise it returns a new object with a new engine state, the same seed and the same absorbed bytes |
| `XxhashC.Xxh32.Reset` | src/_xxhash.c:501-505 | `reset()` discards all absorbed bytes and keeps the stored seed |
| `XxhashC.Xxh32.DigestSize` | src/_xxhash.c:522-526 | `digest_size` is the length of every digest and half the length of every hex digest |
| `XxhashC.Xxh32.GetSeed` | src/_xxhash.c:538-542 | the `seed` getter reports the seed the engine was last reset with |
| `XxhashC.Xxh64Digest` | src/_xxhash.c:166-201 | `xxh64_digest` returns 8 bytes that read back big-endian as `XXH64(input, seed)` |
| `XxhashC.Xxh64IntDigest` | src/_xxhash.c:203-217 | the canonical bytes of `xxh64_intdigest` are what `xxh64_digest` returns |
| `XxhashC.Xxh64HexDigest` | src/_xxhash.c:219-274 | `xxh64_hexdigest` returns 16 lowercase hex characters that decode to what `xxh64_digest` returns |
| `XxhashC.Xxh64.Allocate` | src/_xxhash.c:668-681 | `tp_new` gives the object an engine state of its own |
| `XxhashC.Xxh64.New` | src/_xxhash.c:668-701 | construction returns no object when allocation fails; otherwise it stores the seed, resets, and absorbs exactly the given input |
| `XxhashC.Xxh64.Init` | src/_xxhash.c:683-701 | `__init__` stores the seed, resets the engine with it, then feeds the input if one was given |
| `XxhashC.Xxh64.Update` | src/_xxhash.c:709-720 | `update` appends all of the input to the absorbed bytes and leaves the seed alone |
| `XxhashC.Xxh64.Digest` | src/_xxhash.c:729-760 | `digest()` is the one-shot `xxh64_digest` of everything absorbed, under the stored seed |
| `XxhashC.Xxh64.HexDigest` | src/_xxhash.c:767-814 | `hexdigest()` is the hex of the one-shot `xxh64_digest` of everything absorbed |
| `XxhashC.Xxh64.IntDigest` | src/_xxhash.c:823-827 | `intdigest()` is the one-shot `xxh64_intdigest` of everything absorbed |
| `XxhashC.Xxh64.Copy` | src/_xxhash.c:834-850 | `copy()` returns nothing when allocation fails; otherwise it returns a new object with a new engine state, the same seed and the same absorbed bytes |
| `XxhashC.Xxh64.Reset` | src/_xxhash.c:857-861 | `reset()` discards all absorbed bytes and keeps the stored seed |
| `XxhashC.Xxh64.DigestSize` | src/_xxhash.c:878-882 | `digest_size` is the length of every digest and half the length of every hex digest |
| `XxhashC.Xxh64.GetSeed` | src/_xxhash.c:894-898 | the `seed` getter reports the seed the engine was last reset with |
| `XxhashCffi.Xxh32.constructor` | xxhash/cffi.py:56-61 | `__init__` stores the seed and resets before feeding input; a missing input and an empty one both leave nothing absorbed |
| `XxhashCffi.Xxh32.Update` | xxhash/cffi.py:63-64 | `update` feeds all `len(input)` bytes |
| `XxhashCffi.Xxh32.IntDigest` | xxhash/cffi.py:66-67 | `intdigest()` is `XXH32` of everything absorbed, under the stored seed, and changes nothing |
| `XxhashCffi.Xxh32.Digest` | xxhash/cffi.py:69-70 | `digest()` has 4 bytes, which read back big-endian as `intdigest()` |
| `XxhashCffi.Xxh32.HexDigest` | xxhash/cffi.py:72-73 | `hexdigest()` has 8 lowercase hex characters, which decode to `digest()` |
| `XxhashCffi.Xxh32.Reset` | xxhash/cffi.py:75-76 | `reset()` discards all updates and keeps the stored seed |
| `XxhashCffi.Xxh64.constructor` | xxhash/cffi.py:80-85 | `__init__` stores the seed and resets before feeding input; a missing input and an empty one both leave nothing absorbed |
| `XxhashCffi.Xxh64.Update` | xxhash/cffi.py:87-88 | `update` feeds all `len(input)` bytes |
| `XxhashCffi.Xxh64.IntDigest` | xxhash/cffi.py:90-91 | `intdigest()` is `XXH64` of everything absorbed, under the stored seed, and changes nothing |
| `XxhashCffi.Xxh64.Digest` | xxhash/cffi.py:93-94 | `digest()` has 8 bytes, which read back big-endian as `intdigest()` |
| `XxhashCffi.Xxh64.HexDigest` | xxhash/cffi.py:96-97 | `hexdigest()` has 16 lowercase hex characters, which decode to `digest()` |
| `XxhashCffi.Xxh64.Reset` | xxhash/cffi.py:99-100 | `reset()` discards all updates and keeps the stored seed |
| `Clients.UpdateMatchesOneShot32` | tests/test_xxh32.py:20-42 | two updates, the constructor given the concatenation, and `xxh32_digest` of the concatenation agree |
| `Clients.ChunkingInvisible32` | src/_xxhash.c:347-351 | however the input is cut into `update` calls, `digest()` is `xxh32_digest` of the whole input |
| `Clients.ResetForgetsUpdates32` | tests/test_xxh32.py:44-53 | after any updates, `reset` restores the fresh `intdigest()`, and a second `reset` changes nothing |
| `Clients.CopyIsIndependent32` | tests/test_xxh32.py:55-72 | a copy starts equal; updating the copy leaves the original unchanged; updating the original afterwards leaves the copy unchanged; feeding the original the same bytes makes them agree again |
| `Clients.DigestsOnlyRead32` | src/_xxhash.c:374-471 | repeated digests agree, the hex digest decodes to the digest, and the digest reads back as the integer digest |
| `Clients.CffiUpdateMatchesOneShot32` | xxhash/cffi.py:55-70 | through the cffi `xxh32`, two updates and the constructor given the concatenation both give `xxh32_digest` of the concatenation |
| `Clients.CffiChunkingInvisible32` | xxhash/cffi.py:63-70 | through the cffi `xxh32`, however the input is cut into `update` calls, `digest()` is `xxh32_digest` of the whole input |
| `Clients.CffiResetForgetsUpdates32` | xxhash/cffi.py:75-76 | through the cffi `xxh32`, after any updates `reset` restores the new object's `intdigest()`, and a second `reset` changes nothing |
| `Clients.BindingsAgree32` | xxhash/cffi.py:55-76 | the C type and the cffi class, built with the same arguments, give the same hex digest |
| `Clients.UpdateMatchesOneShot64` | tests/test_xxh64.py:19-41 | two updates, the constructor given the concatenation, and `xxh64_digest` of the concatenation agree |
| `Clients.ChunkingInvisible64` | src/_xxhash.c:703-707 | however the input is cut into `update` calls, `digest()` is `xxh64_digest` of the whole input |
| `Clients.ResetForgetsUpdates64` | tests/test_xxh64.py:43-52 | after any updates, `reset` restores the fresh `intdigest()`, and a second `reset` changes nothing |
| `Clients.CopyIsIndependent64` | tests/test_xxh64.py:54-71 | a copy starts equal; updating the copy leaves the original unchanged; updating the original afterwards leaves the copy unchanged; feeding the original the same bytes makes them agree again |
| `Clients.DigestsOnlyRead64` | src/_xxhash.c:729-827 | repeated digests agree, the hex digest decodes to the digest, and the digest reads back as the integer digest |
| `Clients.CffiUpdateMatchesOneShot64` | xxhash/cffi.py:79-94 | through the cffi `xxh64`, two updates and the constructor given the concatenation both give `xxh64_digest` of the concatenation |
| `Clients.CffiChunkingInvisible64` | xxhash/cffi.py:87-94 | through the cffi `xxh64`, however the input is cut into `update` calls, `digest()` is `xxh64_digest` of the whole input |
| `Clients.CffiResetForgetsUpdates64` | xxhash/cffi.py:99-100 | through the cffi `xxh64`, after any updates `reset` restores the new object's `intdigest()`, and a second `reset` changes nothing |
| `Clients.BindingsAgree64` | xxhash/cffi.py:79-100 | the C type and the cffi class, built with the same arguments, give the same hex digest |

## Left out

- The XXH32 and XXH64 hashing algorithms. They live in `deps/xxhash/xxhash.c`, which is not part of this model. They enter only as the parameters `Hash32`/`Hash64`, so the reference vectors of the unit tests cannot be checked.
- Engine.State.Digest: a state's digest is defined as the one-shot hash of the bytes it absorbed. That equivalence is the library's promise and is taken here, not proved.
- The XXH3 names that `xxhash/__init__.py` imports (`xxh3_64`, `xxh3_128` and their one-shot functions). They have no implementation in `src/_xxhash.c`.
- The CPython plumbing is not modelled. That covers argument parsing and `Py_buffer` handling, the `PyTypeObject`/`PyGetSetDef` tables, module initialisation and the `XXHASH_VERSION` string.
- Allocation of the result objects is not modelled. When `PyBytes_FromStringAndSize` or `PyUnicode_FromStringAndSize` fails, the C digests return NULL; the model's digests always return a value.
- Reference counting and deallocation are not modelled. `PYXXH32_new` and `PYXXH32_copy` leak the half-built object when the state allocation fails, and the model does not show the leak.
- The GIL is released around updates of 100000 bytes or more. This does not change any result and is not modelled.
- Seeds are typed as 32- or 64-bit unsigned values. The C extension truncates a larger Python integer through its `I`/`K` argument conversion. The cffi binding instead stores the Python integer as given and raises an error for one out of range. Neither behaviour is modelled.
- The cffi binding does not check `XXH32_createState` for failure. The model's cffi constructor always succeeds.
- Hex digests are modelled as `string` (`seq<char>`) in both bindings. Under Python 3 the C extension returns `str`, but `binascii.hexlify` in the cffi binding returns `bytes`. The model does not show this difference.
- The `name` and `block_size` getters (`Name`, `BlockSize`) are modelled as constants with no contract.
- `python-xxhash.c`, `ffibuild.py`, `setup.py` and `sizes.c` are not part of this model, and neither are the tests as executables.

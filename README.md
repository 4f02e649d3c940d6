# reasongl native stubs in Dafny

This project models the two C stubs of reasongl that have behaviour of their
own, with the foreign libraries around them treated as inputs.

- `load_image` (`src/native/soil_wrapper.c`) calls the SOIL decoder. It turns a
  null buffer into OCaml's `None`. Otherwise it returns `Some` of a record holding
  width, height, the resolved channel count and a one-dimensional uint8 bigarray.
  The bigarray wraps the decoder's memory and has `width * height * channels`
  elements. The resolved channel count is the request after narrowing to a C `int`,
  `Int_val(force_channels)`, except that a narrowed 0 means "auto" and selects
  the channel count the file really has.
  Module `SoilWrapper` holds this as the pure function `LoadImage`. The decoder is
  a function parameter `decode`, called with the path and the narrowed channel
  request.
- `bigarray_unsafe_blit` (`src/reasongl.c`) copies every byte of a source
  bigarray into a destination bigarray, starting at byte `offset * numOfBytes`.
  Module `ReasonGl` holds it as the method `BigarrayUnsafeBlit`, which mutates a
  destination `array<bv8>` in place. This method is proved against the sequence
  function `Blitted`. `Blitted` is in turn shown equal to `StoreBytes`, a
  byte-by-byte reference definition of `memcpy`, as an independent
  cross-check of `Blitted`; the copy loop itself is proved against `Blitted`.
- Module `MlValues` holds `IntVal`, OCaml's `Int_val`. It narrows an OCaml
  integer to a C `int` by keeping the low 32 bits. C leaves an out-of-range
  `(int)` cast implementation-defined; the model takes the wrap-around that
  GCC and Clang define. Both stubs apply it to their
  integer arguments.

Two edge cases of the code shape the model. `load_image` treats every
non-zero `Int_val(force_channels)` as forced, negative values included, so a
request of 2^32 + 3 is forced as 3 and any multiple of 2^32 means "auto".
`bigarray_unsafe_blit` does no bounds check, so the model takes
`ByteOffset + |src| <= |dst|` as a precondition.

## Model

| member | source | states |
|---|---|---|
| `MlValues.IntVal` | src/native/soil_wrapper.c:24 | the narrowed value lies in the C `int` range and is congruent to the OCaml integer modulo 2^32 |
| `MlValues.IntValKeepsCInt` | src/native/soil_wrapper.c:24 | narrowing leaves an integer unchanged if and only if it fits a C `int` |
| `MlValues.IntValModulo` | src/native/soil_wrapper.c:24 | narrowing depends only on the integer modulo 2^32 (so 2^32 is read as 0, "auto") |
| `SoilWrapper.LoadImage` | src/native/soil_wrapper.c:10-46 | `None` exactly when the decoder returns a null buffer. Otherwise `Some` of a record with the decoder's width and height. Its channels (`ResolveChannels`) are the narrowed forced count when that is non-zero, and the decoder's real count when it is 0. Its bigarray has declared length width * height * resolved channels, and its bytes equal the decoder's bytes |
| `SoilWrapper.LoadImageWellFormed` | src/native/soil_wrapper.c:32-43 | when the decoder keeps SOIL's size promise, every `Some` record has non-negative dimensions and a buffer of exactly width * height * channels bytes |
| `SoilWrapper.ForcedChannelsIgnoreRealChannels` | src/native/soil_wrapper.c:32-35 | with a non-zero forced count, two decoders that agree on everything but the real channel count give the same result |
| `ReasonGl.Blitted` | src/reasongl.c:10 | the result has the destination's length, holds every source byte `i` at `at + i`, and keeps every destination byte outside the window of source length starting at `at` |
| `ReasonGl.StoreBytes` | src/reasongl.c:10 | storing the source bytes one at a time keeps the destination's length |
| `ReasonGl.StoreBytesIsBlitted` | src/reasongl.c:10 | byte-at-a-time stores and the window replacement `Blitted` give the same buffer |
| `ReasonGl.BlitAtStart` | src/reasongl.c:10 | at offset 0 the result is the source followed by the destination's bytes past the source's length |
| `ReasonGl.MemCopy` | src/reasongl.c:10 | the destination's new contents are `Blitted` of its old contents, the source and the start byte |
| `ReasonGl.BigarrayUnsafeBlit` | src/reasongl.c:7-11 | the whole source is copied to byte `ByteOffset(offset, numOfBytes)`, that is `Int_val(offset) * Int_val(numOfBytes)`, and `numOfBytes` only scales that offset. The number of bytes copied is the source's length. The rest of the destination and the whole source are unchanged. The call requires the window to fit, the product to fit a C `int`, and the buffers to be distinct |

## Left out

- `SOIL_load_image` itself: foreign decoding code, modelled only by its outcome through the `decode` parameter. `decode` stands for `SOIL_load_image` applied to `String_val(path)`, so the cut of the path at its first NUL byte is part of `decode`, not of the model. SOIL's promise about the buffer size is the assumed predicate `SoilContract`, because SOIL's own header is not part of this model.
- OCaml runtime mechanics (`CAMLparam`, `CAMLlocal`, `CAMLreturn`, `caml_alloc_small`, `caml_ba_alloc`, GC rooting): the blocks they build are modelled as the datatypes `Option`, `ImageData` and `Bigarray`.
- SoilWrapper.LoadImage: the bigarray wraps the decoder's memory without copying it; a value model cannot tell wrapping from copying, so it states only that the bytes are equal.
- The record block allocated before decoding and dropped on failure: allocation is not observable in a value model.
- The `malloc`'d size cell that is never freed (src/native/soil_wrapper.c:39): ownership and leaks are not part of a functional model.
- SoilWrapper.LoadImage: computes `width * height * channels` over mathematical integers and does not model C `int` overflow in that product.
- Element kinds and dimensions of the bigarrays given to the blit: both are modelled as raw byte arrays of their byte size.
- ReasonGl.BigarrayUnsafeBlit: two bigarray views of the same memory (overlapping buffers) are excluded by requiring distinct arrays, so aliasing is not modelled.
- `reasongl_usleep`: a bare sleep system call.
- `setcurrentdir.js`: build plumbing that writes a pkg-config file.
- `src/ios/Reasongl.h`: leaderboard method declarations without bodies.

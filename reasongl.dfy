/** `bigarray_unsafe_blit`: copy a whole byte buffer into another. */
module ReasonGl {
  import opened MlValues

  /** `dst` with the window starting at byte `at` replaced by `src`. */
  function Blitted(dst: seq<bv8>, src: seq<bv8>, at: nat): (r: seq<bv8>)
    requires at + |src| <= |dst|
    ensures |r| == |dst|
    ensures forall i :: 0 <= i < |src| ==> r[at + i] == src[i]
    ensures forall j :: 0 <= j < |dst| && !(at <= j < at + |src|) ==> r[j] == dst[j]
  {
    dst[..at] + src + dst[at + |src|..]
  }

  /** `memcpy` as a sequence of single-byte stores, first byte first. */
  function StoreBytes(dst: seq<bv8>, at: nat, src: seq<bv8>): (r: seq<bv8>)
    requires at + |src| <= |dst|
    ensures |r| == |dst|
    decreases |src|
  {
    if src == [] then dst else StoreBytes(dst[at := src[0]], at + 1, src[1..])
  }

  /** Storing the bytes one at a time gives exactly the window replacement. */
  lemma {:induction false} StoreBytesIsBlitted(dst: seq<bv8>, at: nat, src: seq<bv8>)
    requires at + |src| <= |dst|
    ensures StoreBytes(dst, at, src) == Blitted(dst, src, at)
    decreases |src|
  {
    if src != [] {
      var next := dst[at := src[0]];
      StoreBytesIsBlitted(next, at + 1, src[1..]);
      var r := Blitted(next, src[1..], at + 1);
      assert forall j :: 0 <= j < |dst| ==> r[j] == Blitted(dst, src, at)[j] by {
        forall j | 0 <= j < |dst| ensures r[j] == Blitted(dst, src, at)[j] {
          if at + 1 <= j < at + |src| {
            assert r[at + 1 + (j - at - 1)] == src[1..][j - at - 1];
          }
        }
      }
    }
  }

  /** The blit's byte offset: `Int_val(offset) * Int_val(numOfBytes)`. */
  function ByteOffset(offset: int, numOfBytes: int): (b: int) {
    IntVal(offset) * IntVal(numOfBytes)
  }

  /** With offset 0 the source becomes the destination's prefix and the
      rest of the destination is kept. */
  lemma BlitAtStart(dst: seq<bv8>, src: seq<bv8>)
    requires |src| <= |dst|
    ensures Blitted(dst, src, 0) == src + dst[|src|..]
  {
  }

  /** `memcpy(dst + at, src, src.Length)` over two distinct buffers. */
  method MemCopy(dst: array<bv8>, at: nat, src: array<bv8>)
    requires src != dst
    requires at + src.Length <= dst.Length
    modifies dst
    ensures dst[..] == Blitted(old(dst[..]), src[..], at)
  {
    var i := 0;
    while i < src.Length
      invariant 0 <= i <= src.Length
      invariant forall k :: 0 <= k < i ==> dst[at + k] == src[k]
      invariant forall j :: 0 <= j < dst.Length && !(at <= j < at + i) ==> dst[j] == old(dst[j])
    {
      dst[at + i] := src[i];
      i := i + 1;
    }
    forall j | 0 <= j < dst.Length ensures dst[..][j] == Blitted(old(dst[..]), src[..], at)[j] {
      if at <= j < at + src.Length {
        assert dst[at + (j - at)] == src[j - at];
      }
    }
  }

  /** `bigarray_unsafe_blit(src, dst, offset, numOfBytes)`: all of `src` is
      copied into `dst` from byte `offset * numOfBytes` on. The code checks
      nothing, so the window must fit, the product must not overflow a C
      `int`, and the two buffers must not overlap, as `memcpy` demands. */
  method BigarrayUnsafeBlit(src: array<bv8>, dst: array<bv8>, offset: int, numOfBytes: int)
    requires src != dst
    requires IsCInt(ByteOffset(offset, numOfBytes))
    requires 0 <= ByteOffset(offset, numOfBytes)
    requires ByteOffset(offset, numOfBytes) + src.Length <= dst.Length
    modifies dst
    ensures src[..] == old(src[..])
    ensures dst[..] == Blitted(old(dst[..]), src[..], ByteOffset(offset, numOfBytes))
  {
    MemCopy(dst, ByteOffset(offset, numOfBytes), src);
  }
}

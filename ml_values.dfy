/** The OCaml runtime's integer conversions used by both native stubs. */
module MlValues {

  const IntMin: int := -0x8000_0000
  const IntMax: int := 0x7fff_ffff

  /** A value that a 32-bit C `int` can hold. */
  predicate IsCInt(x: int) {
    IntMin <= x <= IntMax
  }

  /** `Int_val`: untag an OCaml integer and narrow it to a C `int`, keeping
      its low 32 bits as a two's-complement number. C leaves the `(int)` cast
      of an out-of-range value implementation-defined; this is the
      wrap-around that GCC and Clang define. */
  function IntVal(v: int): (r: int)
    ensures IsCInt(r)
    ensures (v - r) % 0x1_0000_0000 == 0
  {
    var low := v % 0x1_0000_0000;
    if low <= IntMax then low else low - 0x1_0000_0000
  }

  /** An OCaml integer crosses unchanged exactly when it fits a C `int`. */
  lemma IntValKeepsCInt(v: int)
    ensures IntVal(v) == v <==> IsCInt(v)
  {
  }

  /** Narrowing only sees the value modulo 2^32. */
  lemma IntValModulo(v: int, k: int)
    ensures IntVal(v + k * 0x1_0000_0000) == IntVal(v)
  {
  }
}

/** Rust's `Option` and `Result`, and the truncating cast to `u32`. */
module Lang {

  datatype Option<T> = None | Some(value: T) {
    /** Rust's `unwrap_or`. */
    function UnwrapOr(default: T): T {
      if Some? then value else default
    }
  }

  datatype Result<T, E> = Success(value: T) | Failure(error: E)

  const U32_MODULUS: nat := 0x1_0000_0000

  newtype u32 = x: int | 0 <= x < U32_MODULUS

  /** `n as u32`: keeps the low 32 bits. */
  function AsU32(n: nat): (r: u32)
    ensures n < U32_MODULUS ==> r as int == n
    ensures (r as int - n) % U32_MODULUS == 0
  {
    (n % U32_MODULUS) as u32
  }
}

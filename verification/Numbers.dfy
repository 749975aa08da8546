/** Numbers that several parts of the system share. */
module Numbers {
  const I32_MAX: int := 0x7fff_ffff

  // Error numbers

  const EBADF: int := 9
  const EAGAIN: int := 11
  const EINVAL: int := 22
  const EOVERFLOW: int := 75
  const ETIMEDOUT: int := 110

  function Max(a: int, b: int): int {
    if a < b then b else a
  }

  function Min(a: int, b: int): int {
    if a < b then a else b
  }

  /** The next multiple of size. */
  function AlignUp(n: nat, size: nat): nat
    requires size > 0
  {
    (n + size - 1) / size * size
  }
}

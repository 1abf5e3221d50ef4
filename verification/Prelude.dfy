/** Small types shared by every module. */
module Prelude {
  datatype Option<+T> = None | Some(value: T)

  datatype Result<+T, +E> = Ok(value: T) | Err(error: E)

  function Max(a: int, b: int): int {
    if a > b then a else b
  }

  function Min(a: int, b: int): int {
    if a < b then a else b
  }

  /** Rust's `saturating_sub` on unsigned values and on instants. */
  function SaturatingSub(a: int, b: int): int {
    if a > b then a - b else 0
  }
}

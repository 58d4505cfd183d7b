/** The small pieces of Rust's `core` that the poker model leans on:
    `std::cmp::Ordering`, `Option` and `Result`, and the total order on
    machine integers that derived orderings reduce to. */
module Cmp {

  /** `std::cmp::Ordering`. */
  datatype Ordering = Less | Equal | Greater {
    /** `Ordering::reverse`: the answer of the comparison with its operands swapped. */
    function Reverse(): Ordering {
      match this
      case Less => Greater
      case Equal => Equal
      case Greater => Less
    }
  }

  datatype Option<T> = None | Some(value: T)

  datatype Result<T, E> = Ok(value: T) | Err(error: E)

  /** `Ord::cmp` on integers (discriminants, `u8` codes, lengths). */
  function CmpInt(x: int, y: int): (r: Ordering)
    ensures r == Less <==> x < y
    ensures r == Equal <==> x == y
    ensures r == Greater <==> x > y
  {
    if x < y then Less else if x == y then Equal else Greater
  }

  /** Swapping the operands of an integer comparison reverses its answer. */
  lemma CmpIntAntisymmetric(x: int, y: int)
    ensures CmpInt(y, x) == CmpInt(x, y).Reverse()
  {
  }
}

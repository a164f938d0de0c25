/** Shared vocabulary of the four calculator pages: how a form field holds its value
    and how a numeric field is read when the footprint is computed. */
module Forms {

  datatype Option<+T> = None | Some(value: T)

  /** A numeric form field after the browser has parsed it: `None` is an empty field
      (and, on the pages that write `Number(x) || 0`, one that is not a number). */
  type Num = Option<real>

  /** How a calculator reads a numeric field: an empty or non-numeric field counts as 0. */
  function NumberOrZero(n: Num): (r: real)
    ensures n.None? ==> r == 0.0
    ensures n.Some? ==> r == n.value
  {
    match n
    case None => 0.0
    case Some(x) => x
  }

  /** The entry is empty or a number that is not negative. */
  predicate NonNegative(n: Num)
  {
    NumberOrZero(n) >= 0.0
  }

  /** What one form field holds: the option chosen in a select, or a numeric entry. */
  datatype Value = Choice(option: string) | Amount(amount: Num)
}

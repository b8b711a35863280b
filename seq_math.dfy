/** Arithmetic over sequences of numbers shared by the dashboard and the task analyzer. */
module SeqMath {
  /** `sum(xs)`, adding the elements from the first to the last. */
  function Sum(xs: seq<int>): int
    decreases |xs|
  {
    if xs == [] then 0 else Sum(xs[..|xs| - 1]) + xs[|xs| - 1]
  }
}

/** The few facts about real arithmetic that several modules need. */
module RealArithmetic {

  function Min(x: real, y: real): real {
    if x <= y then x else y
  }

  lemma ProductNonnegative(x: real, y: real)
    requires 0.0 <= x && 0.0 <= y
    ensures 0.0 <= x * y
  {}
}

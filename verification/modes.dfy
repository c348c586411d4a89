/** The four practice modes and the ranges each one draws its numbers from. */
module Modes {
  datatype Tier = Basic | Advanced
  datatype Operator = Addition | Subtraction

  /** A practice mode. Stands for the strings "basic_addition", "basic_subtraction",
      "advanced_addition" and "advanced_subtraction"; the substring tests
      `"addition" in mode` and `"advanced" in mode` read `op` and `tier`. */
  datatype Mode = Mode(tier: Tier, op: Operator)

  /** Largest operand, and for addition the largest sum, of a problem. */
  function MaxNum(t: Tier): (n: int) {
    if t == Advanced then 20 else 9
  }

  /** Bounds on the values an answer option may take. */
  function MaxResult(t: Tier): (n: int) {
    if t == Advanced then 40 else 18
  }

  function MinResult(t: Tier): (n: int) {
    if t == Advanced then -20 else -9
  }

  /** The range invariant of a problem drawn in mode `m`: for addition both operands are
      non-negative and their sum is at most MaxNum; for subtraction the subtrahend is at most
      the minuend, which is at most MaxNum, so the result is never negative. */
  predicate ProblemValid(m: Mode, num1: int, num2: int, op: Operator, correct: int) {
    op == m.op &&
    match m.op
    case Addition => 0 <= num1 && 0 <= num2 && num1 + num2 <= MaxNum(m.tier) && correct == num1 + num2
    case Subtraction => 0 <= num2 <= num1 <= MaxNum(m.tier) && correct == num1 - num2
  }

  /** Every valid problem has its answer in [0, MaxNum], so its sign-flipped answer lies
      in the option range [MinResult, MaxResult]. */
  lemma ProblemAnswerInRange(m: Mode, num1: int, num2: int, op: Operator, correct: int)
    requires ProblemValid(m, num1, num2, op, correct)
    ensures 0 <= correct <= MaxNum(m.tier)
    ensures MinResult(m.tier) <= -correct <= MaxResult(m.tier)
    ensures correct + 3 <= MaxResult(m.tier)
  {
  }
}

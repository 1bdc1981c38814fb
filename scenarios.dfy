/**
  The straight-line methods of the checker's test file, composed from the
  transfer functions and the oracle: each lemma computes the facts the
  checker derives for the test's divisors and states which division sites
  are reported, as the test's expected-error comments say.
*/
module FooScenarios {
  import opened Lattice
  import opened Semantics
  import opened DivByZeroTransfer
  import DivByZeroVisitor

  /**
    The fact of an integer literal: the most precise fact describing its
    value. (The annotated type factory that assigns it is not part of this
    model.)
  */
  function LiteralFact(n: int): (f: Fact)
    ensures Gamma(f, Int(n))
    ensures forall g :: Gamma(g, Int(n)) ==> Leq(f, g)
  {
    if n < 0 then StrictlyNegative else if n == 0 then Zero else StrictlyPositive
  }

  /** An int-typed expression with the given fact. */
  function IntExpression(f: Fact): DivByZeroVisitor.Expression {
    DivByZeroVisitor.Expression(DivByZeroVisitor.INT, f)
  }

  /** Whether `dividend / divisor` on ints is reported. */
  predicate DivisionReported(dividend: Fact, divisor: Fact) {
    DivByZeroVisitor.VisitBinary(DivByZeroVisitor.BinaryTree(DivByZeroVisitor.DIVIDE, IntExpression(dividend), IntExpression(divisor), DivByZeroVisitor.INT))
  }

  /** Whether `variable /= expression` on ints is reported. */
  predicate DivisionAssignmentReported(variable: Fact, expression: Fact) {
    DivByZeroVisitor.VisitCompoundAssignment(DivByZeroVisitor.CompoundAssignmentTree(DivByZeroVisitor.DIVIDE_ASSIGNMENT, IntExpression(variable), IntExpression(expression)))
  }

  /** f(): `one / zero` is reported; `zero / one` is Zero, so `x / y` is reported too. */
  lemma F()
    ensures var one, zero := LiteralFact(1), LiteralFact(0);
            var x, y := ArithmeticTransfer(DIVIDE, one, zero), ArithmeticTransfer(DIVIDE, zero, one);
            && DivisionReported(one, zero)
            && x == UndefinedValue && y == Zero
            && DivisionReported(x, y)
  {
  }

  /** h(): `0 + 0 - 0 * 0` is Zero and reported as a divisor; `0 * 1 + 1` is strictly positive and is not. */
  lemma H()
    ensures var zero, one := LiteralFact(0), LiteralFact(1);
            var zeroTheHardWay := ArithmeticTransfer(MINUS, ArithmeticTransfer(PLUS, zero, zero), ArithmeticTransfer(TIMES, zero, zero));
            var oneTheHardWay := ArithmeticTransfer(PLUS, ArithmeticTransfer(TIMES, zero, one), one);
            && zeroTheHardWay == Zero && DivisionReported(one, zeroTheHardWay)
            && oneTheHardWay == StrictlyPositive && !DivisionReported(one, oneTheHardWay)
  {
  }

  /** l(): `1 - 1` and `y - y` with y positive may be zero, so each division by them is reported. */
  lemma L()
    ensures var one := LiteralFact(1);
            var y := one;
            && DivisionReported(one, ArithmeticTransfer(MINUS, one, one))
            && DivisionReported(one, ArithmeticTransfer(MINUS, y, y))
  {
  }

  /** safeAddition(): the sum of two positives, and of two negatives, is a safe divisor. */
  lemma SafeAddition()
    ensures !DivisionReported(LiteralFact(1), ArithmeticTransfer(PLUS, LiteralFact(2), LiteralFact(3)))
    ensures !DivisionReported(LiteralFact(-1), ArithmeticTransfer(PLUS, LiteralFact(-4), LiteralFact(-6)))
  {
  }

  /** safeSubtraction(): negative minus positive, and positive minus negative, are safe divisors. */
  lemma SafeSubtraction()
    ensures !DivisionReported(LiteralFact(1), ArithmeticTransfer(MINUS, LiteralFact(-3), LiteralFact(4)))
    ensures var b := LiteralFact(-5);
            !DivisionReported(LiteralFact(10), ArithmeticTransfer(MINUS, LiteralFact(1), b))
  {
  }

  /** multiplicationPreservesSigns(): 3 + 1 * 2 is positive, but 3 + 1 * -3 may be zero. */
  lemma MultiplicationPreservesSigns()
    ensures var a := ArithmeticTransfer(TIMES, LiteralFact(1), LiteralFact(2));
            var b := ArithmeticTransfer(PLUS, LiteralFact(3), a);
            a == StrictlyPositive && !DivisionReported(LiteralFact(-1), b)
    ensures var d := ArithmeticTransfer(TIMES, LiteralFact(1), LiteralFact(-3));
            var e := ArithmeticTransfer(PLUS, LiteralFact(3), d);
            d == StrictlyNegative && DivisionReported(LiteralFact(2), e)
  {
  }

  /** complicatedSafeSequence(): every step keeps c strictly positive, so `1 / c` is not reported. */
  lemma ComplicatedSafeSequence()
    ensures var c0 := LiteralFact(3);
            var c1 := ArithmeticTransfer(PLUS, c0, LiteralFact(5));
            var c2 := ArithmeticTransfer(TIMES, c1, ArithmeticTransfer(PLUS, LiteralFact(2), LiteralFact(1)));
            var c3 := ArithmeticTransfer(TIMES, c2, ArithmeticTransfer(TIMES, LiteralFact(-3), LiteralFact(-4)));
            var c4 := ArithmeticTransfer(PLUS, c3, LiteralFact(1));
            c4 == StrictlyPositive && !DivisionReported(LiteralFact(1), c4)
  {
  }

  /** divisionAssignment(): `a /= 0` and `b /= (3 * 0)` are both reported. */
  lemma DivisionAssignment()
    ensures DivisionAssignmentReported(LiteralFact(3), LiteralFact(0))
    ensures DivisionAssignmentReported(LiteralFact(10), ArithmeticTransfer(TIMES, LiteralFact(3), LiteralFact(0)))
  {
  }

  /** divideByMod(): `4 % 2` is only known to be non-negative, so dividing by it is reported. */
  lemma DivideByMod()
    ensures var x := ArithmeticTransfer(MOD, LiteralFact(4), LiteralFact(2));
            x == GreaterThanOrEqualToZero && DivisionReported(LiteralFact(3), x)
  {
  }

  /** truncatingDivision(): `3 / 4` may truncate to zero, so dividing by it is reported. */
  lemma TruncatingDivision()
    ensures var x := ArithmeticTransfer(DIVIDE, LiteralFact(3), LiteralFact(4));
            x == GreaterThanOrEqualToZero && DivisionReported(LiteralFact(3), x)
  {
  }

  /** Whether `1 / y` is reported in the branch where `y op 0` holds, y having had fact y before the test. */
  predicate ReportedWhere(op: Comparison, y: Fact) {
    DivisionReported(LiteralFact(1), RefineLhsOfComparison(op, y, LiteralFact(0)))
  }

  /**
    g(y): y starts without information (Top). Each if/else joins its two
    branches, refined by `y op 0` and by its negation, into AllZ: y is then
    known not to be undefined and nothing more. The first four tests see y
    at Top and then at AllZ.
  */
  lemma GEqualityJoins()
    ensures Lub(RefineLhsOfComparison(EQ, Top, Zero), RefineLhsOfComparison(Negate(EQ), Top, Zero)) == AllZ
    ensures Lub(RefineLhsOfComparison(EQ, AllZ, Zero), RefineLhsOfComparison(Negate(EQ), AllZ, Zero)) == AllZ
    ensures Lub(RefineLhsOfComparison(NE, AllZ, Zero), RefineLhsOfComparison(Negate(NE), AllZ, Zero)) == AllZ
  {
  }

  /**
    The last four tests of g(y) have no else branch; the join with the path
    that skips the branch, where the negated test holds, stays at AllZ.
  */
  lemma GOrderingJoins()
    ensures Lub(RefineLhsOfComparison(LT, AllZ, Zero), RefineLhsOfComparison(Negate(LT), AllZ, Zero)) == AllZ
    ensures Lub(RefineLhsOfComparison(LE, AllZ, Zero), RefineLhsOfComparison(Negate(LE), AllZ, Zero)) == AllZ
    ensures Lub(RefineLhsOfComparison(GT, AllZ, Zero), RefineLhsOfComparison(Negate(GT), AllZ, Zero)) == AllZ
    ensures Lub(RefineLhsOfComparison(GE, AllZ, Zero), RefineLhsOfComparison(Negate(GE), AllZ, Zero)) == AllZ
  {
  }

  /**
    g(y), first four tests, with y at Top or AllZ: `1 / y` is reported in the
    branch where y == 0 holds and not where it fails, and the other way round
    for y != 0; `!(c)` exchanges the branches.
  */
  lemma GEquality(y: Fact)
    requires y == Top || y == AllZ
    ensures ReportedWhere(EQ, y) && !ReportedWhere(Negate(EQ), y)
    ensures !ReportedWhere(NE, y) && ReportedWhere(Negate(NE), y)
  {
  }

  /** g(y), tests against 0 from below, with y at Top or AllZ: `1 / y` is reported after y <= 0, not after y < 0. */
  lemma GOrderingBelow(y: Fact)
    requires y == Top || y == AllZ
    ensures !ReportedWhere(LT, y) && ReportedWhere(LE, y)
  {
  }

  /** g(y), tests against 0 from above, with y at Top or AllZ: `1 / y` is reported after y >= 0, not after y > 0. */
  lemma GOrderingAbove(y: Fact)
    requires y == Top || y == AllZ
    ensures !ReportedWhere(GT, y) && ReportedWhere(GE, y)
  {
  }
}

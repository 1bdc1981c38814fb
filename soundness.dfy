/**
  The tables against the concrete semantics: every refinement and every
  arithmetic transfer describes all values the program can actually have,
  and the special rows and columns behave as the checker relies on.
*/
module TransferSoundness {
  import opened Lattice
  import opened Semantics
  import opened DivByZeroTransfer

  // ========================================================================
  // Refinement

  lemma {:induction false} NeRefinementSound(lhs: Fact, rhs: Fact, x: int, y: int)
    requires Gamma(lhs, Int(x)) && Gamma(rhs, Int(y))
    requires Holds(NE, x, y)
    ensures Gamma(RefineLhsOfComparison(NE, lhs, rhs), Int(x))
  {
  }

  lemma {:induction false} LtRefinementSound(lhs: Fact, rhs: Fact, x: int, y: int)
    requires Gamma(lhs, Int(x)) && Gamma(rhs, Int(y))
    requires Holds(LT, x, y)
    ensures Gamma(RefineLhsOfComparison(LT, lhs, rhs), Int(x))
  {
  }

  lemma {:induction false} LeRefinementSound(lhs: Fact, rhs: Fact, x: int, y: int)
    requires Gamma(lhs, Int(x)) && Gamma(rhs, Int(y))
    requires Holds(LE, x, y)
    ensures Gamma(RefineLhsOfComparison(LE, lhs, rhs), Int(x))
  {
  }

  lemma {:induction false} GtRefinementSound(lhs: Fact, rhs: Fact, x: int, y: int)
    requires Gamma(lhs, Int(x)) && Gamma(rhs, Int(y))
    requires Holds(GT, x, y)
    ensures Gamma(RefineLhsOfComparison(GT, lhs, rhs), Int(x))
  {
  }

  lemma {:induction false} GeRefinementSound(lhs: Fact, rhs: Fact, x: int, y: int)
    requires Gamma(lhs, Int(x)) && Gamma(rhs, Int(y))
    requires Holds(GE, x, y)
    ensures Gamma(RefineLhsOfComparison(GE, lhs, rhs), Int(x))
  {
  }

  /**
    If x is described by lhs, y by rhs, and `x op y` is true, then x is
    described by the refined fact.
  */
  lemma {:induction false} RefineSound(op: Comparison, lhs: Fact, rhs: Fact, x: int, y: int)
    requires Gamma(lhs, Int(x)) && Gamma(rhs, Int(y))
    requires Holds(op, x, y)
    ensures Gamma(RefineLhsOfComparison(op, lhs, rhs), Int(x))
  {
    match op
    case EQ => GlbIsIntersection(lhs, rhs, Int(x));
    case NE => NeRefinementSound(lhs, rhs, x, y);
    case LT => LtRefinementSound(lhs, rhs, x, y);
    case LE => LeRefinementSound(lhs, rhs, x, y);
    case GT => GtRefinementSound(lhs, rhs, x, y);
    case GE => GeRefinementSound(lhs, rhs, x, y);
  }

  /** EQ refines to the meet. */
  lemma EqIsGlb(lhs: Fact, rhs: Fact)
    requires rhs != Bot
    ensures RefineLhsOfComparison(EQ, lhs, rhs) == Glb(lhs, rhs)
  {
  }

  /**
    NE narrows only against Zero: Zero != Zero is impossible, any other lhs
    loses the zero case (UndefinedValue has none to lose); against any other
    rhs the lhs is kept, except that Top != UndefinedValue gives AllZ.
  */
  lemma NeNarrowsOnlyAgainstZero(lhs: Fact, rhs: Fact)
    requires lhs != Bot && rhs != Bot
    ensures rhs == Zero ==> RefineLhsOfComparison(NE, lhs, rhs) == if lhs == UndefinedValue then UndefinedValue else Glb(lhs, NonZero)
    ensures rhs != Zero ==> RefineLhsOfComparison(NE, lhs, rhs) == if lhs == Top && rhs == UndefinedValue then AllZ else lhs
  {
  }

  /**
    An UndefinedValue lhs stays UndefinedValue under every operator but EQ;
    a defined lhs compared with an UndefinedValue rhs is impossible except
    under NE, which keeps it.
  */
  lemma UndefinedOperandRefinement(op: Comparison, lhs: Fact, rhs: Fact)
    ensures op != EQ && rhs != Bot ==> RefineLhsOfComparison(op, UndefinedValue, rhs) == UndefinedValue
    ensures Leq(lhs, AllZ) ==> RefineLhsOfComparison(op, lhs, UndefinedValue) == if op == NE then lhs else Bot
  {
  }

  // ========================================================================
  // Arithmetic

  lemma PositiveProduct(a: int, b: int)
    requires a > 0 && b > 0
    ensures a * b > 0
  {
  }

  /** Signs of a product. */
  lemma {:induction false} ProductSign(x: int, y: int)
    ensures x * y == 0 <==> x == 0 || y == 0
    ensures x * y > 0 <==> (x > 0 && y > 0) || (x < 0 && y < 0)
  {
    if x != 0 && y != 0 {
      PositiveProduct(Abs(x), Abs(y));
      assert x * y == if (x < 0) == (y < 0) then Abs(x) * Abs(y) else -(Abs(x) * Abs(y));
    }
  }

  /** Sign of a Java quotient: zero for a zero dividend, otherwise by the operands' signs. */
  lemma {:induction false} QuotientSign(x: int, y: int)
    requires y != 0
    ensures x == 0 ==> JavaDiv(x, y) == 0
    ensures (x < 0) == (y < 0) ==> JavaDiv(x, y) >= 0
    ensures (x < 0) != (y < 0) ==> JavaDiv(x, y) <= 0
  {
    NatDivision(Abs(x), Abs(y));
  }

  lemma {:induction false} PlusSound(a: Fact, b: Fact, x: Value, y: Value)
    requires Gamma(a, x) && Gamma(b, y)
    ensures Gamma(ArithmeticTransfer(PLUS, a, b), Evaluate(PLUS, x, y))
  {
  }

  lemma {:induction false} MinusSound(a: Fact, b: Fact, x: Value, y: Value)
    requires Gamma(a, x) && Gamma(b, y)
    ensures Gamma(ArithmeticTransfer(MINUS, a, b), Evaluate(MINUS, x, y))
  {
    var y' := if y.Int? then Int(-y.n) else Undefined;
    FlipAnnotationSignNegates(b, if y.Int? then y.n else 0);
    assert Gamma(FlipAnnotationSign(b), y');
    PlusSound(a, FlipAnnotationSign(b), x, y');
    MinusIsPlusOfFlipped(a, b);
    assert Evaluate(MINUS, x, y) == Evaluate(PLUS, x, y');
  }

  lemma {:induction false} TimesSound(a: Fact, b: Fact, x: Value, y: Value)
    requires Gamma(a, x) && Gamma(b, y)
    ensures Gamma(ArithmeticTransfer(TIMES, a, b), Evaluate(TIMES, x, y))
  {
    if x.Int? && y.Int? {
      ProductSign(x.n, y.n);
    }
  }

  lemma {:induction false} DivideSound(a: Fact, b: Fact, x: Value, y: Value)
    requires Gamma(a, x) && Gamma(b, y)
    ensures Gamma(ArithmeticTransfer(DIVIDE, a, b), Evaluate(DIVIDE, x, y))
  {
    if x.Int? && y.Int? && y.n != 0 {
      QuotientSign(x.n, y.n);
    }
  }

  lemma {:induction false} ModSound(a: Fact, b: Fact, x: Value, y: Value)
    requires Gamma(a, x) && Gamma(b, y)
    ensures Gamma(ArithmeticTransfer(MOD, a, b), Evaluate(MOD, x, y))
  {
  }

  /**
    Soundness of the arithmetic transfer: for every x described by a and y
    described by b, the value of `x op y` (undefined after a zero divisor) is
    described by the transferred fact.
  */
  lemma {:induction false} ArithmeticSound(op: BinaryOperator, a: Fact, b: Fact, x: Value, y: Value)
    requires Gamma(a, x) && Gamma(b, y)
    ensures Gamma(ArithmeticTransfer(op, a, b), Evaluate(op, x, y))
  {
    match op
    case PLUS => PlusSound(a, b, x, y);
    case MINUS => MinusSound(a, b, x, y);
    case TIMES => TimesSound(a, b, x, y);
    case DIVIDE => DivideSound(a, b, x, y);
    case MOD => ModSound(a, b, x, y);
  }

  // ========================================================================
  // Monotonicity: more precise operands never give a less precise result
  //
  // For each table, monotonicity in the left operand is proved separately for
  // the three exact facts and for the three signed facts below it (the other
  // facts are only below themselves and Top), then in the right operand, and
  // the two steps are chained by transitivity.

  lemma PlusMonotoneLeftExact(a1: Fact, a2: Fact, b: Fact)
    requires a1 in {Zero, StrictlyNegative, StrictlyPositive} && Leq(a1, a2)
    ensures Leq(ArithmeticTransfer(PLUS, a1, b), ArithmeticTransfer(PLUS, a2, b))
  {
  }

  lemma PlusMonotoneLeftSigned(a1: Fact, a2: Fact, b: Fact)
    requires a1 in {LessThanOrEqualToZero, NonZero, GreaterThanOrEqualToZero} && Leq(a1, a2)
    ensures Leq(ArithmeticTransfer(PLUS, a1, b), ArithmeticTransfer(PLUS, a2, b))
  {
  }

  lemma {:induction false} PlusMonotoneLeft(a1: Fact, a2: Fact, b: Fact)
    requires Leq(a1, a2)
    ensures Leq(ArithmeticTransfer(PLUS, a1, b), ArithmeticTransfer(PLUS, a2, b))
  {
    if a1 in {Zero, StrictlyNegative, StrictlyPositive} {
      PlusMonotoneLeftExact(a1, a2, b);
    } else if a1 in {LessThanOrEqualToZero, NonZero, GreaterThanOrEqualToZero} {
      PlusMonotoneLeftSigned(a1, a2, b);
    }
  }

  lemma PlusMonotoneRight(a: Fact, b1: Fact, b2: Fact)
    requires Leq(b1, b2)
    ensures Leq(ArithmeticTransfer(PLUS, a, b1), ArithmeticTransfer(PLUS, a, b2))
  {
  }

  lemma {:induction false} PlusMonotone(a1: Fact, a2: Fact, b1: Fact, b2: Fact)
    requires Leq(a1, a2) && Leq(b1, b2)
    ensures Leq(ArithmeticTransfer(PLUS, a1, b1), ArithmeticTransfer(PLUS, a2, b2))
  {
    PlusMonotoneLeft(a1, a2, b1);
    PlusMonotoneRight(a2, b1, b2);
    LeqIsPartialOrder(ArithmeticTransfer(PLUS, a1, b1), ArithmeticTransfer(PLUS, a2, b1), ArithmeticTransfer(PLUS, a2, b2));
  }

  /** The sign flip preserves the order. */
  lemma FlipAnnotationSignMonotone(b1: Fact, b2: Fact)
    requires Leq(b1, b2)
    ensures Leq(FlipAnnotationSign(b1), FlipAnnotationSign(b2))
  {
  }

  lemma {:induction false} MinusMonotone(a1: Fact, a2: Fact, b1: Fact, b2: Fact)
    requires Leq(a1, a2) && Leq(b1, b2)
    ensures Leq(ArithmeticTransfer(MINUS, a1, b1), ArithmeticTransfer(MINUS, a2, b2))
  {
    FlipAnnotationSignMonotone(b1, b2);
    MinusIsPlusOfFlipped(a1, b1);
    MinusIsPlusOfFlipped(a2, b2);
    PlusMonotone(a1, a2, FlipAnnotationSign(b1), FlipAnnotationSign(b2));
  }

  lemma TimesMonotoneLeftExact(a1: Fact, a2: Fact, b: Fact)
    requires a1 in {Zero, StrictlyNegative, StrictlyPositive} && Leq(a1, a2)
    ensures Leq(ArithmeticTransfer(TIMES, a1, b), ArithmeticTransfer(TIMES, a2, b))
  {
  }

  lemma TimesMonotoneLeftSigned(a1: Fact, a2: Fact, b: Fact)
    requires a1 in {LessThanOrEqualToZero, NonZero, GreaterThanOrEqualToZero} && Leq(a1, a2)
    ensures Leq(ArithmeticTransfer(TIMES, a1, b), ArithmeticTransfer(TIMES, a2, b))
  {
  }

  lemma {:induction false} TimesMonotoneLeft(a1: Fact, a2: Fact, b: Fact)
    requires Leq(a1, a2)
    ensures Leq(ArithmeticTransfer(TIMES, a1, b), ArithmeticTransfer(TIMES, a2, b))
  {
    if a1 in {Zero, StrictlyNegative, StrictlyPositive} {
      TimesMonotoneLeftExact(a1, a2, b);
    } else if a1 in {LessThanOrEqualToZero, NonZero, GreaterThanOrEqualToZero} {
      TimesMonotoneLeftSigned(a1, a2, b);
    }
  }

  lemma TimesMonotoneRight(a: Fact, b1: Fact, b2: Fact)
    requires Leq(b1, b2)
    ensures Leq(ArithmeticTransfer(TIMES, a, b1), ArithmeticTransfer(TIMES, a, b2))
  {
  }

  lemma {:induction false} TimesMonotone(a1: Fact, a2: Fact, b1: Fact, b2: Fact)
    requires Leq(a1, a2) && Leq(b1, b2)
    ensures Leq(ArithmeticTransfer(TIMES, a1, b1), ArithmeticTransfer(TIMES, a2, b2))
  {
    TimesMonotoneLeft(a1, a2, b1);
    TimesMonotoneRight(a2, b1, b2);
    LeqIsPartialOrder(ArithmeticTransfer(TIMES, a1, b1), ArithmeticTransfer(TIMES, a2, b1), ArithmeticTransfer(TIMES, a2, b2));
  }

  lemma DivideMonotoneLeftExact(a1: Fact, a2: Fact, b: Fact)
    requires a1 in {Zero, StrictlyNegative, StrictlyPositive} && Leq(a1, a2)
    ensures Leq(ArithmeticTransfer(DIVIDE, a1, b), ArithmeticTransfer(DIVIDE, a2, b))
  {
  }

  lemma DivideMonotoneLeftSigned(a1: Fact, a2: Fact, b: Fact)
    requires a1 in {LessThanOrEqualToZero, NonZero, GreaterThanOrEqualToZero} && Leq(a1, a2)
    ensures Leq(ArithmeticTransfer(DIVIDE, a1, b), ArithmeticTransfer(DIVIDE, a2, b))
  {
  }

  lemma {:induction false} DivideMonotoneLeft(a1: Fact, a2: Fact, b: Fact)
    requires Leq(a1, a2)
    ensures Leq(ArithmeticTransfer(DIVIDE, a1, b), ArithmeticTransfer(DIVIDE, a2, b))
  {
    if a1 in {Zero, StrictlyNegative, StrictlyPositive} {
      DivideMonotoneLeftExact(a1, a2, b);
    } else if a1 in {LessThanOrEqualToZero, NonZero, GreaterThanOrEqualToZero} {
      DivideMonotoneLeftSigned(a1, a2, b);
    }
  }

  lemma DivideMonotoneRight(a: Fact, b1: Fact, b2: Fact)
    requires Leq(b1, b2)
    ensures Leq(ArithmeticTransfer(DIVIDE, a, b1), ArithmeticTransfer(DIVIDE, a, b2))
  {
  }

  lemma {:induction false} DivideMonotone(a1: Fact, a2: Fact, b1: Fact, b2: Fact)
    requires Leq(a1, a2) && Leq(b1, b2)
    ensures Leq(ArithmeticTransfer(DIVIDE, a1, b1), ArithmeticTransfer(DIVIDE, a2, b2))
  {
    DivideMonotoneLeft(a1, a2, b1);
    DivideMonotoneRight(a2, b1, b2);
    LeqIsPartialOrder(ArithmeticTransfer(DIVIDE, a1, b1), ArithmeticTransfer(DIVIDE, a2, b1), ArithmeticTransfer(DIVIDE, a2, b2));
  }


  lemma ModMonotoneLeftExact(a1: Fact, a2: Fact, b: Fact)
    requires a1 in {Zero, StrictlyNegative, StrictlyPositive} && Leq(a1, a2)
    ensures Leq(ArithmeticTransfer(MOD, a1, b), ArithmeticTransfer(MOD, a2, b))
  {
  }

  lemma ModMonotoneLeftSigned(a1: Fact, a2: Fact, b: Fact)
    requires a1 in {LessThanOrEqualToZero, NonZero, GreaterThanOrEqualToZero} && Leq(a1, a2)
    ensures Leq(ArithmeticTransfer(MOD, a1, b), ArithmeticTransfer(MOD, a2, b))
  {
  }

  lemma {:induction false} ModMonotoneLeft(a1: Fact, a2: Fact, b: Fact)
    requires Leq(a1, a2)
    ensures Leq(ArithmeticTransfer(MOD, a1, b), ArithmeticTransfer(MOD, a2, b))
  {
    if a1 in {Zero, StrictlyNegative, StrictlyPositive} {
      ModMonotoneLeftExact(a1, a2, b);
    } else if a1 in {LessThanOrEqualToZero, NonZero, GreaterThanOrEqualToZero} {
      ModMonotoneLeftSigned(a1, a2, b);
    }
  }

  lemma ModMonotoneRight(a: Fact, b1: Fact, b2: Fact)
    requires Leq(b1, b2)
    ensures Leq(ArithmeticTransfer(MOD, a, b1), ArithmeticTransfer(MOD, a, b2))
  {
  }

  lemma {:induction false} ModMonotone(a1: Fact, a2: Fact, b1: Fact, b2: Fact)
    requires Leq(a1, a2) && Leq(b1, b2)
    ensures Leq(ArithmeticTransfer(MOD, a1, b1), ArithmeticTransfer(MOD, a2, b2))
  {
    ModMonotoneLeft(a1, a2, b1);
    ModMonotoneRight(a2, b1, b2);
    LeqIsPartialOrder(ArithmeticTransfer(MOD, a1, b1), ArithmeticTransfer(MOD, a2, b1), ArithmeticTransfer(MOD, a2, b2));
  }

  /**
    The arithmetic transfer is monotone in both operands: knowing more about
    the operands never makes the result less precise.
  */
  lemma {:induction false} ArithmeticMonotone(op: BinaryOperator, a1: Fact, a2: Fact, b1: Fact, b2: Fact)
    requires Leq(a1, a2) && Leq(b1, b2)
    ensures Leq(ArithmeticTransfer(op, a1, b1), ArithmeticTransfer(op, a2, b2))
  {
    match op
    case PLUS => PlusMonotone(a1, a2, b1, b2);
    case MINUS => MinusMonotone(a1, a2, b1, b2);
    case TIMES => TimesMonotone(a1, a2, b1, b2);
    case DIVIDE => DivideMonotone(a1, a2, b1, b2);
    case MOD => ModMonotone(a1, a2, b1, b2);
  }

  /** MINUS is PLUS applied to the sign-flipped right operand. */
  lemma MinusIsPlusOfFlipped(a: Fact, b: Fact)
    ensures ArithmeticTransfer(MINUS, a, b) == ArithmeticTransfer(PLUS, a, FlipAnnotationSign(b))
  {
  }

  /**
    The remainder's fact follows the dividend: a non-positive dividend and a
    divisor known to be non-zero give LessThanOrEqualToZero, never
    GreaterThanOrEqualToZero.
  */
  lemma ModFollowsDividend(a: Fact, b: Fact)
    requires a in {StrictlyNegative, LessThanOrEqualToZero}
    requires b in {StrictlyNegative, StrictlyPositive, NonZero}
    ensures ArithmeticTransfer(MOD, a, b) == LessThanOrEqualToZero
    ensures ArithmeticTransfer(MOD, FlipAnnotationSign(a), b) == GreaterThanOrEqualToZero
  {
  }

  // ========================================================================
  // The multiplication table as written

  /**
    The source's multiplication array claims a non-zero or positive product
    where a factor may be zero: 0 (described by >=0 and by <=0) times 1
    (described by !=0 and +) is 0.
  */
  lemma MultiplicationAsWrittenUnsound()
    ensures Gamma(GreaterThanOrEqualToZero, Int(0)) && Gamma(LessThanOrEqualToZero, Int(0))
    ensures Gamma(NonZero, Int(1)) && Gamma(StrictlyPositive, Int(1))
    ensures Evaluate(TIMES, Int(0), Int(1)) == Int(0)
    ensures MatchTable(MultiplicationTableAsWritten, GreaterThanOrEqualToZero, NonZero) == NonZero
    ensures MatchTable(MultiplicationTableAsWritten, NonZero, GreaterThanOrEqualToZero) == NonZero
    ensures MatchTable(MultiplicationTableAsWritten, LessThanOrEqualToZero, NonZero) == NonZero
    ensures MatchTable(MultiplicationTableAsWritten, NonZero, LessThanOrEqualToZero) == NonZero
    ensures MatchTable(MultiplicationTableAsWritten, GreaterThanOrEqualToZero, StrictlyPositive) == StrictlyPositive
    ensures !Gamma(NonZero, Int(0)) && !Gamma(StrictlyPositive, Int(0))
  {
  }

  /**
    The source's array is not monotone either: Zero is below >=0 and + is
    below !=0, yet the cell (Zero, +) gives Zero and the cell (>=0, !=0) gives
    NonZero, which is not above Zero. The corrected table is monotone
    (TimesMonotone).
  */
  lemma MultiplicationAsWrittenNotMonotone()
    ensures Leq(Zero, GreaterThanOrEqualToZero) && Leq(StrictlyPositive, NonZero)
    ensures MatchTable(MultiplicationTableAsWritten, Zero, StrictlyPositive) == Zero
    ensures MatchTable(MultiplicationTableAsWritten, GreaterThanOrEqualToZero, NonZero) == NonZero
    ensures !Leq(Zero, NonZero)
  {
  }

  /** The corrected table differs from the source's array in exactly those five cells. */
  lemma MultiplicationCorrection(a: Fact, b: Fact)
    requires a != Bot && b != Bot
    ensures MatchTable(MultiplicationTable, a, b) != MatchTable(MultiplicationTableAsWritten, a, b) <==>
      (a, b) in {(GreaterThanOrEqualToZero, NonZero), (NonZero, GreaterThanOrEqualToZero),
                 (LessThanOrEqualToZero, NonZero), (NonZero, LessThanOrEqualToZero),
                 (GreaterThanOrEqualToZero, StrictlyPositive)}
  {
    match a
    case LessThanOrEqualToZero =>
    case NonZero =>
    case GreaterThanOrEqualToZero =>
    case _ =>
  }
}

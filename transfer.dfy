/**
  The transfer functions of the divide-by-zero checker: the refinement of a
  comparison's left operand when the comparison is known to be true, the
  arithmetic transfer of the five binary operators, and the fixed 9x9 tables
  both are read from.
*/
module DivByZeroTransfer {
  import opened Lattice
  import opened Semantics

  /** The comparison operators whose outcome refines the operands' facts. */
  datatype Comparison = EQ | NE | LT | LE | GT | GE

  /** The arithmetic operators with a transfer table. */
  datatype BinaryOperator = PLUS | MINUS | TIMES | DIVIDE | MOD

  /** What `x op y` means on defined integers. */
  predicate Holds(op: Comparison, x: int, y: int) {
    match op
    case EQ => x == y
    case NE => x != y
    case LT => x < y
    case LE => x <= y
    case GT => x > y
    case GE => x >= y
  }

  /**
    What `x op y` evaluates to: an undefined operand, or a zero divisor of
    / or %, gives an undefined value; integers are unbounded.
  */
  function Evaluate(op: BinaryOperator, x: Value, y: Value): Value {
    if x.Undefined? || y.Undefined? then Undefined
    else
      match op
      case PLUS => Int(x.n + y.n)
      case MINUS => Int(x.n - y.n)
      case TIMES => Int(x.n * y.n)
      case DIVIDE => if y.n == 0 then Undefined else Int(JavaDiv(x.n, y.n))
      case MOD => if y.n == 0 then Undefined else Int(JavaRem(x.n, y.n))
  }

  /** The operator that states the same thing with the operands exchanged. */
  function Flip(op: Comparison): (r: Comparison)
    ensures forall x, y :: Holds(op, x, y) <==> Holds(r, y, x)
  {
    match op
    case EQ => EQ
    case NE => NE
    case LT => GT
    case LE => GE
    case GT => LT
    case GE => LE
  }

  /** The operator that holds exactly when `op` does not. */
  function Negate(op: Comparison): (r: Comparison)
    ensures forall x, y :: Holds(op, x, y) <==> !Holds(r, x, y)
  {
    match op
    case EQ => NE
    case NE => EQ
    case LT => GE
    case LE => GT
    case GT => LE
    case GE => LT
  }

  /** Both combinators are involutions and they commute. */
  lemma FlipNegateLaws(op: Comparison)
    ensures Flip(Flip(op)) == op && Negate(Negate(op)) == op
    ensures Flip(Negate(op)) == Negate(Flip(op))
    ensures Flip(op) == op <==> op in {EQ, NE}
  {
  }

  // ========================================================================
  // Table indexing

  /** The row and column order shared by every table. */
  const CanonicalOrder: seq<Fact> :=
    [Zero, StrictlyNegative, StrictlyPositive, LessThanOrEqualToZero, NonZero,
     GreaterThanOrEqualToZero, AllZ, UndefinedValue, Top]

  /** The row or column of a fact; -1 for Bot, which no table has. */
  function TableIndex(f: Fact): (i: int)
    ensures -1 <= i < |CanonicalOrder|
    ensures i == -1 <==> f == Bot
    ensures i >= 0 ==> CanonicalOrder[i] == f
  {
    match f
    case Bot => -1
    case Zero => 0
    case StrictlyNegative => 1
    case StrictlyPositive => 2
    case LessThanOrEqualToZero => 3
    case NonZero => 4
    case GreaterThanOrEqualToZero => 5
    case AllZ => 6
    case UndefinedValue => 7
    case Top => 8
  }

  /** A 9x9 table indexed by CanonicalOrder. */
  predicate IsGrid(table: seq<seq<Fact>>) {
    |table| == 9 && forall i :: 0 <= i < 9 ==> |table[i]| == 9
  }

  /** The cell whose row is headed by lhs and whose column is headed by rhs. */
  function MatchTable(table: seq<seq<Fact>>, lhs: Fact, rhs: Fact): (r: Fact)
    requires IsGrid(table)
    requires lhs != Bot && rhs != Bot
    ensures forall i, j :: 0 <= i < 9 && 0 <= j < 9 && CanonicalOrder[i] == lhs && CanonicalOrder[j] == rhs ==> r == table[i][j]
  {
    table[TableIndex(lhs)][TableIndex(rhs)]
  }

  // ========================================================================
  // Comparison refinement

  /** Refinement of the left operand of a true `lhs != rhs` (rows: lhs, columns: rhs). */
  const NeTable: seq<seq<Fact>> := [
    /*   0 */ [Bot, Zero, Zero, Zero, Zero, Zero, Zero, Zero, Zero],
    /*   - */ [StrictlyNegative, StrictlyNegative, StrictlyNegative, StrictlyNegative, StrictlyNegative, StrictlyNegative, StrictlyNegative, StrictlyNegative, StrictlyNegative],
    /*   + */ [StrictlyPositive, StrictlyPositive, StrictlyPositive, StrictlyPositive, StrictlyPositive, StrictlyPositive, StrictlyPositive, StrictlyPositive, StrictlyPositive],
    /* <=0 */ [StrictlyNegative, LessThanOrEqualToZero, LessThanOrEqualToZero, LessThanOrEqualToZero, LessThanOrEqualToZero, LessThanOrEqualToZero, LessThanOrEqualToZero, LessThanOrEqualToZero, LessThanOrEqualToZero],
    /* !=0 */ [NonZero, NonZero, NonZero, NonZero, NonZero, NonZero, NonZero, NonZero, NonZero],
    /* >=0 */ [StrictlyPositive, GreaterThanOrEqualToZero, GreaterThanOrEqualToZero, GreaterThanOrEqualToZero, GreaterThanOrEqualToZero, GreaterThanOrEqualToZero, GreaterThanOrEqualToZero, GreaterThanOrEqualToZero, GreaterThanOrEqualToZero],
    /*   Z */ [NonZero, AllZ, AllZ, AllZ, AllZ, AllZ, AllZ, AllZ, AllZ],
    /*  UD */ [UndefinedValue, UndefinedValue, UndefinedValue, UndefinedValue, UndefinedValue, UndefinedValue, UndefinedValue, UndefinedValue, UndefinedValue],
    /* top */ [NonZero, Top, Top, Top, Top, Top, Top, AllZ, Top]
  ]

  /** Refinement of the left operand of a true `lhs < rhs`. */
  const LtTable: seq<seq<Fact>> := [
    /*   0 */ [Bot, Bot, Zero, Bot, Zero, Zero, Zero, Bot, Zero],
    /*   - */ [StrictlyNegative, StrictlyNegative, StrictlyNegative, StrictlyNegative, StrictlyNegative, StrictlyNegative, StrictlyNegative, Bot, StrictlyNegative],
    /*   + */ [Bot, Bot, StrictlyPositive, Bot, StrictlyPositive, StrictlyPositive, StrictlyPositive, Bot, StrictlyPositive],
    /* <=0 */ [StrictlyNegative, StrictlyNegative, LessThanOrEqualToZero, StrictlyNegative, LessThanOrEqualToZero, LessThanOrEqualToZero, LessThanOrEqualToZero, Bot, LessThanOrEqualToZero],
    /* !=0 */ [StrictlyNegative, StrictlyNegative, NonZero, StrictlyNegative, NonZero, NonZero, NonZero, Bot, NonZero],
    /* >=0 */ [Bot, Bot, GreaterThanOrEqualToZero, Bot, GreaterThanOrEqualToZero, GreaterThanOrEqualToZero, GreaterThanOrEqualToZero, Bot, GreaterThanOrEqualToZero],
    /*   Z */ [StrictlyNegative, StrictlyNegative, AllZ, StrictlyNegative, AllZ, AllZ, AllZ, Bot, AllZ],
    /*  UD */ [UndefinedValue, UndefinedValue, UndefinedValue, UndefinedValue, UndefinedValue, UndefinedValue, UndefinedValue, UndefinedValue, UndefinedValue],
    /* top */ [StrictlyNegative, StrictlyNegative, AllZ, StrictlyNegative, AllZ, AllZ, AllZ, UndefinedValue, AllZ]
  ]

  /** Refinement of the left operand of a true `lhs <= rhs`. */
  const LeTable: seq<seq<Fact>> := [
    /*   0 */ [Zero, Zero, Zero, Zero, Zero, Zero, Zero, Bot, Zero],
    /*   - */ [StrictlyNegative, StrictlyNegative, StrictlyNegative, StrictlyNegative, StrictlyNegative, StrictlyNegative, StrictlyNegative, Bot, StrictlyNegative],
    /*   + */ [Bot, Bot, StrictlyPositive, Bot, StrictlyPositive, StrictlyPositive, StrictlyPositive, Bot, StrictlyPositive],
    /* <=0 */ [LessThanOrEqualToZero, StrictlyNegative, LessThanOrEqualToZero, LessThanOrEqualToZero, LessThanOrEqualToZero, LessThanOrEqualToZero, LessThanOrEqualToZero, Bot, LessThanOrEqualToZero],
    /* !=0 */ [StrictlyNegative, StrictlyNegative, NonZero, StrictlyNegative, NonZero, NonZero, NonZero, Bot, NonZero],
    /* >=0 */ [Zero, Bot, GreaterThanOrEqualToZero, Zero, GreaterThanOrEqualToZero, GreaterThanOrEqualToZero, GreaterThanOrEqualToZero, Bot, GreaterThanOrEqualToZero],
    /*   Z */ [LessThanOrEqualToZero, StrictlyNegative, AllZ, LessThanOrEqualToZero, AllZ, AllZ, AllZ, Bot, AllZ],
    /*  UD */ [UndefinedValue, UndefinedValue, UndefinedValue, UndefinedValue, UndefinedValue, UndefinedValue, UndefinedValue, UndefinedValue, UndefinedValue],
    /* top */ [LessThanOrEqualToZero, StrictlyNegative, AllZ, LessThanOrEqualToZero, AllZ, AllZ, AllZ, UndefinedValue, AllZ]
  ]

  /** Refinement of the left operand of a true `lhs > rhs`. */
  const GtTable: seq<seq<Fact>> := [
    /*   0 */ [Bot, Zero, Bot, Zero, Zero, Bot, Zero, Bot, Zero],
    /*   - */ [Bot, StrictlyNegative, Bot, StrictlyNegative, StrictlyNegative, Bot, StrictlyNegative, Bot, StrictlyNegative],
    /*   + */ [StrictlyPositive, StrictlyPositive, StrictlyPositive, StrictlyPositive, StrictlyPositive, StrictlyPositive, StrictlyPositive, Bot, StrictlyPositive],
    /* <=0 */ [Bot, LessThanOrEqualToZero, Bot, LessThanOrEqualToZero, LessThanOrEqualToZero, Bot, LessThanOrEqualToZero, Bot, LessThanOrEqualToZero],
    /* !=0 */ [StrictlyPositive, NonZero, StrictlyPositive, NonZero, NonZero, StrictlyPositive, NonZero, Bot, NonZero],
    /* >=0 */ [StrictlyPositive, GreaterThanOrEqualToZero, StrictlyPositive, GreaterThanOrEqualToZero, GreaterThanOrEqualToZero, StrictlyPositive, GreaterThanOrEqualToZero, Bot, GreaterThanOrEqualToZero],
    /*   Z */ [StrictlyPositive, AllZ, StrictlyPositive, AllZ, AllZ, StrictlyPositive, AllZ, Bot, AllZ],
    /*  UD */ [UndefinedValue, UndefinedValue, UndefinedValue, UndefinedValue, UndefinedValue, UndefinedValue, UndefinedValue, UndefinedValue, UndefinedValue],
    /* top */ [StrictlyPositive, AllZ, StrictlyPositive, AllZ, AllZ, StrictlyPositive, AllZ, UndefinedValue, AllZ]
  ]

  /** Refinement of the left operand of a true `lhs >= rhs`. */
  const GeTable: seq<seq<Fact>> := [
    /*   0 */ [Zero, Zero, Bot, Zero, Zero, Zero, Zero, Bot, Zero],
    /*   - */ [Bot, StrictlyNegative, Bot, StrictlyNegative, StrictlyNegative, Bot, StrictlyNegative, Bot, StrictlyNegative],
    /*   + */ [StrictlyPositive, StrictlyPositive, StrictlyPositive, StrictlyPositive, StrictlyPositive, StrictlyPositive, StrictlyPositive, Bot, StrictlyPositive],
    /* <=0 */ [Zero, LessThanOrEqualToZero, Bot, LessThanOrEqualToZero, LessThanOrEqualToZero, Zero, LessThanOrEqualToZero, Bot, LessThanOrEqualToZero],
    /* !=0 */ [StrictlyPositive, NonZero, StrictlyPositive, NonZero, NonZero, StrictlyPositive, NonZero, Bot, NonZero],
    /* >=0 */ [GreaterThanOrEqualToZero, GreaterThanOrEqualToZero, StrictlyPositive, GreaterThanOrEqualToZero, GreaterThanOrEqualToZero, GreaterThanOrEqualToZero, GreaterThanOrEqualToZero, Bot, GreaterThanOrEqualToZero],
    /*   Z */ [GreaterThanOrEqualToZero, AllZ, StrictlyPositive, AllZ, AllZ, GreaterThanOrEqualToZero, AllZ, Bot, AllZ],
    /*  UD */ [UndefinedValue, UndefinedValue, UndefinedValue, UndefinedValue, UndefinedValue, UndefinedValue, UndefinedValue, UndefinedValue, UndefinedValue],
    /* top */ [GreaterThanOrEqualToZero, AllZ, StrictlyPositive, AllZ, AllZ, GreaterThanOrEqualToZero, AllZ, UndefinedValue, AllZ]
  ]

  /** Every cell of a refinement table is at or below the fact heading its row. */
  lemma {:induction false} NeTableNarrows(lhs: Fact, rhs: Fact)
    requires lhs != Bot && rhs != Bot
    ensures Leq(MatchTable(NeTable, lhs, rhs), lhs)
  {
  }

  lemma {:induction false} LtTableNarrows(lhs: Fact, rhs: Fact)
    requires lhs != Bot && rhs != Bot
    ensures Leq(MatchTable(LtTable, lhs, rhs), lhs)
  {
  }

  lemma {:induction false} LeTableNarrows(lhs: Fact, rhs: Fact)
    requires lhs != Bot && rhs != Bot
    ensures Leq(MatchTable(LeTable, lhs, rhs), lhs)
  {
  }

  lemma {:induction false} GtTableNarrows(lhs: Fact, rhs: Fact)
    requires lhs != Bot && rhs != Bot
    ensures Leq(MatchTable(GtTable, lhs, rhs), lhs)
  {
  }

  lemma {:induction false} GeTableNarrows(lhs: Fact, rhs: Fact)
    requires lhs != Bot && rhs != Bot
    ensures Leq(MatchTable(GeTable, lhs, rhs), lhs)
  {
  }

  /**
    Assuming `lhs op rhs` is true, a fact for the left operand. The result is
    never above lhs; Bot on the left stays Bot and Bot on the right teaches
    nothing. EQ is the meet; the other operators read their table.
  */
  function RefineLhsOfComparison(op: Comparison, lhs: Fact, rhs: Fact): (r: Fact)
    ensures Leq(r, lhs)
    ensures lhs == Bot ==> r == Bot
    ensures rhs == Bot ==> r == lhs
  {
    if lhs == Bot then Bot
    else if rhs == Bot then lhs
    else
      match op
      case EQ => Glb(lhs, rhs)
      case NE => NeTableNarrows(lhs, rhs); MatchTable(NeTable, lhs, rhs)
      case LT => LtTableNarrows(lhs, rhs); MatchTable(LtTable, lhs, rhs)
      case LE => LeTableNarrows(lhs, rhs); MatchTable(LeTable, lhs, rhs)
      case GT => GtTableNarrows(lhs, rhs); MatchTable(GtTable, lhs, rhs)
      case GE => GeTableNarrows(lhs, rhs); MatchTable(GeTable, lhs, rhs)
  }

  // ========================================================================
  // Arithmetic transfer

  /** Fact of `lhs + rhs` (rows: lhs, columns: rhs). */
  const AdditionTable: seq<seq<Fact>> := [
    /*   0 */ [Zero, StrictlyNegative, StrictlyPositive, LessThanOrEqualToZero, NonZero, GreaterThanOrEqualToZero, AllZ, UndefinedValue, Top],
    /*   - */ [StrictlyNegative, StrictlyNegative, AllZ, StrictlyNegative, AllZ, AllZ, AllZ, UndefinedValue, Top],
    /*   + */ [StrictlyPositive, AllZ, StrictlyPositive, AllZ, AllZ, StrictlyPositive, AllZ, UndefinedValue, Top],
    /* <=0 */ [LessThanOrEqualToZero, StrictlyNegative, AllZ, LessThanOrEqualToZero, AllZ, AllZ, AllZ, UndefinedValue, Top],
    /* !=0 */ [NonZero, AllZ, AllZ, AllZ, AllZ, AllZ, AllZ, UndefinedValue, Top],
    /* >=0 */ [GreaterThanOrEqualToZero, AllZ, StrictlyPositive, AllZ, AllZ, GreaterThanOrEqualToZero, AllZ, UndefinedValue, Top],
    /*   Z */ [AllZ, AllZ, AllZ, AllZ, AllZ, AllZ, AllZ, UndefinedValue, Top],
    /*  UD */ [UndefinedValue, UndefinedValue, UndefinedValue, UndefinedValue, UndefinedValue, UndefinedValue, UndefinedValue, UndefinedValue, UndefinedValue],
    /* top */ [Top, Top, Top, Top, Top, Top, Top, UndefinedValue, Top]
  ]

  /**
    Fact of `lhs * rhs` exactly as the source's array has it. Five cells are
    unsound for a factor that may be zero: (<=0, !=0), (!=0, <=0), (!=0, >=0)
    and (>=0, !=0) give NonZero, and (>=0, +) gives StrictlyPositive, although
    0 * 1 == 0. The transfer function uses MultiplicationTable instead.
  */
  const MultiplicationTableAsWritten: seq<seq<Fact>> := [
    /*   0 */ [Zero, Zero, Zero, Zero, Zero, Zero, Zero, UndefinedValue, Top],
    /*   - */ [Zero, StrictlyPositive, StrictlyNegative, GreaterThanOrEqualToZero, NonZero, LessThanOrEqualToZero, AllZ, UndefinedValue, Top],
    /*   + */ [Zero, StrictlyNegative, StrictlyPositive, LessThanOrEqualToZero, NonZero, GreaterThanOrEqualToZero, AllZ, UndefinedValue, Top],
    /* <=0 */ [Zero, GreaterThanOrEqualToZero, LessThanOrEqualToZero, GreaterThanOrEqualToZero, NonZero, LessThanOrEqualToZero, AllZ, UndefinedValue, Top],
    /* !=0 */ [Zero, NonZero, NonZero, NonZero, NonZero, NonZero, AllZ, UndefinedValue, Top],
    /* >=0 */ [Zero, AllZ, StrictlyPositive, AllZ, NonZero, GreaterThanOrEqualToZero, AllZ, UndefinedValue, Top],
    /*   Z */ [Zero, AllZ, AllZ, AllZ, AllZ, AllZ, AllZ, UndefinedValue, Top],
    /*  UD */ [UndefinedValue, UndefinedValue, UndefinedValue, UndefinedValue, UndefinedValue, UndefinedValue, UndefinedValue, UndefinedValue, UndefinedValue],
    /* top */ [Top, Top, Top, Top, Top, Top, Top, UndefinedValue, Top]
  ]

  /**
    Fact of `lhs * rhs`: the source's array with its five unsound cells
    corrected to the sound answer (AllZ for a possibly-zero factor times a
    non-zero one, GreaterThanOrEqualToZero for >=0 times +).
  */
  const MultiplicationTable: seq<seq<Fact>> := [
    /*   0 */ [Zero, Zero, Zero, Zero, Zero, Zero, Zero, UndefinedValue, Top],
    /*   - */ [Zero, StrictlyPositive, StrictlyNegative, GreaterThanOrEqualToZero, NonZero, LessThanOrEqualToZero, AllZ, UndefinedValue, Top],
    /*   + */ [Zero, StrictlyNegative, StrictlyPositive, LessThanOrEqualToZero, NonZero, GreaterThanOrEqualToZero, AllZ, UndefinedValue, Top],
    /* <=0 */ [Zero, GreaterThanOrEqualToZero, LessThanOrEqualToZero, GreaterThanOrEqualToZero, AllZ, LessThanOrEqualToZero, AllZ, UndefinedValue, Top],
    /* !=0 */ [Zero, NonZero, NonZero, AllZ, NonZero, AllZ, AllZ, UndefinedValue, Top],
    /* >=0 */ [Zero, AllZ, GreaterThanOrEqualToZero, AllZ, AllZ, GreaterThanOrEqualToZero, AllZ, UndefinedValue, Top],
    /*   Z */ [Zero, AllZ, AllZ, AllZ, AllZ, AllZ, AllZ, UndefinedValue, Top],
    /*  UD */ [UndefinedValue, UndefinedValue, UndefinedValue, UndefinedValue, UndefinedValue, UndefinedValue, UndefinedValue, UndefinedValue, UndefinedValue],
    /* top */ [Top, Top, Top, Top, Top, Top, Top, UndefinedValue, Top]
  ]

  /** Fact of `lhs / rhs`; a zero divisor gives UndefinedValue. */
  const DivisionTable: seq<seq<Fact>> := [
    /*   0 */ [UndefinedValue, Zero, Zero, Top, Zero, Top, Top, UndefinedValue, Top],
    /*   - */ [UndefinedValue, GreaterThanOrEqualToZero, LessThanOrEqualToZero, Top, AllZ, Top, Top, UndefinedValue, Top],
    /*   + */ [UndefinedValue, LessThanOrEqualToZero, GreaterThanOrEqualToZero, Top, AllZ, Top, Top, UndefinedValue, Top],
    /* <=0 */ [UndefinedValue, GreaterThanOrEqualToZero, LessThanOrEqualToZero, Top, AllZ, Top, Top, UndefinedValue, Top],
    /* !=0 */ [UndefinedValue, AllZ, AllZ, Top, AllZ, Top, Top, UndefinedValue, Top],
    /* >=0 */ [UndefinedValue, LessThanOrEqualToZero, GreaterThanOrEqualToZero, Top, AllZ, Top, Top, UndefinedValue, Top],
    /*   Z */ [UndefinedValue, AllZ, AllZ, Top, AllZ, Top, Top, UndefinedValue, Top],
    /*  UD */ [UndefinedValue, UndefinedValue, UndefinedValue, UndefinedValue, UndefinedValue, UndefinedValue, UndefinedValue, UndefinedValue, UndefinedValue],
    /* top */ [UndefinedValue, Top, Top, Top, Top, Top, Top, UndefinedValue, Top]
  ]

  /** Fact of `lhs % rhs`; the sign follows the dividend, as in Java. */
  const ModTable: seq<seq<Fact>> := [
    /*   0 */ [UndefinedValue, Zero, Zero, Top, Zero, Top, Top, UndefinedValue, Top],
    /*   - */ [UndefinedValue, LessThanOrEqualToZero, LessThanOrEqualToZero, Top, LessThanOrEqualToZero, Top, Top, UndefinedValue, Top],
    /*   + */ [UndefinedValue, GreaterThanOrEqualToZero, GreaterThanOrEqualToZero, Top, GreaterThanOrEqualToZero, Top, Top, UndefinedValue, Top],
    /* <=0 */ [UndefinedValue, LessThanOrEqualToZero, LessThanOrEqualToZero, Top, LessThanOrEqualToZero, Top, Top, UndefinedValue, Top],
    /* !=0 */ [UndefinedValue, AllZ, AllZ, Top, AllZ, Top, Top, UndefinedValue, Top],
    /* >=0 */ [UndefinedValue, GreaterThanOrEqualToZero, GreaterThanOrEqualToZero, Top, GreaterThanOrEqualToZero, Top, Top, UndefinedValue, Top],
    /*   Z */ [UndefinedValue, AllZ, AllZ, Top, AllZ, Top, Top, UndefinedValue, Top],
    /*  UD */ [UndefinedValue, UndefinedValue, UndefinedValue, UndefinedValue, UndefinedValue, UndefinedValue, UndefinedValue, UndefinedValue, UndefinedValue],
    /* top */ [UndefinedValue, Top, Top, Top, Top, Top, Top, UndefinedValue, Top]
  ]

  /**
    The fact of `lhs op rhs`. Bot on either side gives Bot; otherwise an
    UndefinedValue operand gives UndefinedValue, a Top operand of +, - or *
    gives Top, and a Zero divisor of / or % gives UndefinedValue. MINUS is
    PLUS with the sign of the right operand flipped.
  */
  function ArithmeticTransfer(op: BinaryOperator, lhs: Fact, rhs: Fact): (r: Fact)
    ensures lhs == Bot || rhs == Bot ==> r == Bot
    ensures lhs != Bot && rhs != Bot && UndefinedValue in {lhs, rhs} ==> r == UndefinedValue
    ensures op in {PLUS, MINUS, TIMES} && Top in {lhs, rhs} && Bot !in {lhs, rhs} && UndefinedValue !in {lhs, rhs} ==> r == Top
    ensures op in {DIVIDE, MOD} && rhs == Zero && lhs != Bot ==> r == UndefinedValue
  {
    if lhs == Bot || rhs == Bot then Bot
    else
      match op
      case PLUS => MatchTable(AdditionTable, lhs, rhs)
      case MINUS => MatchTable(AdditionTable, lhs, FlipAnnotationSign(rhs))
      case TIMES => MatchTable(MultiplicationTable, lhs, rhs)
      case DIVIDE => MatchTable(DivisionTable, lhs, rhs)
      case MOD => MatchTable(ModTable, lhs, rhs)
  }
}

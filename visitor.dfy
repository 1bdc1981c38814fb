/**
  The divide-by-zero oracle: which division and remainder sites the checker
  reports, given each operand's Java type and the divisor's fact.
*/
module DivByZeroVisitor {
  import opened Lattice
  import opened Semantics

  /** The operator of a binary or compound-assignment tree. */
  datatype TreeKind =
    | PLUS | MINUS | MULTIPLY | DIVIDE | REMAINDER
    | PLUS_ASSIGNMENT | MINUS_ASSIGNMENT | MULTIPLY_ASSIGNMENT | DIVIDE_ASSIGNMENT | REMAINDER_ASSIGNMENT
    | OTHER_OPERATOR  // comparisons, shifts, bitwise and logical operators

  /** The operators whose right-hand side is a divisor. */
  const DivisionOperators: set<TreeKind> := {DIVIDE, DIVIDE_ASSIGNMENT, REMAINDER, REMAINDER_ASSIGNMENT}

  /** The Java type of an expression. */
  datatype TypeKind = BOOLEAN | BYTE | SHORT | INT | LONG | CHAR | FLOAT | DOUBLE | DECLARED

  /** The types the check considers. */
  const IntTypes: set<TypeKind> := {INT, LONG}

  /** An operand as the type factory sees it: its type and the fact annotating it. */
  datatype Expression = Expression(typeKind: TypeKind, fact: Fact)

  /** `leftOperand op rightOperand`, of type typeKind. */
  datatype BinaryTree = BinaryTree(kind: TreeKind, leftOperand: Expression, rightOperand: Expression, typeKind: TypeKind)

  /** `variable op= expression`. */
  datatype CompoundAssignmentTree = CompoundAssignmentTree(kind: TreeKind, variable: Expression, expression: Expression)

  /** Whether an expression of type t is considered: int and long only, not the narrower or floating types. */
  predicate IsInt(t: TypeKind): (b: bool)
    ensures b <==> t == INT || t == LONG
    ensures t in {BYTE, SHORT, CHAR, FLOAT, DOUBLE} ==> !b
  {
    t in IntTypes
  }

  /**
    Whether e carries exactly the annotation f: the same fact, not merely a
    subtype or supertype of it, so both describe the same values.
  */
  predicate HasAnnotation(e: Expression, f: Fact): (b: bool)
    ensures b <==> Leq(e.fact, f) && Leq(f, e.fact)
    ensures b ==> forall v :: Gamma(e.fact, v) <==> Gamma(f, v)
  {
    e.fact == f
  }

  /**
    A divisor is reported when its fact is one of the five that admit zero.
    UndefinedValue (a different error), Bot (unreachable code) and the three
    facts that exclude zero are not.
  */
  predicate PossiblyZero(divisor: Expression) {
    || HasAnnotation(divisor, Top)
    || HasAnnotation(divisor, AllZ)
    || HasAnnotation(divisor, GreaterThanOrEqualToZero)
    || HasAnnotation(divisor, LessThanOrEqualToZero)
    || HasAnnotation(divisor, Zero)
  }

  /** The five facts are exactly those above Zero, and exactly those that describe the value 0. */
  lemma PossiblyZeroMeansZeroBelow(divisor: Expression)
    ensures PossiblyZero(divisor) <==> Leq(Zero, divisor.fact)
    ensures PossiblyZero(divisor) <==> Gamma(divisor.fact, Int(0))
  {
  }

  /**
    Whether to report `x / y`, `x % y` (or their assignment forms): only a
    division operator with int or long operands on both sides, and only when
    the divisor's fact admits the value zero.
  */
  function ErrorAtBinary(node: BinaryTree): (error: bool)
    ensures error <==>
      && node.kind in DivisionOperators
      && node.leftOperand.typeKind in {INT, LONG} && node.rightOperand.typeKind in {INT, LONG}
      && Gamma(node.rightOperand.fact, Int(0))
  {
    if node.kind !in DivisionOperators then false
    else
      var divisor := node.rightOperand;
      if !IsInt(node.leftOperand.typeKind) || !IsInt(divisor.typeKind) then false
      else PossiblyZero(divisor)
  }

  /** The same decision for `variable op= expression`, where the divisor is the assigned expression. */
  function ErrorAtCompoundAssignment(node: CompoundAssignmentTree): (error: bool)
    ensures error <==>
      && node.kind in DivisionOperators
      && node.variable.typeKind in {INT, LONG} && node.expression.typeKind in {INT, LONG}
      && Leq(Zero, node.expression.fact)
  {
    if node.kind !in DivisionOperators then false
    else
      var divisor := node.expression;
      if !IsInt(node.variable.typeKind) || !IsInt(divisor.typeKind) then false
      else PossiblyZero(divisor)
  }

  /** Both forms apply one rule, to the right operand and to the assigned expression respectively. */
  lemma {:induction false} BothFormsAgree(kind: TreeKind, variable: Expression, expression: Expression, t: TypeKind)
    ensures ErrorAtCompoundAssignment(CompoundAssignmentTree(kind, variable, expression))
         == ErrorAtBinary(BinaryTree(kind, variable, expression, t))
  {
    PossiblyZeroMeansZeroBelow(expression);
  }

  /**
    A binary tree is reported when the tree itself is int or long and
    ErrorAtBinary holds: a division operator on int or long operands whose
    divisor's fact admits zero.
  */
  function VisitBinary(node: BinaryTree): (report: bool)
    ensures report <==>
      && node.typeKind in IntTypes
      && node.kind in DivisionOperators
      && node.leftOperand.typeKind in IntTypes && node.rightOperand.typeKind in IntTypes
      && Gamma(node.rightOperand.fact, Int(0))
  {
    IsInt(node.typeKind) && ErrorAtBinary(node)
  }

  /**
    A compound assignment is reported when its expression is int or long and
    ErrorAtCompoundAssignment holds: a division operator on an int or long
    variable whose assigned expression's fact admits zero.
  */
  function VisitCompoundAssignment(node: CompoundAssignmentTree): (report: bool)
    ensures report <==>
      && node.kind in DivisionOperators
      && node.variable.typeKind in IntTypes && node.expression.typeKind in IntTypes
      && Gamma(node.expression.fact, Int(0))
  {
    IsInt(node.expression.typeKind) && ErrorAtCompoundAssignment(node)
  }

  /**
    What the oracle guarantees: at an integer division site that is not
    reported, no value the divisor's fact describes is zero.
  */
  lemma UnreportedDivisionIsSafe(node: BinaryTree, divisor: Value)
    requires node.kind in DivisionOperators
    requires node.typeKind in IntTypes && node.leftOperand.typeKind in IntTypes && node.rightOperand.typeKind in IntTypes
    requires !VisitBinary(node)
    requires Gamma(node.rightOperand.fact, divisor)
    ensures divisor != Int(0)
  {
  }

  /** The same guarantee for `variable /= expression` and `variable %= expression`. */
  lemma UnreportedDivisionAssignmentIsSafe(node: CompoundAssignmentTree, divisor: Value)
    requires node.kind in DivisionOperators
    requires node.variable.typeKind in IntTypes && node.expression.typeKind in IntTypes
    requires !VisitCompoundAssignment(node)
    requires Gamma(node.expression.fact, divisor)
    ensures divisor != Int(0)
  {
  }
}

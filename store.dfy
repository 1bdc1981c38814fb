/**
  The store-level side of the transfer functions: a comparison node splits
  the incoming stores into a then-store and an else-store refined for both
  operands, and an arithmetic node replaces the node's result value by the
  transferred fact.
*/
module TransferResults {
  import opened Lattice
  import opened Semantics
  import opened DivByZeroTransfer
  import opened TransferSoundness

  datatype Option<T> = None | Some(value: T)

  /** A tracked expression, identified by its internal representation. */
  type Receiver = string

  /** A dataflow store: the fact known for each tracked expression at one program point. */
  class Store {
    var facts: map<Receiver, Fact>

    constructor (facts: map<Receiver, Fact>)
      ensures this.facts == facts
    {
      this.facts := facts;
    }

    /** A new store holding the same facts. */
    method Copy() returns (s: Store)
      ensures fresh(s) && s.facts == facts
    {
      s := new Store(facts);
    }

    /** Record fact f for expression e, replacing what was known about e. */
    method InsertValue(e: Receiver, f: Fact)
      modifies this
      ensures facts == old(facts)[e := f]
    {
      facts := facts[e := f];
    }
  }

  /** The stores a node's transfer produces: one, or a then/else pair after a comparison. */
  datatype TransferResult =
    | Regular(resultValue: Option<Fact>, regularStore: Store)
    | Conditional(resultValue: Option<Fact>, thenStore: Store, elseStore: Store)
  {
    function GetThenStore(): Store {
      if Regular? then regularStore else thenStore
    }

    function GetElseStore(): Store {
      if Regular? then regularStore else elseStore
    }
  }

  // ========================================================================
  // Comparison

  /**
    The facts of a branch where `left op right` is true: the left operand
    refined against the right, then the right operand refined against the
    left with the operands exchanged. With Negate(op) it gives the facts of
    the branch where the comparison is false.
  */
  function BranchFacts(op: Comparison, left: Receiver, right: Receiver, l: Fact, r: Fact, m: map<Receiver, Fact>): map<Receiver, Fact> {
    m[left := RefineLhsOfComparison(op, l, r)][right := RefineLhsOfComparison(Flip(op), r, l)]
  }

  /** Only the two operands change, and each only narrows from the fact it was compared with. */
  lemma BranchFactsFrame(op: Comparison, left: Receiver, right: Receiver, l: Fact, r: Fact, m: map<Receiver, Fact>)
    ensures BranchFacts(op, left, right, l, r, m).Keys == m.Keys + {left, right}
    ensures forall k :: k in m && k != left && k != right ==> BranchFacts(op, left, right, l, r, m)[k] == m[k]
    ensures Leq(BranchFacts(op, left, right, l, r, m)[right], r)
    ensures left != right ==> Leq(BranchFacts(op, left, right, l, r, m)[left], l)
    ensures left != right ==> BranchFacts(op, left, right, l, r, m)[left] == RefineLhsOfComparison(op, l, r)
    ensures BranchFacts(op, left, right, l, r, m)[right] == RefineLhsOfComparison(Flip(op), r, l)
  {
  }

  /** Every value of env is described by the store's fact for it. */
  ghost predicate Satisfies(env: map<Receiver, Value>, m: map<Receiver, Fact>) {
    forall k :: k in m ==> k in env && Gamma(m[k], env[k])
  }

  /**
    Soundness of the split: if the current values satisfy the store and the
    operands' values are described by l and r, then the then-facts hold when
    the comparison is true and the else-facts hold when it is false.
  */
  lemma {:induction false} BranchFactsSound(op: Comparison, left: Receiver, right: Receiver, l: Fact, r: Fact,
                                            m: map<Receiver, Fact>, env: map<Receiver, Value>, x: int, y: int)
    requires Satisfies(env, m)
    requires left in env && env[left] == Int(x) && right in env && env[right] == Int(y)
    requires Gamma(l, Int(x)) && Gamma(r, Int(y))
    ensures Holds(op, x, y) ==> Satisfies(env, BranchFacts(op, left, right, l, r, m))
    ensures !Holds(op, x, y) ==> Satisfies(env, BranchFacts(Negate(op), left, right, l, r, m))
  {
    var op' := if Holds(op, x, y) then op else Negate(op);
    assert Holds(op', x, y) && Holds(Flip(op'), y, x);
    RefineSound(op', l, r, x, y);
    RefineSound(Flip(op'), r, l, y, x);
    var m' := BranchFacts(op', left, right, l, r, m);
    forall k | k in m' ensures k in env && Gamma(m'[k], env[k]) {
      if k == right {
        assert m'[k] == RefineLhsOfComparison(Flip(op'), r, l);
      } else if k == left {
        assert m'[k] == RefineLhsOfComparison(op', l, r);
      } else {
        assert m'[k] == m[k];
      }
    }
  }

  /**
    The transfer of a comparison node. When both operand facts are known,
    the then- and else-stores are fresh copies of the incoming ones with the
    operands refined (then: op and Flip(op); else: Negate(op) and
    Flip(Negate(op))); every other expression keeps its fact. When either
    fact is missing the incoming result is returned as it is.
  */
  method ImplementComparison(op: Comparison, left: Receiver, right: Receiver, l: Option<Fact>, r: Option<Fact>, out: TransferResult)
    returns (res: TransferResult)
    ensures l.None? || r.None? ==> res == out
    ensures l.Some? && r.Some? ==>
      && res.Conditional?
      && res.resultValue == out.resultValue
      && fresh(res.GetThenStore()) && fresh(res.GetElseStore())
      && res.GetThenStore() != res.GetElseStore()
      && res.GetThenStore().facts == BranchFacts(op, left, right, l.value, r.value, out.GetThenStore().facts)
      && res.GetElseStore().facts == BranchFacts(Negate(op), left, right, l.value, r.value, out.GetElseStore().facts)
  {
    if l.None? || r.None? {
      return out;
    }
    var thenStore := out.GetThenStore().Copy();
    var elseStore := out.GetElseStore().Copy();
    thenStore.InsertValue(left, RefineLhsOfComparison(op, l.value, r.value));
    thenStore.InsertValue(right, RefineLhsOfComparison(Flip(op), r.value, l.value));
    elseStore.InsertValue(left, RefineLhsOfComparison(Negate(op), l.value, r.value));
    elseStore.InsertValue(right, RefineLhsOfComparison(Flip(Negate(op)), r.value, l.value));
    res := Conditional(out.resultValue, thenStore, elseStore);
  }

  // ========================================================================
  // Arithmetic

  /**
    The transfer of an arithmetic node: with both operand facts known, the
    result value becomes a fact describing every value the operation can
    produce from operands those facts describe; the store passes through.
  */
  function ImplementOperator(op: BinaryOperator, l: Option<Fact>, r: Option<Fact>, out: TransferResult): (res: TransferResult)
    requires out.Regular?
    ensures res.Regular? && res.regularStore == out.regularStore
    ensures l.None? || r.None? ==> res == out
    ensures l.Some? && r.Some? ==>
      && res.resultValue == Some(ArithmeticTransfer(op, l.value, r.value))
      && forall x, y :: Gamma(l.value, x) && Gamma(r.value, y) ==> Gamma(res.resultValue.value, Evaluate(op, x, y))
  {
    if l.None? || r.None? then out
    else
      var fact := ArithmeticTransfer(op, l.value, r.value);
      assert forall x, y :: Gamma(l.value, x) && Gamma(r.value, y) ==> Gamma(fact, Evaluate(op, x, y)) by {
        forall x, y | Gamma(l.value, x) && Gamma(r.value, y) ensures Gamma(fact, Evaluate(op, x, y)) {
          ArithmeticSound(op, l.value, r.value, x, y);
        }
      }
      Regular(Some(fact), out.regularStore)
  }

  // ========================================================================
  // Dispatch

  /** The dataflow nodes the checker overrides. */
  datatype NodeKind =
    | EqualTo | NotEqual | GreaterThan | GreaterThanOrEqual | LessThan | LessThanOrEqual
    | IntegerDivision | IntegerRemainder | FloatingDivision | FloatingRemainder
    | NumericalMultiplication | NumericalAddition | NumericalSubtraction

  datatype Action = Compare(comparison: Comparison) | Arithmetic(operator: BinaryOperator)

  /** The comparison nodes; every other node is arithmetic. */
  const ComparisonNodes: set<NodeKind> := {EqualTo, NotEqual, GreaterThan, GreaterThanOrEqual, LessThan, LessThanOrEqual}

  /** The arithmetic nodes on integers; the two floating nodes are the rest. */
  const IntegerArithmeticNodes: set<NodeKind> :=
    {IntegerDivision, IntegerRemainder, NumericalMultiplication, NumericalAddition, NumericalSubtraction}

  /** What the Java comparison a node stands for means on defined integers. */
  predicate NodeHolds(kind: NodeKind, x: int, y: int)
    requires kind in ComparisonNodes
  {
    match kind
    case EqualTo => x == y
    case NotEqual => x != y
    case GreaterThan => x > y
    case GreaterThanOrEqual => x >= y
    case LessThan => x < y
    case LessThanOrEqual => x <= y
  }

  /**
    What the Java integer operator a node stands for computes: `/` and `%`
    truncate and are undefined for a zero divisor.
  */
  function NodeValue(kind: NodeKind, x: int, y: int): Value
    requires kind in IntegerArithmeticNodes
  {
    match kind
    case IntegerDivision => if y == 0 then Undefined else Int(JavaDiv(x, y))
    case IntegerRemainder => if y == 0 then Undefined else Int(JavaRem(x, y))
    case NumericalMultiplication => Int(x * y)
    case NumericalAddition => Int(x + y)
    case NumericalSubtraction => Int(x - y)
  }

  /**
    Which comparison or operator each node is transferred with: the one that
    means what the node's Java operator means. Floating nodes share the
    integer tables.
  */
  function Dispatch(kind: NodeKind): (a: Action)
    ensures a.Compare? <==> kind in ComparisonNodes
    ensures a.Arithmetic? && a.operator in {DIVIDE, MOD} <==>
      kind in {IntegerDivision, IntegerRemainder, FloatingDivision, FloatingRemainder}
    ensures a.Compare? ==> forall x, y :: Holds(a.comparison, x, y) <==> NodeHolds(kind, x, y)
    ensures kind in IntegerArithmeticNodes ==>
      a.Arithmetic? && forall x, y :: Evaluate(a.operator, Int(x), Int(y)) == NodeValue(kind, x, y)
  {
    match kind
    case EqualTo => Compare(EQ)
    case NotEqual => Compare(NE)
    case GreaterThan => Compare(GT)
    case GreaterThanOrEqual => Compare(GE)
    case LessThan => Compare(LT)
    case LessThanOrEqual => Compare(LE)
    case IntegerDivision => Arithmetic(DIVIDE)
    case IntegerRemainder => Arithmetic(MOD)
    case FloatingDivision => Arithmetic(DIVIDE)
    case FloatingRemainder => Arithmetic(MOD)
    case NumericalMultiplication => Arithmetic(TIMES)
    case NumericalAddition => Arithmetic(PLUS)
    case NumericalSubtraction => Arithmetic(MINUS)
  }

  /**
    The dispatch agrees with the combinators and with the tables: each
    ordering node is the flip of its mirror image, `==` and `!=` negate each
    other, and a floating node uses the same table as its integer counterpart.
  */
  lemma DispatchConsistent()
    ensures Flip(Dispatch(GreaterThan).comparison) == Dispatch(LessThan).comparison
    ensures Flip(Dispatch(GreaterThanOrEqual).comparison) == Dispatch(LessThanOrEqual).comparison
    ensures Negate(Dispatch(EqualTo).comparison) == Dispatch(NotEqual).comparison
    ensures Negate(Dispatch(LessThan).comparison) == Dispatch(GreaterThanOrEqual).comparison
    ensures Dispatch(FloatingDivision) == Dispatch(IntegerDivision)
    ensures Dispatch(FloatingRemainder) == Dispatch(IntegerRemainder)
  {
  }
}

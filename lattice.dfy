/**
  The sign/zero qualifier hierarchy of the divide-by-zero checker: the ten
  facts, the subtype order declared by their @SubtypeOf annotations, and the
  top, bottom, greatest-lower-bound and least-upper-bound operations that the
  transfer functions otherwise obtain from the framework's qualifier hierarchy.
*/
module Lattice {

  /** One point of the lattice; each constructor is one qualifier annotation. */
  datatype Fact =
    | Bot                       // unreachable: no possible value
    | Zero                      // exactly 0
    | StrictlyNegative          // < 0
    | StrictlyPositive          // > 0
    | LessThanOrEqualToZero     // <= 0
    | NonZero                   // != 0
    | GreaterThanOrEqualToZero  // >= 0
    | AllZ                      // any defined integer
    | UndefinedValue            // not a defined integer (e.g. the result of x / 0)
    | Top                       // no information, possibly undefined

  /** The immediate supertypes each qualifier declares with @SubtypeOf. */
  function DeclaredSupertypes(f: Fact): set<Fact> {
    match f
    case Bot => {StrictlyNegative, StrictlyPositive, Zero, UndefinedValue}
    case Zero => {LessThanOrEqualToZero, GreaterThanOrEqualToZero}
    case StrictlyNegative => {LessThanOrEqualToZero, NonZero}
    case StrictlyPositive => {GreaterThanOrEqualToZero, NonZero}
    case LessThanOrEqualToZero => {AllZ}
    case NonZero => {AllZ}
    case GreaterThanOrEqualToZero => {AllZ}
    case AllZ => {Top}
    case UndefinedValue => {Top}
    case Top => {}
  }

  /** The subtype order `a ⊑ b`: a is at least as precise as b. */
  predicate Leq(a: Fact, b: Fact) {
    || a == b
    || a == Bot
    || b == Top
    || match a
       case Zero => b in {LessThanOrEqualToZero, GreaterThanOrEqualToZero, AllZ}
       case StrictlyNegative => b in {LessThanOrEqualToZero, NonZero, AllZ}
       case StrictlyPositive => b in {GreaterThanOrEqualToZero, NonZero, AllZ}
       case LessThanOrEqualToZero => b == AllZ
       case NonZero => b == AllZ
       case GreaterThanOrEqualToZero => b == AllZ
       case _ => false
  }

  /** The top of the lattice. */
  function LatticeTop(): (t: Fact)
    ensures forall a :: Leq(a, t)
  {
    Top
  }

  /** The bottom of the lattice. */
  function LatticeBottom(): (b: Fact)
    ensures forall a :: Leq(b, a)
  {
    Bot
  }

  /** Greatest lower bound in the subtype order. */
  function Glb(a: Fact, b: Fact): (r: Fact)
    ensures Leq(r, a) && Leq(r, b)
    ensures forall c :: Leq(c, a) && Leq(c, b) ==> Leq(c, r)
  {
    if Leq(a, b) then a
    else if Leq(b, a) then b
    else if {a, b} == {LessThanOrEqualToZero, GreaterThanOrEqualToZero} then Zero
    else if {a, b} == {LessThanOrEqualToZero, NonZero} then StrictlyNegative
    else if {a, b} == {GreaterThanOrEqualToZero, NonZero} then StrictlyPositive
    else Bot
  }

  /** Least upper bound in the subtype order. */
  function Lub(a: Fact, b: Fact): (r: Fact)
    ensures Leq(a, r) && Leq(b, r)
    ensures forall c :: Leq(a, c) && Leq(b, c) ==> Leq(r, c)
  {
    if Leq(a, b) then b
    else if Leq(b, a) then a
    else if a == UndefinedValue || b == UndefinedValue then Top
    else if {a, b} == {Zero, StrictlyNegative} then LessThanOrEqualToZero
    else if {a, b} == {Zero, StrictlyPositive} then GreaterThanOrEqualToZero
    else if {a, b} == {StrictlyNegative, StrictlyPositive} then NonZero
    else AllZ
  }

  /**
    The sign flip used to turn subtraction into addition: it exchanges the
    negative and positive facts and leaves the others alone.
  */
  function FlipAnnotationSign(f: Fact): (r: Fact)
    ensures r == f <==> f !in {StrictlyNegative, StrictlyPositive, LessThanOrEqualToZero, GreaterThanOrEqualToZero}
  {
    match f
    case StrictlyNegative => StrictlyPositive
    case StrictlyPositive => StrictlyNegative
    case LessThanOrEqualToZero => GreaterThanOrEqualToZero
    case GreaterThanOrEqualToZero => LessThanOrEqualToZero
    case _ => f
  }

  /** Flipping twice gives back the original fact. */
  lemma FlipAnnotationSignInvolution(f: Fact)
    ensures FlipAnnotationSign(FlipAnnotationSign(f)) == f
  {
  }

  /**
    Leq is exactly the reflexive-transitive closure of the declared
    @SubtypeOf edges: a is below b when it is b or one of its declared
    supertypes is below b.
  */
  lemma LeqFollowsDeclarations(a: Fact, b: Fact)
    ensures Leq(a, b) <==> a == b || exists c :: c in DeclaredSupertypes(a) && Leq(c, b)
  {
  }

  /** Leq is a partial order. */
  lemma LeqIsPartialOrder(a: Fact, b: Fact, c: Fact)
    ensures Leq(a, a)
    ensures Leq(a, b) && Leq(b, a) ==> a == b
    ensures Leq(a, b) && Leq(b, c) ==> Leq(a, c)
  {
  }

  /** Glb is commutative, idempotent, and has Bot as zero and Top as unit. */
  lemma GlbBasics(a: Fact, b: Fact)
    ensures Glb(a, b) == Glb(b, a)
    ensures Glb(a, a) == a
    ensures Glb(a, Bot) == Bot && Glb(a, Top) == a
    ensures Glb(a, b) == a <==> Leq(a, b)
  {
  }

  /** Glb is associative. */
  lemma {:induction false} GlbAssociative(a: Fact, b: Fact, c: Fact)
    ensures Glb(Glb(a, b), c) == Glb(a, Glb(b, c))
  {
    var x, y := Glb(Glb(a, b), c), Glb(a, Glb(b, c));
    LeqIsPartialOrder(x, Glb(a, b), a);
    LeqIsPartialOrder(x, Glb(a, b), b);
    LeqIsPartialOrder(y, Glb(b, c), b);
    LeqIsPartialOrder(y, Glb(b, c), c);
    assert Leq(x, y);
    assert Leq(y, x);
    LeqIsPartialOrder(x, y, x);
  }

  /** Lub is commutative. */
  lemma LubCommutative(a: Fact, b: Fact)
    ensures Lub(a, b) == Lub(b, a)
  {
  }

  /** Lub is idempotent, has Top as zero and Bot as unit, and picks the larger of two ordered facts. */
  lemma LubBasics(a: Fact, b: Fact)
    ensures Lub(a, a) == a
    ensures Lub(a, Top) == Top && Lub(a, Bot) == a
    ensures Lub(a, b) == b <==> Leq(a, b)
  {
  }

  /** Lub is associative. */
  lemma {:induction false} LubAssociative(a: Fact, b: Fact, c: Fact)
    ensures Lub(Lub(a, b), c) == Lub(a, Lub(b, c))
  {
    var x, y := Lub(Lub(a, b), c), Lub(a, Lub(b, c));
    LeqIsPartialOrder(a, Lub(a, b), x);
    LeqIsPartialOrder(b, Lub(a, b), x);
    LeqIsPartialOrder(b, Lub(b, c), y);
    LeqIsPartialOrder(c, Lub(b, c), y);
    assert Leq(x, y);
    assert Leq(y, x);
    LeqIsPartialOrder(x, y, x);
  }

  /** Meet and join absorb each other. */
  lemma Absorption(a: Fact, b: Fact)
    ensures Glb(a, Lub(a, b)) == a && Lub(a, Glb(a, b)) == a
  {
  }
}

/**
  The concrete meaning of the facts: which run-time values each one
  describes, and Java's integer division and remainder (sections 15.17.2 and
  15.17.3 of the Java Language Specification) on unbounded integers.
*/
module Semantics {
  import opened Lattice

  /** A run-time value of an integer expression: a defined integer, or undefined (after x / 0). */
  datatype Value = Int(n: int) | Undefined

  /** Concretization: Gamma(f, v) holds when fact f describes value v. */
  predicate Gamma(f: Fact, v: Value) {
    match f
    case Bot => false
    case Zero => v == Int(0)
    case StrictlyNegative => v.Int? && v.n < 0
    case StrictlyPositive => v.Int? && v.n > 0
    case LessThanOrEqualToZero => v.Int? && v.n <= 0
    case NonZero => v.Int? && v.n != 0
    case GreaterThanOrEqualToZero => v.Int? && v.n >= 0
    case AllZ => v.Int?
    case UndefinedValue => v == Undefined
    case Top => true
  }

  /** One value of each sign class; together they tell every two facts apart. */
  const Samples: set<Value> := {Int(-1), Int(0), Int(1), Undefined}

  lemma {:induction false} SamplesSeparate(a: Fact, b: Fact)
    ensures Leq(a, b) <==> forall s :: s in Samples ==> (Gamma(a, s) ==> Gamma(b, s))
  {
    assert Int(-1) in Samples && Int(0) in Samples && Int(1) in Samples && Undefined in Samples;
  }

  /** The subtype order is exactly inclusion of the described value sets. */
  lemma {:induction false} LeqIsGammaInclusion(a: Fact, b: Fact)
    ensures Leq(a, b) <==> forall v :: Gamma(a, v) ==> Gamma(b, v)
  {
    SamplesSeparate(a, b);
    if Leq(a, b) {
      forall v | Gamma(a, v) ensures Gamma(b, v) {
        var s := match v case Undefined => Undefined case Int(n) => if n < 0 then Int(-1) else if n == 0 then Int(0) else Int(1);
        assert s in Samples && Gamma(a, s);
      }
    }
  }

  /** The values described by Glb(a, b) are exactly those described by both. */
  lemma GlbIsIntersection(a: Fact, b: Fact, v: Value)
    ensures Gamma(Glb(a, b), v) <==> Gamma(a, v) && Gamma(b, v)
  {
  }

  /** Lub(a, b) describes every value that a or b describes. */
  lemma LubCoversBoth(a: Fact, b: Fact, v: Value)
    ensures Gamma(a, v) || Gamma(b, v) ==> Gamma(Lub(a, b), v)
  {
  }

  /** FlipAnnotationSign describes the negated values. */
  lemma FlipAnnotationSignNegates(f: Fact, x: int)
    ensures Gamma(f, Int(x)) <==> Gamma(FlipAnnotationSign(f), Int(-x))
    ensures Gamma(f, Undefined) <==> Gamma(FlipAnnotationSign(f), Undefined)
  {
  }

  function Abs(x: int): nat {
    if x < 0 then -x else x
  }

  /** Euclidean division facts for a natural dividend and a positive divisor. */
  lemma NatDivision(a: nat, b: nat)
    requires b > 0
    ensures a / b >= 0 && 0 <= a % b < b
    ensures (a / b) * b + a % b == a
    ensures a / b == 0 <==> a < b
    ensures a % b <= a
  {
  }

  /**
    Java integer division: rounds toward zero (section 15.17.2 of the Java
    Language Specification); the magnitude is the floor of the magnitudes and
    a non-zero quotient is positive exactly when the operands agree in sign.
  */
  function JavaDiv(x: int, y: int): (q: int)
    requires y != 0
    ensures Abs(q) == Abs(x) / Abs(y)
    ensures q != 0 ==> (q > 0 <==> (x > 0 <==> y > 0))
  {
    NatDivision(Abs(x), Abs(y));
    if (x < 0) == (y < 0) then Abs(x) / Abs(y) else -(Abs(x) / Abs(y))
  }

  /**
    Java integer remainder (section 15.17.3 of the Java Language
    Specification): smaller in magnitude than the divisor and, when not zero,
    of the sign of the dividend whatever the sign of the divisor.
  */
  function JavaRem(x: int, y: int): (r: int)
    requires y != 0
    ensures Abs(r) < Abs(y) && Abs(r) <= Abs(x)
    ensures r != 0 ==> (r > 0 <==> x > 0)
  {
    NatDivision(Abs(x), Abs(y));
    if x < 0 then -(Abs(x) % Abs(y)) else Abs(x) % Abs(y)
  }

  /** The identity that ties the two together: (x / y) * y + x % y == x. */
  lemma {:induction false} JavaDivRemIdentity(x: int, y: int)
    requires y != 0
    ensures JavaDiv(x, y) * y + JavaRem(x, y) == x
  {
    var q, r := Abs(x) / Abs(y), Abs(x) % Abs(y);
    NatDivision(Abs(x), Abs(y));
    if (x < 0) == (y < 0) {
      assert JavaDiv(x, y) == q;
      assert q * y == if y < 0 then -(q * Abs(y)) else q * Abs(y);
    } else {
      assert JavaDiv(x, y) == -q;
      assert -q * y == if y < 0 then q * Abs(y) else -(q * Abs(y));
    }
  }
}

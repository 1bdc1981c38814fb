# Divide-by-zero checker: sign/zero lattice, transfer tables and oracle

This project models the core of a Checker Framework pluggable type checker that reports
integer divisions whose divisor may be zero. It covers the following parts.

- **The lattice of ten facts** (`lattice.dfy`, module `Lattice`): Bot, Zero, StrictlyNegative,
  StrictlyPositive, LessThanOrEqualToZero, NonZero, GreaterThanOrEqualToZero, AllZ,
  UndefinedValue and Top.
  - The subtype order follows the qualifiers' `@SubtypeOf` declarations.
  - Top, bottom, greatest lower bound and least upper bound are defined locally. The
    checker obtains them from the framework's qualifier hierarchy.
- **The concrete meaning of the facts** (`semantics.dfy`, module `Semantics`).
  - `Gamma` says which run-time values each fact describes. A value is a defined integer or
    undefined; dividing by zero gives undefined.
  - Java's integer division and remainder, as in sections 15.17.2 and 15.17.3 of the Java
    Language Specification: the quotient rounds toward zero, and the remainder takes the
    sign of the dividend.
- **The transfer functions** (`transfer.dfy`, module `DivByZeroTransfer`).
  - `refineLhsOfComparison`: EQ is the meet; NE, LT, LE, GT and GE use tables.
  - `arithmeticTransfer`: the PLUS, TIMES, DIVIDE and MOD tables. MINUS is PLUS with the
    right operand's sign flipped.
  - `flipAnnotationSign`, the comparison combinators `flip` and `negate`, and
    `tableIndex`/`matchTable`.
  - Every table is transcribed cell by cell from the source's arrays. TIMES then reads a
    corrected copy of the multiplication array, which differs from the source in five cells
    (see "## Findings").
- **Soundness of the tables** (`soundness.dfy`, module `TransferSoundness`), proved against
  `Gamma` and the concrete operators:
  - every refinement keeps every value for which the comparison holds;
  - every arithmetic fact describes every result the operation can produce.
- **The store side of the transfer** (`store.dfy`, module `TransferResults`).
  - A `Store` class holds a map from tracked expressions to facts.
  - `ImplementComparison` copies the incoming then-store and else-store and inserts four
    refined facts.
  - `ImplementOperator` replaces the node's result value.
  - `Dispatch` maps each overridden dataflow node kind to its comparison or operator.
- **The oracle** (`visitor.dfy`, module `DivByZeroVisitor`). It models both `errorAt`
  overloads and the int-typed gate in `visitBinary` and `visitCompoundAssignment`.
- **The test file's straight-line methods** (`scenarios.dfy`, module `FooScenarios`). They
  are composed from the transfer functions and the oracle, and state which divisions are
  reported.

Source paths in the table are relative to the repository root.

## Model

| member | source | states |
|---|---|---|
| Lattice.LatticeTop | src/main/java/org/checkerframework/checker/dividebyzero/DivByZeroTransfer.java:488-491 | Top is above every fact. |
| Lattice.LatticeBottom | src/main/java/org/checkerframework/checker/dividebyzero/DivByZeroTransfer.java:493-496 | Bot is below every fact. |
| Lattice.Glb | src/main/java/org/checkerframework/checker/dividebyzero/DivByZeroTransfer.java:503-506 | The result is below both arguments and above every common lower bound. |
| Lattice.Lub | src/main/java/org/checkerframework/checker/dividebyzero/DivByZeroTransfer.java:498-501 | The result is above both arguments and below every common upper bound. |
| Lattice.LeqFollowsDeclarations | src/main/java/org/checkerframework/checker/dividebyzero/qual/Bot.java:7 | The order is the reflexive-transitive closure of the declared `@SubtypeOf` edges. Bot, for example, lies directly below StrictlyNegative, StrictlyPositive, Zero and UndefinedValue. |
| Lattice.LeqIsPartialOrder | src/main/java/org/checkerframework/checker/dividebyzero/qual/NonZero.java:7 | The declared order (NonZero below AllZ, and the rest) is reflexive, antisymmetric and transitive. |
| Lattice.GlbBasics | src/main/java/org/checkerframework/checker/dividebyzero/DivByZeroTransfer.java:94-107 | The meet is commutative and idempotent, Bot is its zero and Top its unit, and it returns a exactly when a is below b. |
| Lattice.GlbAssociative | src/main/java/org/checkerframework/checker/dividebyzero/DivByZeroTransfer.java:503-506 | The meet is associative. |
| Lattice.LubCommutative | src/main/java/org/checkerframework/checker/dividebyzero/DivByZeroTransfer.java:498-501 | The join is commutative. |
| Lattice.LubBasics | src/main/java/org/checkerframework/checker/dividebyzero/DivByZeroTransfer.java:498-501 | The join is idempotent, Top is its zero and Bot its unit, and it returns b exactly when a is below b. |
| Lattice.LubAssociative | src/main/java/org/checkerframework/checker/dividebyzero/DivByZeroTransfer.java:498-501 | The join is associative. |
| Lattice.Absorption | src/main/java/org/checkerframework/checker/dividebyzero/DivByZeroTransfer.java:498-506 | Meet and join absorb each other. |
| Lattice.FlipAnnotationSign | src/main/java/org/checkerframework/checker/dividebyzero/DivByZeroTransfer.java:413-437 | A fact is unchanged exactly when it is not one of the four signed facts. |
| Lattice.FlipAnnotationSignInvolution | src/main/java/org/checkerframework/checker/dividebyzero/DivByZeroTransfer.java:413-437 | Flipping twice gives back the fact. |
| TransferSoundness.FlipAnnotationSignMonotone | src/main/java/org/checkerframework/checker/dividebyzero/DivByZeroTransfer.java:413-437 | The sign flip preserves the order. |
| Semantics.LeqIsGammaInclusion | src/main/java/org/checkerframework/checker/dividebyzero/qual/Bot.java:7 | a is below b exactly when every value a describes is also described by b. |
| Semantics.GlbIsIntersection | src/main/java/org/checkerframework/checker/dividebyzero/DivByZeroTransfer.java:94-107 | The meet describes exactly the values that both arguments describe. |
| Semantics.LubCoversBoth | src/main/java/org/checkerframework/checker/dividebyzero/DivByZeroTransfer.java:498-501 | The join describes every value that either argument describes. |
| Semantics.FlipAnnotationSignNegates | src/main/java/org/checkerframework/checker/dividebyzero/DivByZeroTransfer.java:327-329 | f describes x exactly when the flipped fact describes -x. Undefined is kept. |
| Semantics.JavaDiv | src/main/java/org/checkerframework/checker/dividebyzero/DivByZeroTransfer.java:355-366 | The quotient's magnitude is the floor of the magnitudes. A non-zero quotient is positive exactly when the operands have the same sign, so the quotient rounds toward zero. |
| Semantics.JavaRem | src/main/java/org/checkerframework/checker/dividebyzero/DivByZeroTransfer.java:390-394 | The remainder is smaller in magnitude than the divisor and no larger than the dividend. When non-zero it has the dividend's sign. |
| Semantics.JavaDivRemIdentity | src/main/java/org/checkerframework/checker/dividebyzero/DivByZeroTransfer.java:390-394 | (x / y) * y + x % y == x for every non-zero y. |
| DivByZeroTransfer.Flip | src/main/java/org/checkerframework/checker/dividebyzero/DivByZeroTransfer.java:520-531 | `x op y` holds exactly when `y flip(op) x` does, for all integers. |
| DivByZeroTransfer.Negate | src/main/java/org/checkerframework/checker/dividebyzero/DivByZeroTransfer.java:533-544 | `x op y` holds exactly when `x negate(op) y` fails, for all integers. |
| DivByZeroTransfer.FlipNegateLaws | src/main/java/org/checkerframework/checker/dividebyzero/DivByZeroTransfer.java:520-544 | Both combinators are involutions and they commute. flip fixes exactly EQ and NE. |
| DivByZeroTransfer.TableIndex | src/main/java/org/checkerframework/checker/dividebyzero/DivByZeroTransfer.java:439-473 | The index is -1 exactly for Bot. Otherwise it is the fact's position in the shared row and column order. |
| DivByZeroTransfer.MatchTable | src/main/java/org/checkerframework/checker/dividebyzero/DivByZeroTransfer.java:475-483 | The result is the cell whose row header is lhs and whose column header is rhs. Bot on either side is excluded. |
| DivByZeroTransfer.NeTableNarrows | src/main/java/org/checkerframework/checker/dividebyzero/DivByZeroTransfer.java:128-139 | Every cell of the NE table is below its row's fact. |
| DivByZeroTransfer.LtTableNarrows | src/main/java/org/checkerframework/checker/dividebyzero/DivByZeroTransfer.java:158-169 | Every cell of the LT table is below its row's fact. |
| DivByZeroTransfer.LeTableNarrows | src/main/java/org/checkerframework/checker/dividebyzero/DivByZeroTransfer.java:190-201 | Every cell of the LE table is below its row's fact. |
| DivByZeroTransfer.GtTableNarrows | src/main/java/org/checkerframework/checker/dividebyzero/DivByZeroTransfer.java:218-229 | Every cell of the GT table is below its row's fact. |
| DivByZeroTransfer.GeTableNarrows | src/main/java/org/checkerframework/checker/dividebyzero/DivByZeroTransfer.java:248-259 | Every cell of the GE table is below its row's fact. |
| DivByZeroTransfer.RefineLhsOfComparison | src/main/java/org/checkerframework/checker/dividebyzero/DivByZeroTransfer.java:46-263 | Refinement never widens lhs. A Bot lhs gives Bot, and a Bot rhs leaves lhs unchanged. |
| DivByZeroTransfer.ArithmeticTransfer | src/main/java/org/checkerframework/checker/dividebyzero/DivByZeroTransfer.java:280-411 | Bot short-circuits. Otherwise: an UndefinedValue operand gives UndefinedValue; a Top operand of +, - or * gives Top; a Zero divisor of / or % gives UndefinedValue. TIMES reads the corrected multiplication table. Soundness is ArithmeticSound and monotonicity is ArithmeticMonotone. |
| TransferSoundness.NeRefinementSound | src/main/java/org/checkerframework/checker/dividebyzero/DivByZeroTransfer.java:108-140 | If x != y, with x described by lhs and y by rhs, then x is described by the NE refinement. |
| TransferSoundness.LtRefinementSound | src/main/java/org/checkerframework/checker/dividebyzero/DivByZeroTransfer.java:141-170 | The same for x < y and the LT table. |
| TransferSoundness.LeRefinementSound | src/main/java/org/checkerframework/checker/dividebyzero/DivByZeroTransfer.java:171-202 | The same for x <= y and the LE table. |
| TransferSoundness.GtRefinementSound | src/main/java/org/checkerframework/checker/dividebyzero/DivByZeroTransfer.java:203-230 | The same for x > y and the GT table. |
| TransferSoundness.GeRefinementSound | src/main/java/org/checkerframework/checker/dividebyzero/DivByZeroTransfer.java:231-260 | The same for x >= y and the GE table. |
| TransferSoundness.RefineSound | src/main/java/org/checkerframework/checker/dividebyzero/DivByZeroTransfer.java:46-68 | For every operator: whenever `x op y` holds for described integers, the refined fact still describes x. |
| TransferSoundness.EqIsGlb | src/main/java/org/checkerframework/checker/dividebyzero/DivByZeroTransfer.java:94-107 | EQ refinement is exactly the meet of lhs and rhs. |
| TransferSoundness.NeNarrowsOnlyAgainstZero | src/main/java/org/checkerframework/checker/dividebyzero/DivByZeroTransfer.java:108-140 | Against Zero, NE gives UndefinedValue for UndefinedValue and the meet with NonZero otherwise (Bot for Zero). Against anything else it leaves lhs unchanged, except that Top against UndefinedValue becomes AllZ. |
| TransferSoundness.UndefinedOperandRefinement | src/main/java/org/checkerframework/checker/dividebyzero/DivByZeroTransfer.java:93-260 | An UndefinedValue lhs stays UndefinedValue under every table operator. A defined lhs compared with UndefinedValue is unchanged by NE and becomes Bot under the other operators. |
| TransferSoundness.PlusSound | src/main/java/org/checkerframework/checker/dividebyzero/DivByZeroTransfer.java:311-326 | Every sum of described values, or undefined, is described by the PLUS fact. |
| TransferSoundness.MinusSound | src/main/java/org/checkerframework/checker/dividebyzero/DivByZeroTransfer.java:327-329 | Every difference of described values is described by the MINUS fact. |
| TransferSoundness.TimesSound | src/main/java/org/checkerframework/checker/dividebyzero/DivByZeroTransfer.java:330-354 | Every product of described values is described by the TIMES fact, which is read from the corrected table. |
| TransferSoundness.DivideSound | src/main/java/org/checkerframework/checker/dividebyzero/DivByZeroTransfer.java:355-379 | Every truncating quotient is described by the DIVIDE fact, and so is undefined after a zero divisor. |
| TransferSoundness.ModSound | src/main/java/org/checkerframework/checker/dividebyzero/DivByZeroTransfer.java:380-407 | Every Java remainder is described by the MOD fact, and so is undefined after a zero divisor. |
| TransferSoundness.ArithmeticSound | src/main/java/org/checkerframework/checker/dividebyzero/DivByZeroTransfer.java:265-279 | For every operator, the transferred fact describes the result of `x op y` for every described x and y. |
| TransferSoundness.MinusIsPlusOfFlipped | src/main/java/org/checkerframework/checker/dividebyzero/DivByZeroTransfer.java:327-329 | The MINUS fact is the PLUS fact with the sign-flipped right operand. |
| TransferSoundness.PlusMonotone | src/main/java/org/checkerframework/checker/dividebyzero/DivByZeroTransfer.java:311-326 | A more precise operand on either side never gives a less precise PLUS fact. |
| TransferSoundness.MinusMonotone | src/main/java/org/checkerframework/checker/dividebyzero/DivByZeroTransfer.java:327-329 | The same for MINUS, through the flipped right operand. |
| TransferSoundness.TimesMonotone | src/main/java/org/checkerframework/checker/dividebyzero/DivByZeroTransfer.java:330-354 | The same for TIMES, read from the corrected table. |
| TransferSoundness.DivideMonotone | src/main/java/org/checkerframework/checker/dividebyzero/DivByZeroTransfer.java:355-379 | The same for DIVIDE. |
| TransferSoundness.ModMonotone | src/main/java/org/checkerframework/checker/dividebyzero/DivByZeroTransfer.java:380-407 | The same for MOD. |
| TransferSoundness.ArithmeticMonotone | src/main/java/org/checkerframework/checker/dividebyzero/DivByZeroTransfer.java:265-279 | For every operator, if a1 is below a2 and b1 below b2, the fact for (a1, b1) is below the fact for (a2, b2). |
| TransferSoundness.ModFollowsDividend | src/main/java/org/checkerframework/checker/dividebyzero/DivByZeroTransfer.java:388-403 | Take a non-positive dividend and a divisor that is -, + or !=0. The remainder is LessThanOrEqualToZero. With the dividend flipped it is GreaterThanOrEqualToZero. |
| TransferSoundness.MultiplicationAsWrittenUnsound | src/main/java/org/checkerframework/checker/dividebyzero/DivByZeroTransfer.java:342-353 | The source's array gives NonZero or StrictlyPositive in five cells. 0 and 1 are described by the operand facts of those cells, yet 0 * 1 == 0 is outside the cell's fact. |
| TransferSoundness.MultiplicationAsWrittenNotMonotone | src/main/java/org/checkerframework/checker/dividebyzero/DivByZeroTransfer.java:342-353 | The source's array is not monotone: Zero is below >=0 and + below !=0, yet the cell (Zero, +) is Zero and the cell (>=0, !=0) is NonZero, which is not above Zero. |
| TransferSoundness.MultiplicationCorrection | src/main/java/org/checkerframework/checker/dividebyzero/DivByZeroTransfer.java:342-353 | The corrected table differs from the source's array in exactly those five cells. |
| TransferResults.Store.Copy | src/main/java/org/checkerframework/checker/dividebyzero/DivByZeroTransfer.java:563-564 | A fresh store with the same facts. |
| TransferResults.Store.InsertValue | src/main/java/org/checkerframework/checker/dividebyzero/DivByZeroTransfer.java:566-580 | The store maps e to f, and every other expression keeps its fact. |
| TransferResults.BranchFactsFrame | src/main/java/org/checkerframework/checker/dividebyzero/DivByZeroTransfer.java:566-580 | Only the two operands change. The left operand gets refine(op, l, r) and the right operand gets refine(flip(op), r, l), and each is below the fact it was compared with (l or r). |
| TransferResults.BranchFactsSound | src/main/java/org/checkerframework/checker/dividebyzero/DivByZeroTransfer.java:553-583 | When the current values satisfy the store, the then-facts hold if the comparison is true and the else-facts (negate(op)) hold if it is false. |
| TransferResults.ImplementComparison | src/main/java/org/checkerframework/checker/dividebyzero/DivByZeroTransfer.java:553-583 | A missing operand fact returns the incoming result. Otherwise: two distinct fresh stores, the then-store and the else-store, hold the incoming facts with the four refinements (op and flip(op), negate(op) and flip(negate(op))), and the result value is kept. |
| TransferResults.ImplementOperator | src/main/java/org/checkerframework/checker/dividebyzero/DivByZeroTransfer.java:585-598 | The store passes through, and a missing operand fact returns the incoming result. Otherwise the new result value is exactly the arithmetic transfer of the two operand facts, and it describes `x op y` for every described x and y. |
| TransferResults.Dispatch | src/main/java/org/checkerframework/checker/dividebyzero/DivByZeroTransfer.java:600-663 | Each comparison node goes to the comparison that holds exactly when the node's Java operator does, and only comparison nodes go to implementComparison. Each integer arithmetic node goes to the operator that computes what the node's Java operator computes. The division and remainder nodes, integer and floating, and only they, go to DIVIDE or MOD. |
| TransferResults.DispatchConsistent | src/main/java/org/checkerframework/checker/dividebyzero/DivByZeroTransfer.java:600-663 | `>` and `<`, and `>=` and `<=`, are flips of each other; `==` and `!=`, and `<` and `>=`, are negations of each other; a floating division or remainder node uses the same operator as its integer counterpart. |
| DivByZeroVisitor.PossiblyZeroMeansZeroBelow | src/main/java/org/checkerframework/checker/dividebyzero/DivByZeroVisitor.java:47-54 | The five reported facts are exactly the facts above Zero, and exactly the facts that describe the value 0. |
| DivByZeroVisitor.IsInt | src/main/java/org/checkerframework/checker/dividebyzero/DivByZeroVisitor.java:90-96 | A type is considered exactly when it is int or long; byte, short, char, float and double are not. |
| DivByZeroVisitor.HasAnnotation | src/main/java/org/checkerframework/checker/dividebyzero/DivByZeroVisitor.java:98-100 | An operand has annotation f exactly when its fact and f are each below the other, so both describe the same values. |
| DivByZeroVisitor.ErrorAtBinary | src/main/java/org/checkerframework/checker/dividebyzero/DivByZeroVisitor.java:31-55 | The result holds exactly when three things hold: the operator is /, /=, % or %=; both operands are int or long; and the divisor's fact describes 0. |
| DivByZeroVisitor.ErrorAtCompoundAssignment | src/main/java/org/checkerframework/checker/dividebyzero/DivByZeroVisitor.java:63-85 | The result holds exactly when three things hold: the operator is a division operator; the variable and the expression are int or long; and Zero is below the expression's fact. |
| DivByZeroVisitor.BothFormsAgree | src/main/java/org/checkerframework/checker/dividebyzero/DivByZeroVisitor.java:72-84 | Both overloads apply one rule. The divisor is the right operand in one and the assigned expression in the other. |
| DivByZeroVisitor.VisitBinary | src/main/java/org/checkerframework/checker/dividebyzero/DivByZeroVisitor.java:109-117 | A binary tree is reported exactly when the tree and both operands are int or long, the operator is /, /=, % or %=, and the divisor's fact describes 0. |
| DivByZeroVisitor.VisitCompoundAssignment | src/main/java/org/checkerframework/checker/dividebyzero/DivByZeroVisitor.java:119-127 | A compound assignment is reported exactly when the variable and the expression are int or long, the operator is a division operator, and the expression's fact describes 0. |
| DivByZeroVisitor.UnreportedDivisionIsSafe | src/main/java/org/checkerframework/checker/dividebyzero/DivByZeroVisitor.java:47-54 | At an unreported integer division site, no value described by the divisor's fact is 0. |
| DivByZeroVisitor.UnreportedDivisionAssignmentIsSafe | src/main/java/org/checkerframework/checker/dividebyzero/DivByZeroVisitor.java:63-85 | At an unreported `/=` or `%=` on ints, no value described by the assigned expression's fact is 0. |
| FooScenarios.LiteralFact | tests/dividebyzero/Foo.java:14-15 | A literal's fact describes its value and is below every fact that does. |
| FooScenarios.F | tests/dividebyzero/Foo.java:13-22 | `one / zero` is reported. `x = one / zero` is UndefinedValue and `y = zero / one` is Zero, so `x / y` is reported. |
| FooScenarios.H | tests/dividebyzero/Foo.java:72-79 | `0 + 0 - 0 * 0` is Zero and reported. `0 * 1 + 1` is StrictlyPositive and not reported. |
| FooScenarios.L | tests/dividebyzero/Foo.java:81-90 | Dividing by `1 - 1` or `y - y` is reported. |
| FooScenarios.SafeAddition | tests/dividebyzero/Foo.java:92-98 | Dividing by `2 + 3` or `-4 + -6` is not reported. |
| FooScenarios.SafeSubtraction | tests/dividebyzero/Foo.java:100-107 | Dividing by `-3 - 4` or `1 - b` (b negative) is not reported. |
| FooScenarios.MultiplicationPreservesSigns | tests/dividebyzero/Foo.java:109-119 | `3 + 1 * 2` is a safe divisor. Dividing by `3 + 1 * -3` is reported. |
| FooScenarios.ComplicatedSafeSequence | tests/dividebyzero/Foo.java:121-128 | c stays StrictlyPositive through the five updates, and `1 / c` is not reported. |
| FooScenarios.DivisionAssignment | tests/dividebyzero/Foo.java:130-138 | `a /= 0` and `b /= (3 * 0)` are reported. |
| FooScenarios.DivideByMod | tests/dividebyzero/Foo.java:164-168 | `4 % 2` is GreaterThanOrEqualToZero, and dividing by it is reported. |
| FooScenarios.TruncatingDivision | tests/dividebyzero/Foo.java:170-174 | `3 / 4` is GreaterThanOrEqualToZero, and dividing by it is reported. |
| FooScenarios.GEqualityJoins | tests/dividebyzero/Foo.java:24-51 | Joining the two branches of `y == 0` or `y != 0` gives AllZ, whether y was Top or AllZ before the test. |
| FooScenarios.GOrderingJoins | tests/dividebyzero/Foo.java:53-69 | Joining the branch of `y < 0`, `y <= 0`, `y > 0` or `y >= 0` with the path where the test fails gives AllZ again. |
| FooScenarios.GEquality | tests/dividebyzero/Foo.java:24-51 | With y at Top or AllZ, `1 / y` is reported where `y == 0` holds or `y != 0` fails, and not in the other branches. |
| FooScenarios.GOrderingBelow | tests/dividebyzero/Foo.java:53-60 | With y at Top or AllZ, `1 / y` is reported after `y <= 0` and not after `y < 0`. |
| FooScenarios.GOrderingAbove | tests/dividebyzero/Foo.java:62-69 | With y at Top or AllZ, `1 / y` is reported after `y >= 0` and not after `y > 0`. |

## Left out

- The dataflow engine is not modelled: the fixpoint and worklist, the joins at branch merges, and loop iteration. It lives in the framework's analysis and transfer superclasses. So the loop and merge outcomes of tests/dividebyzero/Foo.java:140-219 are not modelled.
- Framework plumbing is replaced by the local enumeration of facts and its order. This covers annotation reflection, `AnnotationUtils.areSame`, `findAnnotation` and the qualifier-hierarchy lookups.
- `createSingleAnnotationValue` is not modelled. A result value is just its fact.
- The `visit*` overrides of the transfer class call the superclass's transfer before `implementComparison` or `implementOperator`. That call is modelled as the incoming `TransferResult`, and `TransferResults.Dispatch` chooses the comparison or operator.
- The unreachable `default` arms of the switches are replaced by exhaustive matches.
- The type factory's queries are inputs of the oracle. `isInt` and `hasAnnotation` become the operand's `TypeKind` and fact.
- A literal's fact comes from the type factory, which is not part of this model. `FooScenarios.LiteralFact` stands in for it.
- The g() lemmas take the unannotated parameter `y` to start at Top, the default qualifier. The joins at the branch merges are computed by `FooScenarios.GEqualityJoins` and `FooScenarios.GOrderingJoins` from `Lattice.Lub`, not by the framework's engine.
- `checker.report` is diagnostic output. Reporting is modelled as the boolean result of `VisitBinary` and `VisitCompoundAssignment`.
- Floating-point semantics are not modelled. Floating division and remainder go through the same integer tables, and the oracle ignores non-integer types.
- Semantics.JavaDiv: integers are unbounded. The 32-bit and 64-bit wrap-around of Java `int` and `long` is not modelled, and the soundness lemmas rely on that. Under wrap-around, `+ + +` (a positive plus a positive) and `!=0 * !=0` are not sound.
- TransferSoundness.RefineSound: comparison soundness is stated for defined integer operands only. A comparison whose operand is undefined has no Java value to compare.
- TransferResults.Store.InsertValue: an insertion replaces the expression's fact. The framework's store may combine the new value with an existing one, and that code is not part of this model.
- TransferResults.ImplementOperator: requires a regular incoming result. The default transfer of an arithmetic node produces one. How a conditional result's two stores would be merged into one is not modelled.
- DivByZeroTransfer.ArithmeticTransfer: TIMES reads the corrected multiplication table, not the source's array. The five cells that differ are listed under "## Findings", and the array as written is kept as `DivByZeroTransfer.MultiplicationTableAsWritten`.
- A tracked expression is identified by a string. `FlowExpressions.internalReprOf` is not modelled.

## Findings

| source | as written | input that shows it | evidently intended | confidence | as-written member | corrected member |
|---|---|---|---|---|---|---|
| src/main/java/org/checkerframework/checker/dividebyzero/DivByZeroTransfer.java:342-353 | The multiplication array gives NonZero for (<=0, !=0), (!=0, <=0), (!=0, >=0) and (>=0, !=0), and StrictlyPositive for (>=0, +). The comment grid above it even says >=0 for the last cell. | 0 * 1 == 0. The value 0 is described by <=0 and >=0, and 1 by !=0 and +, yet the product is neither non-zero nor positive. | AllZ in the four NonZero cells and GreaterThanOrEqualToZero in the (>=0, +) cell, so that every product is described by its cell. The corrected table is also monotone, which the array is not. | not executed | TransferSoundness.MultiplicationAsWrittenUnsound | TransferSoundness.TimesSound |

/** The algebraic layer the formulations are written in: named decision
    variables, expressions over them, the equality and inequality
    constraints a `ConstraintList` collects, and what it means for an
    assignment of reals to the variables to satisfy them. Solving is not
    part of the model: a solver's answer is just an assignment. */
module Algebra {
  import opened Common

  /** The variables of a formulation block, indexed as in the source:
      `inputs[k]`, `outputs[n]`, `z[(l, n)]`, `a[(l, n)]`, the binaries
      `y`, `p`, `q`, the hybrid's `feature_extractor[i]`, the selection
      problem's binaries, and a variable of a nested block (`m.nn.*`). */
  datatype Var =
    | Input(k: nat)
    | Output(n: nat)
    | Z(l: nat, n: nat)
    | A(l: nat, n: nat)
    | Y(l: nat, n: nat)
    | P(l: nat, n: nat)
    | Q(l: nat, n: nat)
    | Feature(i: nat)
    | Selector(k: nat)
    | Nested(inner: Var)

  /** A value for every variable, as a solver returns it. */
  type Assignment = Var -> real

  datatype Expr =
    | Const(c: real)
    | Ref(v: Var)
    | Add(left: Expr, right: Expr)
    | Sub(left: Expr, right: Expr)
    | Mul(factor: real, operand: Expr)
    | Div(dividend: Expr, divisor: NonZero)
    | Pow(base: Expr, exponent: nat)

  function Eval(e: Expr, asg: Assignment): real {
    match e
    case Const(c) => c
    case Ref(v) => asg(v)
    case Add(l, r) => Eval(l, asg) + Eval(r, asg)
    case Sub(l, r) => Eval(l, asg) - Eval(r, asg)
    case Mul(c, x) => c * Eval(x, asg)
    case Div(x, d) => Eval(x, asg) / d
    case Pow(x, e) => Power(Eval(x, asg), e)
  }

  datatype Constraint =
    | Eq(lhs: Expr, rhs: Expr)
    | Le(lhs: Expr, rhs: Expr)
    | Ge(lhs: Expr, rhs: Expr)

  predicate Holds(c: Constraint, asg: Assignment) {
    match c
    case Eq(l, r) => Eval(l, asg) == Eval(r, asg)
    case Le(l, r) => Eval(l, asg) <= Eval(r, asg)
    case Ge(l, r) => Eval(l, asg) >= Eval(r, asg)
  }

  /** The conjunction of a constraint list. */
  predicate AllHold(cs: seq<Constraint>, asg: Assignment) {
    forall c :: c in cs ==> Holds(c, asg)
  }

  /** The values of `inputs[0 .. d - 1]`. */
  function InputValues(asg: Assignment, d: nat): (r: Vector)
    ensures |r| == d
  {
    seq(d, k requires 0 <= k < d => asg(Input(k)))
  }

  /** Python's `sum(terms)` over expressions: `((0 + t0) + t1) + ...`. */
  function Sum(terms: seq<Expr>): Expr {
    if |terms| == 0 then Const(0.0) else Add(Sum(terms[..|terms| - 1]), terms[|terms| - 1])
  }

  /** The value of a sum expression is the sum of its terms' values. */
  lemma {:induction false} EvalSum(terms: seq<Expr>, asg: Assignment, vals: Vector)
    requires |vals| == |terms|
    requires forall i :: 0 <= i < |terms| ==> Eval(terms[i], asg) == vals[i]
    ensures Eval(Sum(terms), asg) == SumOf(vals)
  {
    if |terms| > 0 {
      var n := |terms| - 1;
      EvalSum(terms[..n], asg, vals[..n]);
    }
  }

  /** A nested block's variable, as the enclosing block names it. */
  function Rename(e: Expr): (r: Expr)
    ensures forall asg: Assignment :: Eval(r, asg) == Eval(e, v => asg(Nested(v)))
  {
    match e
    case Const(c) => Const(c)
    case Ref(v) => Ref(Nested(v))
    case Add(l, r) => Add(Rename(l), Rename(r))
    case Sub(l, r) => Sub(Rename(l), Rename(r))
    case Mul(c, x) => Mul(c, Rename(x))
    case Div(x, d) => Div(Rename(x), d)
    case Pow(x, e) => Pow(Rename(x), e)
  }

  function RenameConstraint(c: Constraint): Constraint {
    match c
    case Eq(l, r) => Eq(Rename(l), Rename(r))
    case Le(l, r) => Le(Rename(l), Rename(r))
    case Ge(l, r) => Ge(Rename(l), Rename(r))
  }

  /** The constraints of a nested block, renamed into the enclosing one. */
  function RenameAll(cs: seq<Constraint>): (r: seq<Constraint>)
    ensures |r| == |cs|
    ensures forall i :: 0 <= i < |cs| ==> r[i] == RenameConstraint(cs[i])
  {
    if |cs| == 0 then [] else RenameAll(cs[..|cs| - 1]) + [RenameConstraint(cs[|cs| - 1])]
  }

  /** The renamed constraints hold exactly when the nested block's own
      constraints hold under the nested part of the assignment. */
  lemma RenameAllHolds(cs: seq<Constraint>, asg: Assignment)
    ensures AllHold(RenameAll(cs), asg) <==> AllHold(cs, v => asg(Nested(v)))
  {
    var inner: Assignment := v => asg(Nested(v));
    var r := RenameAll(cs);
    forall i | 0 <= i < |cs|
      ensures Holds(r[i], asg) <==> Holds(cs[i], inner)
    {
      match cs[i]
      case Eq(a, b) =>
      case Le(a, b) =>
      case Ge(a, b) =>
    }
    if AllHold(cs, inner) {
      forall c | c in r ensures Holds(c, asg) {
        var i :| 0 <= i < |r| && r[i] == c;
      }
    }
    if AllHold(r, asg) {
      forall c | c in cs ensures Holds(c, inner) {
        var i :| 0 <= i < |cs| && cs[i] == c;
        assert r[i] in r;
      }
    }
  }

  lemma AllHoldConcat(a: seq<Constraint>, b: seq<Constraint>, asg: Assignment)
    ensures AllHold(a + b, asg) <==> AllHold(a, asg) && AllHold(b, asg)
  {
  }

  /** The blocks `block(0)`, ..., `block(count - 1)` laid end to end. */
  function Blocks(block: nat -> seq<Constraint>, count: nat): seq<Constraint> {
    if count == 0 then [] else Blocks(block, count - 1) + block(count - 1)
  }

  /** Blocks laid end to end all hold exactly when each block holds. */
  lemma {:induction false} BlocksMeaning(block: nat -> seq<Constraint>, count: nat, asg: Assignment)
    ensures AllHold(Blocks(block, count), asg) <==> forall n :: 0 <= n < count ==> AllHold(block(n), asg)
  {
    if count > 0 {
      BlocksMeaning(block, count - 1, asg);
      AllHoldConcat(Blocks(block, count - 1), block(count - 1), asg);
    }
  }

  /** Two assignments that agree on every variable give every expression
      the same value. */
  lemma {:induction false} EvalAgree(e: Expr, a: Assignment, b: Assignment)
    requires forall v :: a(v) == b(v)
    ensures Eval(e, a) == Eval(e, b)
  {
    match e
    case Const(_) =>
    case Ref(_) =>
    case Add(l, r) => EvalAgree(l, a, b); EvalAgree(r, a, b);
    case Sub(l, r) => EvalAgree(l, a, b); EvalAgree(r, a, b);
    case Mul(_, x) => EvalAgree(x, a, b);
    case Div(x, _) => EvalAgree(x, a, b);
    case Pow(x, _) => EvalAgree(x, a, b);
  }

  /** ... and satisfy the same constraints. */
  lemma AllHoldAgree(cs: seq<Constraint>, a: Assignment, b: Assignment)
    requires forall v :: a(v) == b(v)
    ensures AllHold(cs, a) <==> AllHold(cs, b)
  {
    forall c | c in cs ensures Holds(c, a) <==> Holds(c, b) {
      EvalAgree(c.lhs, a, b);
      EvalAgree(c.rhs, a, b);
    }
  }
}

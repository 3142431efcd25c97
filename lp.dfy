/**
  A small symbolic linear program, standing for the part of the PuLP
  library the planning model uses: variables keyed by a family and a
  (product, period) pair, affine expressions as lists of coefficient/variable
  terms, and constraints of the form `Σ coef·x + constant ⋈ 0` with ⋈ one of
  `==` and `<=` (PuLP keeps `lhs == rhs` and `lhs <= rhs` as `lhs - rhs`
  together with a sense).  A plan is a value for every variable.
 */
module LinearProgram {
  import opened Grids

  type Product = string
  type Period = int

  datatype Family = Production | Inventory | Backlog

  /** The identity of one decision variable. */
  datatype Var = Var(family: Family, product: Product, period: Period)

  /** A declared LP variable: its identity and its lower bound. */
  datatype LpVariable = LpVariable(id: Var, lowBound: real)

  datatype Term = Term(coef: real, v: Var)

  datatype Relation = Eq | Le

  datatype Constraint = Constraint(terms: seq<Term>, constant: real, rel: Relation)

  datatype Sense = Minimize | Maximize

  /** An assignment of a value to every variable (what a solver returns). */
  type Plan = Var -> real

  /** Value of Σ coef·x over the terms. */
  function Value(terms: seq<Term>, x: Plan): real
    decreases |terms|
  {
    if terms == [] then 0.0 else terms[0].coef * x(terms[0].v) + Value(terms[1..], x)
  }

  predicate Holds(c: Constraint, x: Plan)
  {
    var lhs := Value(c.terms, x) + c.constant;
    match c.rel
    case Eq => lhs == 0.0
    case Le => lhs <= 0.0
  }

  /** Every constraint of the list holds. */
  ghost predicate SatisfiesAll(cs: seq<Constraint>, x: Plan)
  {
    forall k :: 0 <= k < |cs| ==> Holds(cs[k], x)
  }

  /** The plan checker: walks the constraint list and tests each one. */
  function CheckPlan(cs: seq<Constraint>, x: Plan): (ok: bool)
    ensures ok <==> SatisfiesAll(cs, x)
    decreases |cs|
  {
    if cs == [] then true
    else
      var rest := CheckPlan(cs[1..], x);
      assert SatisfiesAll(cs[1..], x) ==> (forall k :: 1 <= k < |cs| ==> Holds(cs[k], x)) by {
        forall k | 1 <= k < |cs| ensures cs[k] == cs[1..][k - 1] {}
      }
      Holds(cs[0], x) && rest
  }

  /** Every declared variable takes a value at or above its lower bound. */
  predicate WithinBounds<K>(vars: map<Family, map<K, LpVariable>>, x: Plan)
  {
    forall f, k :: f in vars && k in vars[f] ==> x(vars[f][k].id) >= vars[f][k].lowBound
  }

  lemma {:induction false} ValueAppend(a: seq<Term>, b: seq<Term>, x: Plan)
    ensures Value(a + b, x) == Value(a, x) + Value(b, x)
    decreases |a|
  {
    if a != [] {
      assert (a + b)[1..] == a[1..] + b;
      ValueAppend(a[1..], b, x);
    } else {
      assert a + b == b;
    }
  }

  lemma ValueAppend3(a: seq<Term>, b: seq<Term>, c: seq<Term>, x: Plan)
    ensures Value(a + b + c, x) == Value(a, x) + Value(b, x) + Value(c, x)
  {
    ValueAppend(a + b, c, x);
    ValueAppend(a, b, x);
  }

  /** A constraint list appended to another is satisfied exactly when both are. */
  lemma {:induction false} SatisfiesAllAppend(a: seq<Constraint>, b: seq<Constraint>, x: Plan)
    ensures SatisfiesAll(a + b, x) <==> SatisfiesAll(a, x) && SatisfiesAll(b, x)
  {
    if SatisfiesAll(a + b, x) {
      forall k | 0 <= k < |a| ensures Holds(a[k], x) {
        assert a[k] == (a + b)[k];
      }
      forall k | 0 <= k < |b| ensures Holds(b[k], x) {
        assert b[k] == (a + b)[|a| + k];
      }
    }
    if SatisfiesAll(a, x) && SatisfiesAll(b, x) {
      forall k | 0 <= k < |a + b| ensures Holds((a + b)[k], x) {
        if k < |a| { assert (a + b)[k] == a[k]; } else { assert (a + b)[k] == b[k - |a|]; }
      }
    }
  }

  /** The value of a strip of terms is the strip-sum of the cell values. */
  lemma {:induction false} ValueStrip<P, T>(p: P, ts: seq<T>, f: (P, T) --> Term, h: (P, T) --> real, x: Plan)
    requires forall j :: 0 <= j < |ts| ==>
      f.requires(p, ts[j]) && h.requires(p, ts[j]) && h(p, ts[j]) == f(p, ts[j]).coef * x(f(p, ts[j]).v)
    ensures Value(Strip(p, ts, f), x) == StripSum(p, ts, h)
    decreases |ts|
  {
    if ts != [] {
      assert Strip(p, ts, f)[1..] == Strip(p, ts[1..], f);
      ValueStrip(p, ts[1..], f, h, x);
    }
  }

  /** The value of a grid of terms is the cell-sum of the cell values. */
  lemma {:induction false} ValueGrid<P, T>(ps: seq<P>, ts: seq<T>, f: (P, T) --> Term, h: (P, T) --> real, x: Plan)
    requires forall i, j :: 0 <= i < |ps| && 0 <= j < |ts| ==>
      f.requires(ps[i], ts[j]) && h.requires(ps[i], ts[j]) && h(ps[i], ts[j]) == f(ps[i], ts[j]).coef * x(f(ps[i], ts[j]).v)
    ensures Value(Grid(ps, ts, f), x) == CellSum(ps, ts, h)
    decreases |ps|
  {
    if ps != [] {
      var n := |ps|;
      ValueGrid(ps[..n - 1], ts, f, h, x);
      ValueStrip(ps[n - 1], ts, f, h, x);
      ValueAppend(Grid(ps[..n - 1], ts, f), Strip(ps[n - 1], ts, f), x);
    }
  }
}

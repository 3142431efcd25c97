/**
  The products × periods grid in the order the builder walks it: an outer
  loop over products and, for each product, an inner loop over periods
  ("product-major" order).  Every per-(product, period) collection of the
  model (demand constraints, objective terms, result rows) is a Grid.
 */
module Grids {

  /** The cells of one product, in period order. */
  function Strip<P, T, R>(p: P, ts: seq<T>, f: (P, T) --> R): (r: seq<R>)
    requires forall j :: 0 <= j < |ts| ==> f.requires(p, ts[j])
  {
    seq(|ts|, j requires 0 <= j < |ts| => f(p, ts[j]))
  }

  /** All cells, product-major: the strip of every product in product order. */
  function Grid<P, T, R>(ps: seq<P>, ts: seq<T>, f: (P, T) --> R): (r: seq<R>)
    requires forall i, j :: 0 <= i < |ps| && 0 <= j < |ts| ==> f.requires(ps[i], ts[j])
    decreases |ps|
  {
    if ps == [] then [] else Grid(ps[..|ps| - 1], ts, f) + Strip(ps[|ps| - 1], ts, f)
  }

  /** Sum of a real-valued cell function over the grid. */
  function CellSum<P, T>(ps: seq<P>, ts: seq<T>, g: (P, T) --> real): real
    requires forall i, j :: 0 <= i < |ps| && 0 <= j < |ts| ==> g.requires(ps[i], ts[j])
    decreases |ps|
  {
    if ps == [] then 0.0 else CellSum(ps[..|ps| - 1], ts, g) + StripSum(ps[|ps| - 1], ts, g)
  }

  /** Sum of a real-valued cell function over the periods of one product. */
  function StripSum<P, T>(p: P, ts: seq<T>, g: (P, T) --> real): real
    requires forall j :: 0 <= j < |ts| ==> g.requires(p, ts[j])
    decreases |ts|
  {
    if ts == [] then 0.0 else g(p, ts[0]) + StripSum(p, ts[1..], g)
  }

  lemma MulStep(k: int, m: int)
    ensures (k + 1) * m == k * m + m
  {}

  /** A grid has one entry per (product, period) pair. */
  lemma {:induction false} GridLength<P, T, R>(ps: seq<P>, ts: seq<T>, f: (P, T) --> R)
    requires forall i, j :: 0 <= i < |ps| && 0 <= j < |ts| ==> f.requires(ps[i], ts[j])
    ensures |Grid(ps, ts, f)| == |ps| * |ts|
    decreases |ps|
  {
    if ps != [] {
      GridLength(ps[..|ps| - 1], ts, f);
      MulStep(|ps| - 1, |ts|);
    }
  }

  /** Product-major order: the cell of the i-th product and the j-th period
      sits at position i·|ts| + j. */
  lemma {:induction false} GridAt<P, T, R>(ps: seq<P>, ts: seq<T>, f: (P, T) --> R, i: int, j: int)
    requires forall i, j :: 0 <= i < |ps| && 0 <= j < |ts| ==> f.requires(ps[i], ts[j])
    requires 0 <= i < |ps| && 0 <= j < |ts|
    ensures |Grid(ps, ts, f)| == |ps| * |ts|
    ensures 0 <= i * |ts| + j < |Grid(ps, ts, f)|
    ensures Grid(ps, ts, f)[i * |ts| + j] == f(ps[i], ts[j])
    decreases |ps|
  {
    GridLength(ps, ts, f);
    var n, m := |ps|, |ts|;
    var front := ps[..n - 1];
    GridLength(front, ts, f);
    MulStep(n - 1, m);
    if i == n - 1 {
      assert Grid(ps, ts, f) == Grid(front, ts, f) + Strip(ps[n - 1], ts, f);
    } else {
      GridAt(front, ts, f, i, j);
      MulStep(i, m);
      MulLe(i + 1, n - 1, m);
      assert (i + 1) * m <= (n - 1) * m;
    }
    MulLe(i + 1, n, m);
    MulStep(i, m);
  }

  lemma {:induction false} MulLe(a: nat, b: nat, m: nat)
    requires a <= b
    ensures a * m <= b * m
    decreases b - a
  {
    if a < b {
      MulLe(a + 1, b, m);
      MulStep(a, m);
    }
  }

  /** Every entry of a grid is the cell function's value at some (product, period). */
  lemma {:induction false} GridMember<P, T, R>(ps: seq<P>, ts: seq<T>, f: (P, T) --> R, r: R)
    requires forall i, j :: 0 <= i < |ps| && 0 <= j < |ts| ==> f.requires(ps[i], ts[j])
    requires r in Grid(ps, ts, f)
    ensures exists i, j :: 0 <= i < |ps| && 0 <= j < |ts| && r == f(ps[i], ts[j])
    decreases |ps|
  {
    var n := |ps|;
    var front := ps[..n - 1];
    if r in Grid(front, ts, f) {
      GridMember(front, ts, f, r);
      var i, j :| 0 <= i < |front| && 0 <= j < |ts| && r == f(front[i], ts[j]);
      assert front[i] == ps[i];
    } else {
      var s := Strip(ps[n - 1], ts, f);
      assert r in s;
      var j :| 0 <= j < |s| && s[j] == r;
      assert r == f(ps[n - 1], ts[j]);
    }
  }

  /** Two cell functions that agree on every cell give the same grid. */
  lemma {:induction false} GridExt<P, T, R>(ps: seq<P>, ts: seq<T>, f: (P, T) --> R, g: (P, T) --> R)
    requires forall i, j :: 0 <= i < |ps| && 0 <= j < |ts| ==> f.requires(ps[i], ts[j])
    requires forall i, j :: 0 <= i < |ps| && 0 <= j < |ts| ==> g.requires(ps[i], ts[j]) && g(ps[i], ts[j]) == f(ps[i], ts[j])
    ensures Grid(ps, ts, f) == Grid(ps, ts, g)
    decreases |ps|
  {
    if ps != [] {
      var front := ps[..|ps| - 1];
      GridExt(front, ts, f, g);
      assert Strip(ps[|ps| - 1], ts, f) == Strip(ps[|ps| - 1], ts, g);
    }
  }

  /** Sums are linear: a cell function that is pointwise g1 + g2 + g3 sums to
      the sum of the three sums. */
  lemma {:induction false} CellSumAdd3<P, T>(ps: seq<P>, ts: seq<T>, g: (P, T) --> real,
                                             g1: (P, T) --> real, g2: (P, T) --> real, g3: (P, T) --> real)
    requires forall i, j :: 0 <= i < |ps| && 0 <= j < |ts| ==>
      g.requires(ps[i], ts[j]) && g1.requires(ps[i], ts[j]) && g2.requires(ps[i], ts[j]) && g3.requires(ps[i], ts[j]) &&
      g(ps[i], ts[j]) == g1(ps[i], ts[j]) + g2(ps[i], ts[j]) + g3(ps[i], ts[j])
    ensures CellSum(ps, ts, g) == CellSum(ps, ts, g1) + CellSum(ps, ts, g2) + CellSum(ps, ts, g3)
    decreases |ps|
  {
    if ps != [] {
      var front := ps[..|ps| - 1];
      CellSumAdd3(front, ts, g, g1, g2, g3);
      StripSumAdd3(ps[|ps| - 1], ts, g, g1, g2, g3);
    }
  }

  lemma {:induction false} StripSumAdd3<P, T>(p: P, ts: seq<T>, g: (P, T) --> real,
                                              g1: (P, T) --> real, g2: (P, T) --> real, g3: (P, T) --> real)
    requires forall j :: 0 <= j < |ts| ==>
      g.requires(p, ts[j]) && g1.requires(p, ts[j]) && g2.requires(p, ts[j]) && g3.requires(p, ts[j]) &&
      g(p, ts[j]) == g1(p, ts[j]) + g2(p, ts[j]) + g3(p, ts[j])
    ensures StripSum(p, ts, g) == StripSum(p, ts, g1) + StripSum(p, ts, g2) + StripSum(p, ts, g3)
    decreases |ts|
  {
    if ts != [] {
      StripSumAdd3(p, ts[1..], g, g1, g2, g3);
    }
  }

  /** Extending the periods by one adds the cell of the next period. */
  lemma StripSnoc<P, T, R>(p: P, ts: seq<T>, k: int, f: (P, T) --> R)
    requires 0 <= k < |ts|
    requires forall j :: 0 <= j < |ts| ==> f.requires(p, ts[j])
    ensures Strip(p, ts[..k + 1], f) == Strip(p, ts[..k], f) + [f(p, ts[k])]
  {
  }

  /** Extending the products by one adds the strip of the next product. */
  lemma GridSnoc<P, T, R>(ps: seq<P>, ts: seq<T>, k: int, f: (P, T) --> R)
    requires 0 <= k < |ps|
    requires forall i, j :: 0 <= i < |ps| && 0 <= j < |ts| ==> f.requires(ps[i], ts[j])
    ensures Grid(ps[..k + 1], ts, f) == Grid(ps[..k], ts, f) + Strip(ps[k], ts, f)
  {
    assert ps[..k + 1][..k] == ps[..k];
  }

  /** GridMember for every entry at once. */
  lemma {:induction false} GridMembers<P, T, R>(ps: seq<P>, ts: seq<T>, f: (P, T) --> R)
    requires forall i, j :: 0 <= i < |ps| && 0 <= j < |ts| ==> f.requires(ps[i], ts[j])
    ensures forall r :: r in Grid(ps, ts, f) ==> exists i, j :: 0 <= i < |ps| && 0 <= j < |ts| && r == f(ps[i], ts[j])
  {
    forall r | r in Grid(ps, ts, f)
      ensures exists i, j :: 0 <= i < |ps| && 0 <= j < |ts| && r == f(ps[i], ts[j])
    {
      GridMember(ps, ts, f, r);
    }
  }
}

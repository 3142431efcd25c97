/**
  The production-planning formulation as values: the constraint each
  builder step adds for one (product, period) pair or one period, the
  objective's terms, and what each of them means for a plan.  The class in
  model.dfy appends exactly these values to its model.
 */
module Formulation {
  import opened LinearProgram
  import opened Grids

  /** The first period, whose constraint uses the initial inventory. */
  function First(ts: seq<Period>): Period
  {
    if ts == [] then 0 else ts[0]
  }

  /** The lookups the demand constraint of (p, t) makes in the demand table
      and the initial inventory all succeed. */
  predicate CellDefined(p: Product, t: Period, first: Period,
                        init: map<Product, real>, demand: map<Product, map<Period, real>>)
  {
    p in demand && t in demand[p] && (t == first ==> p in init)
  }

  predicate DemandDefined(ps: seq<Product>, ts: seq<Period>,
                          init: map<Product, real>, demand: map<Product, map<Period, real>>)
  {
    forall p, t :: p in ps && t in ts ==> CellDefined(p, t, First(ts), init, demand)
  }

  /** The demand-balance constraint of product p in period t.  The first
      period balances against the initial inventory; every later period
      against the ending inventory and backlog of period t - 1. */
  function DemandConstraint(p: Product, t: Period, first: Period,
                            init: map<Product, real>, demand: map<Product, map<Period, real>>): Constraint
    requires CellDefined(p, t, first, init, demand)
  {
    if t == first then
      Constraint([Term(1.0, Var(Production, p, t)), Term(-1.0, Var(Inventory, p, t)), Term(1.0, Var(Backlog, p, t))],
                 init[p] - demand[p][t], Eq)
    else
      Constraint([Term(1.0, Var(Inventory, p, t - 1)), Term(1.0, Var(Production, p, t)),
                  Term(-1.0, Var(Inventory, p, t)), Term(1.0, Var(Backlog, p, t)),
                  Term(-1.0, Var(Backlog, p, t - 1))],
                 -demand[p][t], Eq)
  }

  function DemandCell(first: Period, init: map<Product, real>, demand: map<Product, map<Period, real>>)
    : (Product, Period) --> Constraint
  {
    (p: Product, t: Period) requires CellDefined(p, t, first, init, demand) => DemandConstraint(p, t, first, init, demand)
  }

  /** The constraints add_demand_constraints adds, product-major. */
  function DemandConstraints(ps: seq<Product>, ts: seq<Period>,
                             init: map<Product, real>, demand: map<Product, map<Period, real>>): seq<Constraint>
    requires DemandDefined(ps, ts, init, demand)
  {
    Grid(ps, ts, DemandCell(First(ts), init, demand))
  }

  /** The balance equation of (p, t) written over plan values: carry-in plus
      production, minus ending inventory, plus backlog, minus the backlog
      carried in, equals demand. */
  predicate Balanced(p: Product, t: Period, first: Period,
                     init: map<Product, real>, demand: map<Product, map<Period, real>>, x: Plan)
    requires CellDefined(p, t, first, init, demand)
  {
    if t == first then
      init[p] + x(Var(Production, p, t)) - x(Var(Inventory, p, t)) + x(Var(Backlog, p, t)) == demand[p][t]
    else
      x(Var(Inventory, p, t - 1)) + x(Var(Production, p, t)) - x(Var(Inventory, p, t))
        + x(Var(Backlog, p, t)) - x(Var(Backlog, p, t - 1)) == demand[p][t]
  }

  /** A plan satisfies the demand constraint of (p, t) exactly when the
      balance equation of (p, t) holds. */
  lemma {:induction false} DemandConstraintHolds(p: Product, t: Period, first: Period,
                              init: map<Product, real>, demand: map<Product, map<Period, real>>, x: Plan)
    requires CellDefined(p, t, first, init, demand)
    ensures Holds(DemandConstraint(p, t, first, init, demand), x) <==> Balanced(p, t, first, init, demand, x)
  {
    var c := DemandConstraint(p, t, first, init, demand);
    var prod, inv, back := x(Var(Production, p, t)), x(Var(Inventory, p, t)), x(Var(Backlog, p, t));
    if t == first {
      var a, b, d := Term(1.0, Var(Production, p, t)), Term(-1.0, Var(Inventory, p, t)), Term(1.0, Var(Backlog, p, t));
      assert c.terms == [a, b, d];
      assert [a, b, d][1..] == [b, d] && [b, d][1..] == [d] && [d][1..] == [];
      assert Value([d], x) == back;
      assert Value([b, d], x) == -inv + back;
      assert Value(c.terms, x) == prod - inv + back;
    } else {
      var invIn, backIn := x(Var(Inventory, p, t - 1)), x(Var(Backlog, p, t - 1));
      var a, b, d := Term(1.0, Var(Inventory, p, t - 1)), Term(1.0, Var(Production, p, t)), Term(-1.0, Var(Inventory, p, t));
      var e, g := Term(1.0, Var(Backlog, p, t)), Term(-1.0, Var(Backlog, p, t - 1));
      assert c.terms == [a, b, d, e, g];
      assert [a, b, d, e, g][1..] == [b, d, e, g] && [b, d, e, g][1..] == [d, e, g];
      assert [d, e, g][1..] == [e, g] && [e, g][1..] == [g] && [g][1..] == [];
      assert Value([g], x) == -backIn;
      assert Value([e, g], x) == back - backIn;
      assert Value([d, e, g], x) == -inv + back - backIn;
      assert Value([b, d, e, g], x) == prod - inv + back - backIn;
      assert Value(c.terms, x) == invIn + prod - inv + back - backIn;
    }
  }

  /** Product-major order: the demand constraint of the i-th product and the
      j-th period is at position i·|ts| + j. */
  lemma {:induction false} DemandConstraintAt(ps: seq<Product>, ts: seq<Period>,
                           init: map<Product, real>, demand: map<Product, map<Period, real>>, i: int, j: int)
    requires DemandDefined(ps, ts, init, demand)
    requires 0 <= i < |ps| && 0 <= j < |ts|
    ensures |DemandConstraints(ps, ts, init, demand)| == |ps| * |ts|
    ensures 0 <= i * |ts| + j < |ps| * |ts|
    ensures DemandConstraints(ps, ts, init, demand)[i * |ts| + j] == DemandConstraint(ps[i], ts[j], First(ts), init, demand)
  {
    GridAt(ps, ts, DemandCell(First(ts), init, demand), i, j);
  }

  /** Every demand constraint is an equality, and is the constraint of some
      (product, period) pair of the grid. */
  lemma {:induction false} DemandConstraintsAreCells(ps: seq<Product>, ts: seq<Period>,
                                  init: map<Product, real>, demand: map<Product, map<Period, real>>, c: Constraint)
    requires DemandDefined(ps, ts, init, demand)
    requires c in DemandConstraints(ps, ts, init, demand)
    ensures c.rel == Eq
    ensures exists i, j :: 0 <= i < |ps| && 0 <= j < |ts| && c == DemandConstraint(ps[i], ts[j], First(ts), init, demand)
  {
    var f := DemandCell(First(ts), init, demand);
    GridMember(ps, ts, f, c);
    var i, j :| 0 <= i < |ps| && 0 <= j < |ts| && c == f(ps[i], ts[j]);
    assert c == DemandConstraint(ps[i], ts[j], First(ts), init, demand);
  }

  /** A plan satisfies all demand constraints exactly when every (product,
      period) pair is balanced. */
  lemma {:induction false} DemandConstraintsSatisfied(ps: seq<Product>, ts: seq<Period>,
                                   init: map<Product, real>, demand: map<Product, map<Period, real>>, x: Plan)
    requires DemandDefined(ps, ts, init, demand)
    ensures SatisfiesAll(DemandConstraints(ps, ts, init, demand), x) <==>
      (forall p, t :: p in ps && t in ts ==> Balanced(p, t, First(ts), init, demand, x))
  {
    if SatisfiesAll(DemandConstraints(ps, ts, init, demand), x) {
      SatisfiedIsBalanced(ps, ts, init, demand, x);
    }
    if forall p, t :: p in ps && t in ts ==> Balanced(p, t, First(ts), init, demand, x) {
      BalancedIsSatisfied(ps, ts, init, demand, x);
    }
  }

  lemma {:induction false} SatisfiedIsBalanced(ps: seq<Product>, ts: seq<Period>,
                            init: map<Product, real>, demand: map<Product, map<Period, real>>, x: Plan)
    requires DemandDefined(ps, ts, init, demand)
    requires SatisfiesAll(DemandConstraints(ps, ts, init, demand), x)
    ensures forall p, t :: p in ps && t in ts ==> Balanced(p, t, First(ts), init, demand, x)
  {
    forall p, t | p in ps && t in ts ensures Balanced(p, t, First(ts), init, demand, x) {
      var i :| 0 <= i < |ps| && ps[i] == p;
      var j :| 0 <= j < |ts| && ts[j] == t;
      DemandConstraintAt(ps, ts, init, demand, i, j);
      DemandConstraintHolds(p, t, First(ts), init, demand, x);
    }
  }

  lemma {:induction false} BalancedIsSatisfied(ps: seq<Product>, ts: seq<Period>,
                            init: map<Product, real>, demand: map<Product, map<Period, real>>, x: Plan)
    requires DemandDefined(ps, ts, init, demand)
    requires forall p, t :: p in ps && t in ts ==> Balanced(p, t, First(ts), init, demand, x)
    ensures SatisfiesAll(DemandConstraints(ps, ts, init, demand), x)
  {
    var cs := DemandConstraints(ps, ts, init, demand);
    forall k | 0 <= k < |cs| ensures Holds(cs[k], x) {
      DemandConstraintsAreCells(ps, ts, init, demand, cs[k]);
      var i, j :| 0 <= i < |ps| && 0 <= j < |ts| && cs[k] == DemandConstraint(ps[i], ts[j], First(ts), init, demand);
      DemandConstraintHolds(ps[i], ts[j], First(ts), init, demand, x);
    }
  }

  // ----- capacity -----

  /** The production variables of every product in period t. */
  function ProductionTerms(ps: seq<Product>, t: Period): seq<Term>
  {
    seq(|ps|, i requires 0 <= i < |ps| => Term(1.0, Var(Production, ps[i], t)))
  }

  /** Σ_p production[p, t] <= capacity. */
  function CapacityConstraint(ps: seq<Product>, t: Period, capacity: real): Constraint
  {
    Constraint(ProductionTerms(ps, t), -capacity, Le)
  }

  /** The constraints add_capacity_constraints adds, one per period. */
  function CapacityConstraints(ps: seq<Product>, ts: seq<Period>, capacity: real): seq<Constraint>
  {
    seq(|ts|, j requires 0 <= j < |ts| => CapacityConstraint(ps, ts[j], capacity))
  }

  /** Total planned production of period t over the products. */
  function PeriodProduction(ps: seq<Product>, t: Period, x: Plan): real
    decreases |ps|
  {
    if ps == [] then 0.0 else x(Var(Production, ps[0], t)) + PeriodProduction(ps[1..], t, x)
  }

  lemma {:induction false} ProductionTermsValue(ps: seq<Product>, t: Period, x: Plan)
    ensures Value(ProductionTerms(ps, t), x) == PeriodProduction(ps, t, x)
    decreases |ps|
  {
    if ps != [] {
      assert ProductionTerms(ps, t)[1..] == ProductionTerms(ps[1..], t);
      ProductionTermsValue(ps[1..], t, x);
    }
  }

  /** A plan satisfies the capacity constraint of period t exactly when the
      period's total production is at most the capacity. */
  lemma {:induction false} CapacityConstraintHolds(ps: seq<Product>, t: Period, capacity: real, x: Plan)
    ensures Holds(CapacityConstraint(ps, t, capacity), x) <==> PeriodProduction(ps, t, x) <= capacity
  {
    ProductionTermsValue(ps, t, x);
  }

  /** One `<=` constraint per period, with the same capacity in each, and a
      plan satisfies them all exactly when no period produces more than the
      capacity. */
  lemma {:induction false} CapacityConstraintsSatisfied(ps: seq<Product>, ts: seq<Period>, capacity: real, x: Plan)
    ensures |CapacityConstraints(ps, ts, capacity)| == |ts|
    ensures forall j :: 0 <= j < |ts| ==>
      CapacityConstraints(ps, ts, capacity)[j].rel == Le && CapacityConstraints(ps, ts, capacity)[j].constant == -capacity
    ensures SatisfiesAll(CapacityConstraints(ps, ts, capacity), x) <==>
      (forall j :: 0 <= j < |ts| ==> PeriodProduction(ps, ts[j], x) <= capacity)
  {
    var cs := CapacityConstraints(ps, ts, capacity);
    forall j | 0 <= j < |ts|
      ensures Holds(cs[j], x) <==> PeriodProduction(ps, ts[j], x) <= capacity
    {
      CapacityConstraintHolds(ps, ts[j], capacity, x);
    }
  }

  // ----- objective -----

  /** Every product has an entry in the cost table (needed only when there
      is at least one period to sum over). */
  predicate CostKeys(ps: seq<Product>, ts: seq<Period>, cost: map<Product, real>)
  {
    ts != [] ==> forall p :: p in ps ==> p in cost
  }

  predicate CostsDefined(ps: seq<Product>, ts: seq<Period>,
                         pc: map<Product, real>, ic: map<Product, real>, bc: map<Product, real>)
  {
    CostKeys(ps, ts, pc) && CostKeys(ps, ts, ic) && CostKeys(ps, ts, bc)
  }

  function CostCell(f: Family, cost: map<Product, real>): (Product, Period) --> Term
  {
    (p: Product, t: Period) requires p in cost => Term(cost[p], Var(f, p, t))
  }

  /** One of the three cost sums of the objective: cost[p] times family f's
      variable of (p, t), over the grid, product-major. */
  function FamilyTerms(ps: seq<Product>, ts: seq<Period>, f: Family, cost: map<Product, real>): seq<Term>
    requires CostKeys(ps, ts, cost)
  {
    Grid(ps, ts, CostCell(f, cost))
  }

  /** The objective set_objective builds: the production-cost sum, then the
      holding-cost sum, then the backlog-cost sum. */
  function ObjectiveTerms(ps: seq<Product>, ts: seq<Period>,
                          pc: map<Product, real>, ic: map<Product, real>, bc: map<Product, real>): seq<Term>
    requires CostsDefined(ps, ts, pc, ic, bc)
  {
    FamilyTerms(ps, ts, Production, pc) + FamilyTerms(ps, ts, Inventory, ic) + FamilyTerms(ps, ts, Backlog, bc)
  }

  /** Cost of one (product, period) pair under a plan. */
  function CellCost(p: Product, t: Period,
                    pc: map<Product, real>, ic: map<Product, real>, bc: map<Product, real>, x: Plan): real
    requires p in pc && p in ic && p in bc
  {
    pc[p] * x(Var(Production, p, t)) + ic[p] * x(Var(Inventory, p, t)) + bc[p] * x(Var(Backlog, p, t))
  }

  /** Reference definition of the total cost: the sum of the cell costs over
      every (product, period) pair. */
  function TotalCost(ps: seq<Product>, ts: seq<Period>,
                     pc: map<Product, real>, ic: map<Product, real>, bc: map<Product, real>, x: Plan): real
    requires CostsDefined(ps, ts, pc, ic, bc)
  {
    CellSum(ps, ts, CellCostOf(pc, ic, bc, x))
  }

  function CellCostOf(pc: map<Product, real>, ic: map<Product, real>, bc: map<Product, real>, x: Plan)
    : (Product, Period) --> real
  {
    (p: Product, t: Period) requires p in pc && p in ic && p in bc => CellCost(p, t, pc, ic, bc, x)
  }

  /** Cost of family f's variable in (p, t) under a plan. */
  function FamilyCost(f: Family, cost: map<Product, real>, x: Plan): (Product, Period) --> real
  {
    (p: Product, t: Period) requires p in cost => cost[p] * x(Var(f, p, t))
  }

  /** Family f's cost summed over the grid. */
  function FamilyCostSum(ps: seq<Product>, ts: seq<Period>, f: Family, cost: map<Product, real>, x: Plan): real
    requires CostKeys(ps, ts, cost)
  {
    CellSum(ps, ts, FamilyCost(f, cost, x))
  }

  lemma {:induction false} FamilyTermsValue(ps: seq<Product>, ts: seq<Period>, f: Family, cost: map<Product, real>, x: Plan)
    requires CostKeys(ps, ts, cost)
    ensures |FamilyTerms(ps, ts, f, cost)| == |ps| * |ts|
    ensures Value(FamilyTerms(ps, ts, f, cost), x) == FamilyCostSum(ps, ts, f, cost, x)
  {
    GridLength(ps, ts, CostCell(f, cost));
    ValueGrid(ps, ts, CostCell(f, cost), FamilyCost(f, cost, x), x);
  }

  /** The objective's value under any plan is the total cost, and it has
      three terms per (product, period) pair. */
  lemma {:induction false} ObjectiveIsTotalCost(ps: seq<Product>, ts: seq<Period>,
                             pc: map<Product, real>, ic: map<Product, real>, bc: map<Product, real>, x: Plan)
    requires CostsDefined(ps, ts, pc, ic, bc)
    ensures |ObjectiveTerms(ps, ts, pc, ic, bc)| == 3 * (|ps| * |ts|)
    ensures Value(ObjectiveTerms(ps, ts, pc, ic, bc), x) == TotalCost(ps, ts, pc, ic, bc, x)
  {
    ObjectiveByFamily(ps, ts, pc, ic, bc, x);
    TotalCostByFamily(ps, ts, pc, ic, bc, x);
  }

  /** The objective's value is the sum of the three per-family cost sums. */
  lemma {:induction false} ObjectiveByFamily(ps: seq<Product>, ts: seq<Period>,
                          pc: map<Product, real>, ic: map<Product, real>, bc: map<Product, real>, x: Plan)
    requires CostsDefined(ps, ts, pc, ic, bc)
    ensures |ObjectiveTerms(ps, ts, pc, ic, bc)| == 3 * (|ps| * |ts|)
    ensures Value(ObjectiveTerms(ps, ts, pc, ic, bc), x) ==
      FamilyCostSum(ps, ts, Production, pc, x) + FamilyCostSum(ps, ts, Inventory, ic, x)
        + FamilyCostSum(ps, ts, Backlog, bc, x)
  {
    FamilyTermsValue(ps, ts, Production, pc, x);
    FamilyTermsValue(ps, ts, Inventory, ic, x);
    FamilyTermsValue(ps, ts, Backlog, bc, x);
    ValueAppend3(FamilyTerms(ps, ts, Production, pc), FamilyTerms(ps, ts, Inventory, ic), FamilyTerms(ps, ts, Backlog, bc), x);
  }

  /** The total cost is the production-cost sum plus the holding-cost sum
      plus the backlog-cost sum. */
  lemma {:induction false} TotalCostByFamily(ps: seq<Product>, ts: seq<Period>,
                          pc: map<Product, real>, ic: map<Product, real>, bc: map<Product, real>, x: Plan)
    requires CostsDefined(ps, ts, pc, ic, bc)
    ensures TotalCost(ps, ts, pc, ic, bc, x) ==
      FamilyCostSum(ps, ts, Production, pc, x) + FamilyCostSum(ps, ts, Inventory, ic, x)
        + FamilyCostSum(ps, ts, Backlog, bc, x)
  {
    CellSumAdd3(ps, ts, CellCostOf(pc, ic, bc, x), FamilyCost(Production, pc, x), FamilyCost(Inventory, ic, x), FamilyCost(Backlog, bc, x));
  }

  // ----- the whole constraint list -----

  /** A plan satisfies the demand constraints followed by the capacity
      constraints exactly when every (product, period) pair is balanced and
      no period's production exceeds the capacity. */
  lemma PlanningConstraintsSatisfied(ps: seq<Product>, ts: seq<Period>, init: map<Product, real>,
                                     demand: map<Product, map<Period, real>>, capacity: real, x: Plan)
    requires DemandDefined(ps, ts, init, demand)
    ensures SatisfiesAll(DemandConstraints(ps, ts, init, demand) + CapacityConstraints(ps, ts, capacity), x) <==>
      (forall p, t :: p in ps && t in ts ==> Balanced(p, t, First(ts), init, demand, x)) &&
      (forall j :: 0 <= j < |ts| ==> PeriodProduction(ps, ts[j], x) <= capacity)
  {
    SatisfiesAllAppend(DemandConstraints(ps, ts, init, demand), CapacityConstraints(ps, ts, capacity), x);
    DemandConstraintsSatisfied(ps, ts, init, demand, x);
    CapacityConstraintsSatisfied(ps, ts, capacity, x);
  }

  // ----- inventory balance over a contiguous horizon -----

  /** The contiguous horizon 0, 1, ..., n - 1. */
  function Periods(n: nat): (ts: seq<Period>)
    ensures |ts| == n && forall t :: 0 <= t < n ==> ts[t] == t
  {
    seq(n, t => t)
  }

  /** Production of product p in periods 0 .. k - 1. */
  function ProducedUpTo(p: Product, k: nat, x: Plan): real
  {
    if k == 0 then 0.0 else ProducedUpTo(p, k - 1, x) + x(Var(Production, p, k - 1))
  }

  /** Demand for product p in periods 0 .. k - 1. */
  function DemandUpTo(p: Product, k: nat, demand: map<Product, map<Period, real>>): real
    requires p in demand && forall t :: 0 <= t < k ==> t in demand[p]
  {
    if k == 0 then 0.0 else DemandUpTo(p, k - 1, demand) + demand[p][k - 1]
  }

  /** Summing the balance equations of periods 0 .. k - 1 telescopes: the
      carried inventory and backlog of every inner period cancel. */
  lemma {:induction false} BalancePrefix(p: Product, k: nat,
                                         init: map<Product, real>, demand: map<Product, map<Period, real>>, x: Plan)
    requires 1 <= k
    requires p in init && p in demand && forall t :: 0 <= t < k ==> t in demand[p]
    requires forall t :: 0 <= t < k ==> CellDefined(p, t, 0, init, demand) && Balanced(p, t, 0, init, demand, x)
    ensures init[p] + ProducedUpTo(p, k, x) - x(Var(Inventory, p, k - 1)) + x(Var(Backlog, p, k - 1))
            == DemandUpTo(p, k, demand)
    decreases k
  {
    assert CellDefined(p, k - 1, 0, init, demand) && Balanced(p, k - 1, 0, init, demand, x);
    if k > 1 {
      BalancePrefix(p, k - 1, init, demand, x);
    }
  }

  /** Over the horizon 0 .. n - 1, a plan that satisfies every demand
      constraint meets, for each product, the whole-horizon balance:
      initial inventory plus total production, minus the last period's
      inventory, plus the last period's backlog, equals total demand. */
  lemma {:induction false} InventoryBalance(ps: seq<Product>, n: nat,
                         init: map<Product, real>, demand: map<Product, map<Period, real>>, x: Plan, p: Product)
    requires 1 <= n && p in ps
    requires DemandDefined(ps, Periods(n), init, demand)
    requires SatisfiesAll(DemandConstraints(ps, Periods(n), init, demand), x)
    ensures p in init && p in demand && forall t :: 0 <= t < n ==> t in demand[p]
    ensures init[p] + ProducedUpTo(p, n, x) - x(Var(Inventory, p, n - 1)) + x(Var(Backlog, p, n - 1))
            == DemandUpTo(p, n, demand)
  {
    var ts := Periods(n);
    assert First(ts) == 0;
    DemandConstraintsSatisfied(ps, ts, init, demand, x);
    forall t | 0 <= t < n
      ensures CellDefined(p, t, 0, init, demand) && t in demand[p] && Balanced(p, t, 0, init, demand, x)
    {
      assert ts[t] == t && t in ts;
    }
    assert CellDefined(p, 0, 0, init, demand);
    BalancePrefix(p, n, init, demand, x);
  }
}

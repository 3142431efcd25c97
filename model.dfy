/**
  The builder class of the production-planning model.  Its fields are the
  ones the builder assigns: the product and period lists, the three variable
  families, the initial inventory, and the LP under construction (its
  constraint list and its objective; the sense is always "minimise").
 */
module SupplyPlanning {
  import opened LinearProgram
  import opened Grids
  import opened Formulation

  datatype Option<T> = None | Some(value: T)

  type Key = (Product, Period)

  /** One row of the result table. */
  datatype Row = Row(product: Product, period: Period, production: real, inventory: real, backlog: real)

  predicate DeclaredIn(vars: map<Family, map<Key, LpVariable>>, f: Family, p: Product, t: Period)
  {
    f in vars && (p, t) in vars[f]
  }

  /** The variables of (p, t) of all three families are declared. */
  predicate CellDeclared(vars: map<Family, map<Key, LpVariable>>, p: Product, t: Period)
  {
    DeclaredIn(vars, Production, p, t) && DeclaredIn(vars, Inventory, p, t) && DeclaredIn(vars, Backlog, p, t)
  }

  /** The variables the demand constraint of (p, t) refers to are declared. */
  predicate LookupsDeclared(vars: map<Family, map<Key, LpVariable>>, first: Period, p: Product, t: Period)
  {
    CellDeclared(vars, p, t) &&
    (t != first ==> DeclaredIn(vars, Inventory, p, t - 1) && DeclaredIn(vars, Backlog, p, t - 1))
  }

  /** Every declared variable is the one of its family and key, with lower bound 0. */
  ghost predicate WellDeclared(vars: map<Family, map<Key, LpVariable>>)
  {
    forall f, k :: f in vars && k in vars[f] ==> vars[f][k] == LpVariable(Var(f, k.0, k.1), 0.0)
  }

  /** The variables of family f, one per (product, period) pair, each with
      lower bound 0. */
  function FamilyVariables(f: Family, ps: seq<Product>, ts: seq<Period>): (vs: map<Key, LpVariable>)
    ensures forall p, t :: (p, t) in vs <==> p in ps && t in ts
    ensures forall k :: k in vs ==> vs[k] == LpVariable(Var(f, k.0, k.1), 0.0)
  {
    map k | k in (set p, t | p in ps && t in ts :: (p, t)) :: LpVariable(Var(f, k.0, k.1), 0.0)
  }

  /** The variable table setup_variables builds: the three families, each
      declaring exactly the (product, period) pairs of the grid. */
  function VariableTable(ps: seq<Product>, ts: seq<Period>): (vars: map<Family, map<Key, LpVariable>>)
    ensures WellDeclared(vars)
    ensures vars.Keys == {Production, Inventory, Backlog}
    ensures forall f, p, t :: f in vars ==> (DeclaredIn(vars, f, p, t) <==> p in ps && t in ts)
  {
    map[Production := FamilyVariables(Production, ps, ts),
        Inventory := FamilyVariables(Inventory, ps, ts),
        Backlog := FamilyVariables(Backlog, ps, ts)]
  }

  /** Over the contiguous horizon 0, ..., n - 1 every variable the demand
      constraints read, including the carry-in at t - 1, is in the table
      setup_variables builds. */
  lemma ContiguousLookups(ps: seq<Product>, n: nat)
    ensures forall p, t :: p in ps && t in Periods(n) ==>
      LookupsDeclared(VariableTable(ps, Periods(n)), First(Periods(n)), p, t)
  {
    var ts, vars := Periods(n), VariableTable(ps, Periods(n));
    forall p, t | p in ps && t in ts ensures LookupsDeclared(vars, First(ts), p, t) {
      var j :| 0 <= j < |ts| && ts[j] == t;
      if t != First(ts) {
        assert ts[j - 1] == t - 1;
      }
    }
  }

  /** An objective term read through the variable table, as set_objective does. */
  function LookupCostCell(vars: map<Family, map<Key, LpVariable>>, f: Family, cost: map<Product, real>)
    : (Product, Period) --> Term
  {
    (p: Product, t: Period) requires p in cost && DeclaredIn(vars, f, p, t) => Term(cost[p], vars[f][(p, t)].id)
  }

  /** One cost sum of set_objective, built from the declared variables. */
  function LookupFamilyTerms(vars: map<Family, map<Key, LpVariable>>, ps: seq<Product>, ts: seq<Period>,
                             f: Family, cost: map<Product, real>): (terms: seq<Term>)
    requires WellDeclared(vars) && CostKeys(ps, ts, cost)
    requires forall i, j :: 0 <= i < |ps| && 0 <= j < |ts| ==> ps[i] in cost && DeclaredIn(vars, f, ps[i], ts[j])
    ensures terms == FamilyTerms(ps, ts, f, cost)
  {
    LookupCostTerms(ps, ts, vars, f, cost);
    Grid(ps, ts, LookupCostCell(vars, f, cost))
  }

  lemma {:induction false} LookupCostTerms(ps: seq<Product>, ts: seq<Period>, vars: map<Family, map<Key, LpVariable>>,
                                           f: Family, cost: map<Product, real>)
    requires WellDeclared(vars)
    requires forall i, j :: 0 <= i < |ps| && 0 <= j < |ts| ==> ps[i] in cost && DeclaredIn(vars, f, ps[i], ts[j])
    ensures Grid(ps, ts, LookupCostCell(vars, f, cost)) == Grid(ps, ts, CostCell(f, cost))
  {
    forall i, j | 0 <= i < |ps| && 0 <= j < |ts|
      ensures LookupCostCell(vars, f, cost)(ps[i], ts[j]) == CostCell(f, cost)(ps[i], ts[j])
    {
      assert DeclaredIn(vars, f, ps[i], ts[j]);
      assert vars[f][(ps[i], ts[j])] == LpVariable(Var(f, ps[i], ts[j]), 0.0);
    }
    GridExt(ps, ts, CostCell(f, cost), LookupCostCell(vars, f, cost));
  }

  /** The result row of (p, t), read through the variable table as get_results does. */
  function ResultRow(vars: map<Family, map<Key, LpVariable>>, x: Plan): (Product, Period) --> Row
  {
    (p: Product, t: Period) requires CellDeclared(vars, p, t) =>
      Row(p, t, x(vars[Production][(p, t)].id), x(vars[Inventory][(p, t)].id), x(vars[Backlog][(p, t)].id))
  }

  /** The row the plan gives (p, t): its production, inventory and backlog. */
  function PlanRow(x: Plan): (Product, Period) -> Row
  {
    (p: Product, t: Period) => Row(p, t, x(Var(Production, p, t)), x(Var(Inventory, p, t)), x(Var(Backlog, p, t)))
  }

  /** The result table a plan determines, product-major. */
  function ResultTable(ps: seq<Product>, ts: seq<Period>, x: Plan): seq<Row>
  {
    Grid(ps, ts, PlanRow(x))
  }

  /** The table has one row per pair, and the row of the i-th product and the
      j-th period, at position i·|ts| + j, carries that pair and its three values. */
  lemma ResultTableAt(ps: seq<Product>, ts: seq<Period>, x: Plan, i: int, j: int)
    requires 0 <= i < |ps| && 0 <= j < |ts|
    ensures |ResultTable(ps, ts, x)| == |ps| * |ts|
    ensures 0 <= i * |ts| + j < |ResultTable(ps, ts, x)|
    ensures ResultTable(ps, ts, x)[i * |ts| + j]
         == Row(ps[i], ts[j], x(Var(Production, ps[i], ts[j])), x(Var(Inventory, ps[i], ts[j])), x(Var(Backlog, ps[i], ts[j])))
  {
    GridAt(ps, ts, PlanRow(x), i, j);
  }

  lemma {:induction false} ResultRows(ps: seq<Product>, ts: seq<Period>, vars: map<Family, map<Key, LpVariable>>, x: Plan)
    requires WellDeclared(vars)
    requires forall i, j :: 0 <= i < |ps| && 0 <= j < |ts| ==> CellDeclared(vars, ps[i], ts[j])
    ensures Grid(ps, ts, ResultRow(vars, x)) == ResultTable(ps, ts, x)
  {
    forall i, j | 0 <= i < |ps| && 0 <= j < |ts|
      ensures ResultRow(vars, x)(ps[i], ts[j]) == PlanRow(x)(ps[i], ts[j])
    {
      assert CellDeclared(vars, ps[i], ts[j]);
      assert vars[Production][(ps[i], ts[j])] == LpVariable(Var(Production, ps[i], ts[j]), 0.0);
      assert vars[Inventory][(ps[i], ts[j])] == LpVariable(Var(Inventory, ps[i], ts[j]), 0.0);
      assert vars[Backlog][(ps[i], ts[j])] == LpVariable(Var(Backlog, ps[i], ts[j]), 0.0);
    }
    GridExt(ps, ts, PlanRow(x), ResultRow(vars, x));
  }

  /** Under a plan within the bounds of declared variables, every row of the
      table has non-negative production, inventory and backlog. */
  lemma {:induction false} ResultTableNonNegative(ps: seq<Product>, ts: seq<Period>,
                                                  vars: map<Family, map<Key, LpVariable>>, x: Plan)
    requires WellDeclared(vars) && WithinBounds(vars, x)
    requires forall i, j :: 0 <= i < |ps| && 0 <= j < |ts| ==> CellDeclared(vars, ps[i], ts[j])
    ensures forall r :: r in ResultTable(ps, ts, x) ==> r.production >= 0.0 && r.inventory >= 0.0 && r.backlog >= 0.0
  {
    GridMembers(ps, ts, PlanRow(x));
    forall r: Row | r in ResultTable(ps, ts, x) ensures r.production >= 0.0 && r.inventory >= 0.0 && r.backlog >= 0.0 {
      var i, j :| 0 <= i < |ps| && 0 <= j < |ts| && r == PlanRow(x)(ps[i], ts[j]);
      assert CellDeclared(vars, ps[i], ts[j]);
      var p, t := ps[i], ts[j];
      assert vars[Production][(p, t)] == LpVariable(Var(Production, p, t), 0.0);
      assert vars[Inventory][(p, t)] == LpVariable(Var(Inventory, p, t), 0.0);
      assert vars[Backlog][(p, t)] == LpVariable(Var(Backlog, p, t), 0.0);
      assert x(vars[Production][(p, t)].id) >= vars[Production][(p, t)].lowBound;
      assert x(vars[Inventory][(p, t)].id) >= vars[Inventory][(p, t)].lowBound;
      assert x(vars[Backlog][(p, t)].id) >= vars[Backlog][(p, t)].lowBound;
    }
  }

  class SupplyPlanningModel {
    const name: string
    const sense: Sense
    var constraints: seq<Constraint>
    var objective: seq<Term>
    var periods: seq<Period>
    var products: seq<Product>
    var variables: map<Family, map<Key, LpVariable>>
    var initialInventory: map<Product, real>

    /** Every declared variable is the one of its family and key, bounded below by 0. */
    ghost predicate Valid()
      reads this`variables
    {
      WellDeclared(variables)
    }

    /** All three variables of every (product, period) pair are declared. */
    predicate AllDeclared()
      reads this
    {
      && (forall p, t :: p in products && t in periods ==> DeclaredIn(variables, Production, p, t))
      && (forall p, t :: p in products && t in periods ==> DeclaredIn(variables, Inventory, p, t))
      && (forall p, t :: p in products && t in periods ==> DeclaredIn(variables, Backlog, p, t))
    }

    /** Every lookup add_demand_constraints makes succeeds: the demand table
        and the initial inventory have the entries it reads, and the variables
        of (p, t) and, after the first period, of (p, t - 1) are declared. */
    predicate DemandReady(demand: map<Product, map<Period, real>>)
      reads this
    {
      && DemandDefined(products, periods, initialInventory, demand)
      && forall p, t :: p in products && t in periods ==> LookupsDeclared(variables, First(periods), p, t)
    }

    constructor ()
      ensures name == "Supply_Planning_Optimization" && sense == Minimize
      ensures constraints == [] && objective == []
      ensures periods == [] && products == [] && variables == map[]
      ensures Valid()
    {
      name := "Supply_Planning_Optimization";
      sense := Minimize;
      constraints := [];
      objective := [];
      periods := [];
      products := [];
      variables := map[];
      initialInventory := map[];
    }

    method AddProducts(ps: seq<Product>)
      modifies this`products
      ensures products == ps
    {
      products := ps;
    }

    method AddPeriods(ts: seq<Period>)
      modifies this`periods
      ensures periods == ts
    {
      periods := ts;
    }

    /** Declares the three variable families over products × periods and
        stores the initial inventory; an omitted inventory is 0 for every
        product. */
    method SetupVariables(init: Option<map<Product, real>>)
      modifies this`variables, this`initialInventory
      ensures variables == VariableTable(products, periods)
      ensures Valid() && AllDeclared()
      ensures init.Some? ==> initialInventory == init.value
      ensures init.None? ==> (forall p :: p in initialInventory <==> p in products) &&
                             (forall p :: p in initialInventory ==> initialInventory[p] == 0.0)
    {
      var inventory := if init.None? then map p | p in products :: 0.0 else init.value;
      variables := VariableTable(products, periods);
      initialInventory := inventory;
    }

    /** Appends one demand-balance equality per (product, period) pair,
        product-major; the constraints already in the model are kept. */
    method AddDemandConstraints(demand: map<Product, map<Period, real>>)
      requires Valid() && DemandReady(demand)
      modifies this`constraints
      ensures DemandDefined(products, periods, initialInventory, demand)
      ensures constraints == old(constraints) + DemandConstraints(products, periods, initialInventory, demand)
    {
      ghost var f := DemandCell(First(periods), initialInventory, demand);
      forall a, b | 0 <= a < |products| && 0 <= b < |periods| ensures f.requires(products[a], periods[b]) {
        assert products[a] in products && periods[b] in periods;
      }
      var i := 0;
      while i < |products|
        invariant 0 <= i <= |products|
        invariant constraints == old(constraints) + Grid(products[..i], periods, f)
      {
        AddDemandStrip(products[i], demand);
        GridSnoc(products, periods, i, f);
        i := i + 1;
      }
      assert products[..i] == products;
    }

    /** The inner loop of add_demand_constraints: appends the demand
        constraints of product p, in period order. */
    method AddDemandStrip(p: Product, demand: map<Product, map<Period, real>>)
      requires Valid() && DemandReady(demand) && p in products
      modifies this`constraints
      ensures constraints == old(constraints) + Strip(p, periods, DemandCell(First(periods), initialInventory, demand))
    {
      ghost var f := DemandCell(First(periods), initialInventory, demand);
      forall j | 0 <= j < |periods|
        ensures LookupsDeclared(variables, First(periods), p, periods[j]) && f.requires(p, periods[j])
      {
        assert periods[j] in periods;
      }
      var j := 0;
      while j < |periods|
        invariant 0 <= j <= |periods|
        invariant constraints == old(constraints) + Strip(p, periods[..j], f)
      {
        var c := DemandConstraintOf(p, periods[j], demand);
        StripSnoc(p, periods, j, f);
        constraints := constraints + [c];
        j := j + 1;
      }
      assert periods[..j] == periods;
    }

    /** The demand constraint of (p, t), built from the declared variables. */
    method DemandConstraintOf(p: Product, t: Period, demand: map<Product, map<Period, real>>) returns (c: Constraint)
      requires Valid() && periods != []
      requires LookupsDeclared(variables, First(periods), p, t)
      requires CellDefined(p, t, First(periods), initialInventory, demand)
      ensures c == DemandConstraint(p, t, First(periods), initialInventory, demand)
    {
      if t == periods[0] {
        c := Constraint([Term(1.0, variables[Production][(p, t)].id),
                         Term(-1.0, variables[Inventory][(p, t)].id),
                         Term(1.0, variables[Backlog][(p, t)].id)],
                        initialInventory[p] - demand[p][t], Eq);
      } else {
        c := Constraint([Term(1.0, variables[Inventory][(p, t - 1)].id),
                         Term(1.0, variables[Production][(p, t)].id),
                         Term(-1.0, variables[Inventory][(p, t)].id),
                         Term(1.0, variables[Backlog][(p, t)].id),
                         Term(-1.0, variables[Backlog][(p, t - 1)].id)],
                        -demand[p][t], Eq);
      }
    }

    /** Appends one `<=` constraint per period: the period's production over
        all products is at most the capacity. */
    method AddCapacityConstraints(capacity: real)
      requires Valid()
      requires forall p, t :: p in products && t in periods ==> DeclaredIn(variables, Production, p, t)
      modifies this`constraints
      ensures constraints == old(constraints) + CapacityConstraints(products, periods, capacity)
    {
      var vs: map<Family, map<Key, LpVariable>>, ps := variables, products;
      var j := 0;
      while j < |periods|
        invariant 0 <= j <= |periods|
        invariant constraints == old(constraints) + CapacityConstraints(products, periods[..j], capacity)
      {
        var t := periods[j];
        var terms := seq(|ps|, i requires 0 <= i < |ps| && DeclaredIn(vs, Production, ps[i], t) =>
                                 Term(1.0, vs[Production][(ps[i], t)].id));
        forall i | 0 <= i < |ps| ensures terms[i] == ProductionTerms(products, t)[i] {
          assert ps[i] in products;
          assert DeclaredIn(vs, Production, ps[i], t);
          assert vs[Production][(ps[i], t)] == LpVariable(Var(Production, ps[i], t), 0.0);
        }
        assert terms == ProductionTerms(products, t);
        assert CapacityConstraints(products, periods[..j + 1], capacity)
            == CapacityConstraints(products, periods[..j], capacity) + [CapacityConstraint(products, t, capacity)];
        constraints := constraints + [Constraint(terms, -capacity, Le)];
        j := j + 1;
      }
      assert periods[..j] == periods;
    }

    /** Sets the objective: production, holding and backlog cost summed over
        every (product, period) pair (to be minimised). */
    method SetObjective(productionCost: map<Product, real>, inventoryCost: map<Product, real>,
                        backlogCost: map<Product, real>)
      requires Valid() && AllDeclared()
      requires CostsDefined(products, periods, productionCost, inventoryCost, backlogCost)
      modifies this`objective
      ensures objective == ObjectiveTerms(products, periods, productionCost, inventoryCost, backlogCost)
    {
      forall i, j | 0 <= i < |products| && 0 <= j < |periods|
        ensures products[i] in productionCost && products[i] in inventoryCost && products[i] in backlogCost
        ensures CellDeclared(variables, products[i], periods[j])
      {
        assert products[i] in products && periods[j] in periods;
      }
      objective := LookupFamilyTerms(variables, products, periods, Production, productionCost)
                 + LookupFamilyTerms(variables, products, periods, Inventory, inventoryCost)
                 + LookupFamilyTerms(variables, products, periods, Backlog, backlogCost);
    }

    /** The plan checker: every constraint of the model holds and every
        declared variable is within its bound. */
    function Feasible(x: Plan): (ok: bool)
      reads this
      ensures ok <==> SatisfiesAll(constraints, x) && WithinBounds(variables, x)
    {
      CheckPlan(constraints, x) && WithinBounds(variables, x)
    }

    /** The result table: one row per (product, period) pair, product-major,
        carrying the plan's production, inventory and backlog of that pair. */
    function GetResults(x: Plan): (rows: seq<Row>)
      reads this
      requires Valid() && AllDeclared()
      ensures rows == ResultTable(products, periods, x)
      ensures WithinBounds(variables, x) ==>
        forall r :: r in rows ==> r.production >= 0.0 && r.inventory >= 0.0 && r.backlog >= 0.0
    {
      ResultRows(products, periods, variables, x);
      if WithinBounds(variables, x) then
        ResultTableNonNegative(products, periods, variables, x);
        Grid(products, periods, ResultRow(variables, x))
      else
        Grid(products, periods, ResultRow(variables, x))
    }
  }
}

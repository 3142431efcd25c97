/**
  The example data at the end of sp_opt.py: two products over the horizon
  0..3, with its inventory, demand, capacity and cost tables, and the sizes
  of the LP the builder makes from them.
 */
module SupplyPlanningExample {
  import opened LinearProgram
  import opened Formulation
  import opened SupplyPlanning

  const products: seq<Product> := ["ProductA", "ProductB"]
  const initialInventory: map<Product, real> := map["ProductA" := 100.0, "ProductB" := 50.0]
  const demand: map<Product, map<Period, real>> :=
    map["ProductA" := map[0 := 120.0, 1 := 140.0, 2 := 160.0, 3 := 130.0],
        "ProductB" := map[0 := 80.0, 1 := 90.0, 2 := 110.0, 3 := 100.0]]
  const capacity: real := 300.0
  const productionCost: map<Product, real> := map["ProductA" := 10.0, "ProductB" := 12.0]
  const inventoryCost: map<Product, real> := map["ProductA" := 2.0, "ProductB" := 2.0]
  const backlogCost: map<Product, real> := map["ProductA" := 20.0, "ProductB" := 20.0]

  /** The example's tables cover every lookup the builder makes. */
  lemma ExampleDefined()
    ensures DemandDefined(products, Periods(4), initialInventory, demand)
    ensures CostsDefined(products, Periods(4), productionCost, inventoryCost, backlogCost)
  {
    forall p, t | p in products && t in Periods(4)
      ensures CellDefined(p, t, First(Periods(4)), initialInventory, demand)
    {
      var j :| 0 <= j < 4 && Periods(4)[j] == t;
    }
  }

  /** 2 products × 4 periods: 8 demand equalities followed by 4 capacity
      constraints. */
  lemma ExampleConstraintCount()
    ensures DemandDefined(products, Periods(4), initialInventory, demand)
    ensures |DemandConstraints(products, Periods(4), initialInventory, demand)| == 8
    ensures |CapacityConstraints(products, Periods(4), capacity)| == 4
  {
    ExampleDefined();
    DemandConstraintAt(products, Periods(4), initialInventory, demand, 0, 0);
  }

  /** 24 objective terms: three per (product, period) pair. */
  lemma ExampleObjectiveCount()
    ensures CostsDefined(products, Periods(4), productionCost, inventoryCost, backlogCost)
    ensures |ObjectiveTerms(products, Periods(4), productionCost, inventoryCost, backlogCost)| == 24
  {
    ExampleDefined();
    var x0: Plan := v => 0.0;
    FamilyTermsValue(products, Periods(4), Production, productionCost, x0);
    FamilyTermsValue(products, Periods(4), Inventory, inventoryCost, x0);
    FamilyTermsValue(products, Periods(4), Backlog, backlogCost, x0);
  }

  /** 8 result rows, whatever the plan. */
  lemma ExampleRowCount(x: Plan)
    ensures |ResultTable(products, Periods(4), x)| == 8
  {
    ResultTableAt(products, Periods(4), x, 0, 0);
  }
}

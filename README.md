# Supply planning model builder, in Dafny

`sp_opt.py` defines `SupplyPlanningModel`, a builder for a multi-period production-planning linear program (LP):

- the planner declares products and periods;
- the planner declares three non-negative variable families over every (product, period) pair: production, ending inventory and backlog;
- one demand-balance equality is added per pair;
- one capacity bound is added per period;
- the objective is the total production, holding and backlog cost, minimised.

Solving is handed to the PuLP library. The result table reads the solved values back out.

This project models the builder and proves what the LP it builds means for any plan:

- `lp.dfy` (module `LinearProgram`): a small symbolic LP standing for the part of PuLP the builder uses.
  - A variable is identified by its family, product and period.
  - A constraint is a list of coefficient/variable terms, a constant and a relation: `Σ coef·x + constant == 0` or `<= 0`. PuLP stores `lhs == rhs` and `lhs <= rhs` the same way, as `lhs − rhs`.
  - A plan is a value for every variable.
  - The file also provides the plan checker and the evaluation of an affine expression.
- `grid.dfy` (module `Grids`): the products × periods grid in the order of the builder's nested loops. Products form the outer loop and periods the inner loop ("product-major" order). The file also has sums over that grid.
- `formulation.dfy` (module `Formulation`): the constraints and objective the builder produces, as values, and what each means for a plan.
  - For the demand equalities, the first period versus later periods and the `t − 1` carry-in.
  - For the capacity bound, the per-period production sum.
  - For the objective, the total cost.
  - The inventory balance over a contiguous horizon, summed over all periods.
- `model.dfy` (module `SupplyPlanning`): the class `SupplyPlanningModel` itself.
  - Its fields are the ones the Python object assigns.
  - The constraint list stands for `self.model`.
  - The methods append to it with the same nested loops as the source.
  - Each method is proved to append exactly the values of `Formulation`.
  - It also has the result-row projection of a plan.
- `example.dfy` (module `SupplyPlanningExample`): the example data at the end of `sp_opt.py`, and the sizes of the LP built from it.

## Model

`#products` and `#periods` are the lengths of the product and period lists.

| member | source | states |
|---|---|---|
| LinearProgram.CheckPlan | sp_opt.py:7 | the plan checker accepts a plan exactly when every constraint of the list holds under it |
| LinearProgram.SatisfiesAllAppend | sp_opt.py:54-76 | a plan satisfies a constraint list extended by `+=` exactly when it satisfies the old list and the appended constraints |
| LinearProgram.ValueAppend | sp_opt.py:80-90 | the value of two term lists added together is the sum of their values |
| LinearProgram.ValueAppend3 | sp_opt.py:80-90 | the value of three term lists added together is the sum of the three values |
| LinearProgram.ValueGrid | sp_opt.py:82-89 | the value of a product-major grid of terms is the grid sum of the term values |
| Grids.GridLength | sp_opt.py:50-51 | the nested loop over products and periods visits #products·#periods cells |
| Grids.GridAt | sp_opt.py:50-51 | the cell of the i-th product and the j-th period comes at position i·#periods + j |
| Grids.GridMember | sp_opt.py:50-51 | every entry of the grid is the cell of some (product, period) pair |
| Grids.GridSnoc | sp_opt.py:50 | one more iteration of the product loop appends that product's strip of cells |
| Grids.StripSnoc | sp_opt.py:51 | one more iteration of the period loop appends that period's cell |
| Formulation.DemandConstraintHolds | sp_opt.py:52-67 | the demand constraint of (p, t) holds exactly when the balance holds. In the first period: init + production − inventory + backlog = demand. In a later period: inventory(t−1) + production − inventory + backlog − backlog(t−1) = demand |
| Formulation.DemandConstraintAt | sp_opt.py:50-68 | there are #products·#periods demand constraints; the one of the i-th product and the j-th period is at position i·#periods + j and is that pair's constraint |
| Formulation.DemandConstraintsAreCells | sp_opt.py:50-68 | every demand constraint is an equality and belongs to some pair of the grid |
| Formulation.DemandConstraintsSatisfied | sp_opt.py:50-68 | a plan satisfies all demand constraints exactly when every (product, period) pair is balanced |
| Formulation.SatisfiedIsBalanced | sp_opt.py:50-68 | a plan satisfying the demand constraints balances every pair |
| Formulation.BalancedIsSatisfied | sp_opt.py:50-68 | a plan balancing every pair satisfies every demand constraint |
| Formulation.ProductionTermsValue | sp_opt.py:74 | the value of the `lpSum` of one period's production variables is that period's total production |
| Formulation.CapacityConstraintHolds | sp_opt.py:73-76 | the capacity constraint of period t holds exactly when the period's total production is at most the capacity |
| Formulation.CapacityConstraintsSatisfied | sp_opt.py:70-76 | there is one `<=` constraint per period, in period order, each with the same capacity; a plan satisfies them all exactly when no period's production exceeds the capacity |
| Formulation.PlanningConstraintsSatisfied | sp_opt.py:48-76 | a plan satisfies the demand constraints followed by the capacity constraints exactly when every pair is balanced and every period is within capacity |
| Formulation.FamilyTermsValue | sp_opt.py:82-89 | one cost sum has one term per pair, and its value is cost[p]·x summed over the grid |
| Formulation.ObjectiveByFamily | sp_opt.py:80-90 | the objective has 3·#products·#periods terms, and its value is the production-cost, holding-cost and backlog-cost sums added |
| Formulation.TotalCostByFamily | sp_opt.py:80-90 | the reference total cost (the sum over every pair of production, holding and backlog cost) equals the three family sums added |
| Formulation.ObjectiveIsTotalCost | sp_opt.py:78-90 | under any plan, the objective's value is the total cost over all (product, period) pairs, and the objective has three terms per pair |
| Formulation.Periods | sp_opt.py:123 | the horizon `list(range(n))` has n periods, and period t is at index t |
| Formulation.BalancePrefix | sp_opt.py:54-67 | over periods 0..k−1, balanced periods telescope: init + production so far − current inventory + current backlog = demand so far |
| Formulation.InventoryBalance | sp_opt.py:54-67 | over a contiguous horizon 0..n−1, a plan that satisfies the demand constraints gives, for each product: init + Σ production − inventory(last) + backlog(last) = Σ demand |
| SupplyPlanning.FamilyVariables | sp_opt.py:26-30 | `LpVariable.dicts` declares a variable for exactly the pairs of products × periods, each with lower bound 0 |
| SupplyPlanning.VariableTable | sp_opt.py:25-44 | the variable table has exactly the three families, each declaring exactly the pairs of the grid, each variable its own with lower bound 0 |
| SupplyPlanning.ContiguousLookups | sp_opt.py:60-67 | over the horizon 0..n−1, every variable a demand constraint reads exists, including the carry-in at t − 1 |
| SupplyPlanning.LookupCostTerms | sp_opt.py:82-89 | looking the cost-sum variables up in the table gives the cost terms of those variables |
| SupplyPlanning.LookupFamilyTerms | sp_opt.py:82-89 | a cost sum built through the variable table is the family's cost sum |
| SupplyPlanning.ResultRows | sp_opt.py:98-115 | the rows read through the variable table are the result table of the plan |
| SupplyPlanning.ResultTableAt | sp_opt.py:107-115 | the result table has #products·#periods rows; the row of the i-th product and the j-th period is at position i·#periods + j and carries that pair with its production, inventory and backlog |
| SupplyPlanning.ResultTableNonNegative | sp_opt.py:26-44 | under a plan that respects the variables' lower bounds, every row has non-negative production, inventory and backlog |
| SupplyPlanning.SupplyPlanningModel.constructor | sp_opt.py:5-10 | the new model is named "Supply_Planning_Optimization", minimises, and has no constraints, objective terms, periods, products or variables |
| SupplyPlanning.SupplyPlanningModel.AddProducts | sp_opt.py:12-14 | the product list is replaced by the given one; nothing else changes |
| SupplyPlanning.SupplyPlanningModel.AddPeriods | sp_opt.py:16-18 | the period list is replaced by the given one; nothing else changes |
| SupplyPlanning.SupplyPlanningModel.SetupVariables | sp_opt.py:20-46 | the variables are the table of the three families over products × periods, and all three variables of every pair are declared. The given inventory mapping is stored; when it is omitted, every product starts at 0 |
| SupplyPlanning.SupplyPlanningModel.AddDemandConstraints | sp_opt.py:48-68 | appends exactly the demand constraints of every (product, period) pair, product-major; the constraints already in the model are kept |
| SupplyPlanning.SupplyPlanningModel.AddDemandStrip | sp_opt.py:51-67 | one pass of the inner loop appends the demand constraints of one product, in period order |
| SupplyPlanning.SupplyPlanningModel.DemandConstraintOf | sp_opt.py:52-67 | the constraint built from the declared variables is the first-period or later-period demand constraint of (p, t) |
| SupplyPlanning.SupplyPlanningModel.AddCapacityConstraints | sp_opt.py:70-76 | appends exactly one capacity constraint per period, in period order; the constraints already in the model are kept |
| SupplyPlanning.SupplyPlanningModel.SetObjective | sp_opt.py:78-90 | the objective becomes the production-cost, holding-cost and backlog-cost sums over the grid, whose value is the total cost |
| SupplyPlanning.SupplyPlanningModel.Feasible | sp_opt.py:7-10 | a plan is feasible exactly when it satisfies every constraint of the model and respects every declared variable's lower bound |
| SupplyPlanning.SupplyPlanningModel.GetResults | sp_opt.py:96-115 | the result is the plan's result table over products × periods, product-major; under a plan within bounds, every value in it is non-negative |
| SupplyPlanningExample.ExampleDefined | sp_opt.py:128-144 | the example's inventory, demand and cost tables cover every lookup the builder makes |
| SupplyPlanningExample.ExampleConstraintCount | sp_opt.py:122-139 | the example gives 8 demand equalities and 4 capacity constraints |
| SupplyPlanningExample.ExampleObjectiveCount | sp_opt.py:141-145 | the example's objective has 24 terms |
| SupplyPlanningExample.ExampleRowCount | sp_opt.py:147-149 | the example's result table has 8 rows whatever the plan |

## Left out

- `solve` (sp_opt.py:92-94) is a call into PuLP's solver. It runs in floating point and is not part of this model. The solved values are an arbitrary plan given as a parameter, so nothing here claims optimality.
- A variable's `.value()` is `None` before solving. A plan here gives every variable a value.
- Quantities are mathematical reals, not floats. A missing-key `KeyError` is a precondition, not a modelled failure. This covers the demand table, the initial inventory, the cost tables, and variables not yet set up or undeclared at `t − 1`.
- The `t − 1` carry-in names a declared variable only on consecutive integer periods. `ContiguousLookups` proves that this holds on `list(range(n))`. Non-contiguous period labels are not modelled beyond the lookup precondition.
- PuLP merges repeated variables of an `lpSum` into one coefficient. The model keeps the terms as a list in generation order. Values are the same either way, but the term counts stated here are those of that list.
- Adding a second objective overwrites the first in PuLP. `SetObjective` assigns the objective, which matches overwriting; PuLP's warning is not modelled.
- The LP's variable names (`production_('ProductA',_0)` and similar) and their possible collisions are not modelled. A variable is identified by its family, product and period.
- The pandas `DataFrame` is a sequence of row records. The intermediate `results` dictionaries in `get_results` are read directly per pair.
- `initial_inventory` does not exist on the Python object before `setup_variables`. Here it starts as an empty map.
- `setup_variables` assigns the three family entries one by one. The model replaces the whole table, which has no other entries.
- The example script's `print` and its solver run are left out. Only its data and the sizes of the LP it builds are kept.

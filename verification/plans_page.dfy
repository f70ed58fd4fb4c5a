/**
  The plans page: the save handler that merges the form's data into the edited plan or
  adds a new plan, and the guards on the "Usar Corte" and "Renovar" buttons.
*/
module PlansPage {
  import opened Wrappers
  import opened Domain
  import opened Seqs
  import opened PlansStore

  /** `{ ...planToEdit, ...planData }` without the id: the form's fields over the edited
      plan's, so the remaining cuts are carried over as they were. */
  function Merge(planToEdit: ClientPlan, d: PlanData): (f: PlanFields)
    ensures f.name == d.name && f.price == d.price && f.totalCuts == d.totalCuts
    ensures f.remainingCuts == planToEdit.remainingCuts
  {
    PlanFields(d.name, d.price, d.totalCuts, planToEdit.remainingCuts)
  }

  /** The edited plan stays in range exactly when its remaining cuts still fit under the new
      number of cuts. */
  lemma MergeInRange(planToEdit: ClientPlan, d: PlanData)
    ensures CutsInRange(PlanWithId(planToEdit.id, Merge(planToEdit, d))) <==>
      0 <= planToEdit.remainingCuts <= d.totalCuts
  {
  }

  /** Editing does not keep the credit invariant: a plan of 5 cuts with 3 left, edited down
      to 2 cuts, ends with 3 of 2 cuts left. */
  lemma EditBreaksRange()
    ensures var p := ClientPlan("p1", "Ana", 100.0, 5, 3);
      && AllInRange([p])
      && UpdatePlanIn([p], p.id, Merge(p, PlanData("Ana", 100.0, 2))) == [ClientPlan("p1", "Ana", 100.0, 2, 3)]
      && !AllInRange(UpdatePlanIn([p], p.id, Merge(p, PlanData("Ana", 100.0, 2))))
  {
    var p := ClientPlan("p1", "Ana", 100.0, 5, 3);
    var q := ClientPlan("p1", "Ana", 100.0, 2, 3);
    assert ReplacePlan([p], p.id, Merge(p, PlanData("Ana", 100.0, 2))) == [q];
    SortOfSorted([q], ByName);
  }

  /** "Usar Corte" is disabled exactly when no cut is left. */
  predicate UseCutDisabled(p: ClientPlan)
  {
    p.remainingCuts == 0
  }

  /** "Renovar" is disabled while any cut is left. */
  predicate RenewDisabled(p: ClientPlan)
  {
    p.remainingCuts > 0
  }

  /** On a plan in range exactly one of the two buttons is enabled: using a cut while
      credit is left, renewing once it is used up. */
  lemma OneButtonEnabled(p: ClientPlan)
    requires CutsInRange(p)
    ensures UseCutDisabled(p) != RenewDisabled(p)
    ensures !RenewDisabled(p) ==> p.remainingCuts == 0
  {
  }

  /** An enabled "Usar Corte" never raises the "no cuts remaining" warning when the plan's id
      is its own, and it takes exactly one cut off that plan. */
  lemma EnabledCutNeverWarns(list: seq<ClientPlan>, i: nat)
    requires i < |list| && !UseCutDisabled(list[i]) && CutsInRange(list[i])
    requires UniquePlanIds(list)
    ensures UseCut(list, list[i].id).warnings == []
    ensures UseCut(list, list[i].id).plans[i].remainingCuts == list[i].remainingCuts - 1
  {
    var id := list[i].id;
    FilterCounts(list, ExhaustedWith(id));
    var w := Filter(list, ExhaustedWith(id));
    if w != [] {
      assert false;
    }
  }

  /** A confirmed renewal, which the guard offers only on a plan with no cut left, restores
      all of that plan's cuts and leaves it in range. */
  lemma RenewRestoresCredit(list: seq<ClientPlan>, i: nat)
    requires i < |list| && !RenewDisabled(list[i]) && CutsInRange(list[i])
    ensures ResetCuts(list, list[i].id)[i].remainingCuts == list[i].totalCuts
    ensures CutsInRange(ResetCuts(list, list[i].id)[i])
  {
  }

  /** The page's own state, over the plan store it dispatches to. */
  class PlansPage {
    var isSheetOpen: bool
    var planToEdit: Option<ClientPlan>
    const store: PlanStore

    constructor(store: PlanStore)
      ensures this.store == store && !isSheetOpen && planToEdit == None
    {
      this.store := store;
      isSheetOpen := false;
      planToEdit := None;
    }

    /** `handleAddClick`. */
    method AddClick()
      modifies this
      ensures isSheetOpen && planToEdit == None
    {
      planToEdit := None;
      isSheetOpen := true;
    }

    /** `handleEditClick(plan)`. */
    method EditClick(p: ClientPlan)
      modifies this
      ensures isSheetOpen && planToEdit == Some(p)
    {
      planToEdit := Some(p);
      isSheetOpen := true;
    }

    /** `handleSavePlan`: an edit merges the form's data into the edited plan and updates
        it under its id; otherwise the data becomes a new plan under `freshId`. The sheet
        closes either way. */
    method SavePlan(d: PlanData, freshId: string)
      modifies this, store`plans
      ensures !isSheetOpen && planToEdit == old(planToEdit)
      ensures old(planToEdit).Some? ==>
        store.plans == UpdatePlanIn(old(store.plans), old(planToEdit).value.id, Merge(old(planToEdit).value, d))
      ensures old(planToEdit).None? ==> store.plans == AddPlanTo(old(store.plans), freshId, d)
    {
      match planToEdit {
        case Some(p) => store.UpdatePlan(p.id, Merge(p, d));
        case None => store.AddPlan(freshId, d);
      }
      isSheetOpen := false;
    }
  }
}

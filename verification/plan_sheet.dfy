/**
  The add/edit-plan form: the values it resets to, the schema that decides whether
  `onSave` is called, and the data it then hands over.
*/
module PlanSheet {
  import opened Wrappers
  import opened Domain
  import opened Text
  import opened PlansStore

  /** The form values after `z.coerce.number()`; `None` stands for NaN. */
  datatype PlanForm = PlanForm(name: string, price: Option<real>, totalCuts: Option<real>)

  /** `defaultValues` and the reset for a new plan: "", 0, 0. */
  const BlankPlanForm: PlanForm := PlanForm("", Some(0.0), Some(0.0))

  /** The reset effect: the edited plan's name, price and number of cuts, or the blank form. */
  function Prefill(planToEdit: Option<ClientPlan>): (f: PlanForm)
    ensures planToEdit.None? ==> f == BlankPlanForm
    ensures planToEdit.Some? ==> (f.name == planToEdit.value.name
      && f.price == Some(planToEdit.value.price) && f.totalCuts == Some(planToEdit.value.totalCuts as real))
  {
    match planToEdit
    case None => BlankPlanForm
    case Some(p) => PlanForm(p.name, Some(p.price), Some(p.totalCuts as real))
  }

  predicate IsInteger(x: real)
  {
    x.Floor as real == x
  }

  /** `planSchema`: a name of at least two UTF-16 units, a price of at least 0.01 and a
      whole number of cuts, at least 1. */
  predicate SchemaAccepts(f: PlanForm)
  {
    && Utf16Length(f.name) >= 2
    && f.price.Some? && f.price.value >= 0.01
    && f.totalCuts.Some? && IsInteger(f.totalCuts.value) && f.totalCuts.value >= 1.0
  }

  /** What the submit button hands to `onSave`: nothing when the schema refuses the form,
      otherwise exactly its name, price and number of cuts (never an id or a count of
      remaining cuts). */
  function Submitted(f: PlanForm): (r: Option<PlanData>)
    ensures r.Some? <==> SchemaAccepts(f)
    ensures r.Some? ==> (r.value.name == f.name && Some(r.value.price) == f.price
      && Some(r.value.totalCuts as real) == f.totalCuts && r.value.totalCuts >= 1)
  {
    if SchemaAccepts(f) then Some(PlanData(f.name, f.price.value, f.totalCuts.value.Floor))
    else None
  }

  /** The blank form never reaches `onSave`: its name is empty and its number of cuts 0. */
  lemma BlankRefused()
    ensures Submitted(Prefill(None)) == None
  {
  }

  /** A plan whose fields meet the schema, opened for editing and submitted untouched, hands
      back its own name, price and number of cuts. */
  lemma PrefillRoundTrip(p: ClientPlan)
    requires Utf16Length(p.name) >= 2 && p.price >= 0.01 && p.totalCuts >= 1
    ensures Submitted(Prefill(Some(p))) == Some(PlanData(p.name, p.price, p.totalCuts))
  {
    assert (p.totalCuts as real).Floor == p.totalCuts;
  }

  /** A plan created from submitted data starts with every cut available, and at least one. */
  lemma SubmittedPlanStartsFull(f: PlanForm, id: string)
    requires Submitted(f).Some?
    ensures CutsInRange(NewPlan(id, Submitted(f).value))
    ensures NewPlan(id, Submitted(f).value).remainingCuts >= 1
  {
  }
}

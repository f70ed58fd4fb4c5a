/**
  The client-plan store (`useClientPlans`): prepaid plans kept in name order, their list
  rewrites, the cut counter (`useCut`, `resetCuts`), the load from storage and the persist
  step with its notification.
*/
module PlansStore {
  import opened Wrappers
  import opened Domain
  import opened Text
  import opened Seqs

  /** The store's comparator read as "`a` may stand before `b`": names in code-point order. */
  predicate ByName(a: ClientPlan, b: ClientPlan)
  {
    LexLe(a.name, b.name)
  }

  lemma ByNameIsTotalPreorder()
    ensures TotalPreorder(ByName)
  {
    forall a, b ensures ByName(a, b) || ByName(b, a) {
      LexTotal(a.name, b.name);
    }
    forall a, b, c | ByName(a, b) && ByName(b, c) ensures ByName(a, c) {
      LexTransitive(a.name, b.name, c.name);
    }
  }

  /** The list in name order; equal names keep their order, as `Array.prototype.sort` does. */
  function InNameOrder(list: seq<ClientPlan>): (r: seq<ClientPlan>)
    ensures |r| == |list| && multiset(r) == multiset(list)
    ensures SortedBy(r, ByName)
  {
    ByNameIsTotalPreorder();
    SortSorted(list, ByName);
    Sort(list, ByName)
  }

  predicate PlanIdIn(id: string, list: seq<ClientPlan>)
  {
    exists i :: 0 <= i < |list| && list[i].id == id
  }

  /** No two plans share an id. */
  predicate UniquePlanIds(list: seq<ClientPlan>)
  {
    forall i, j :: 0 <= i < j < |list| ==> list[i].id != list[j].id
  }

  /** Every plan keeps `0 <= remainingCuts <= totalCuts`. */
  predicate AllInRange(list: seq<ClientPlan>)
  {
    forall i :: 0 <= i < |list| ==> CutsInRange(list[i])
  }

  /** A new plan starts with all its cuts available. */
  function NewPlan(id: string, d: PlanData): (p: ClientPlan)
    ensures p.id == id && p.name == d.name && p.price == d.price && p.totalCuts == d.totalCuts
    ensures p.remainingCuts == p.totalCuts
  {
    ClientPlan(id, d.name, d.price, d.totalCuts, d.totalCuts)
  }

  /** `addPlan`: the new plan joins the end of the list, which is then put in name order. */
  function AddPlanTo(list: seq<ClientPlan>, id: string, d: PlanData): (r: seq<ClientPlan>)
    ensures |r| == |list| + 1
    ensures multiset(r) == multiset(list) + multiset{NewPlan(id, d)}
    ensures SortedBy(r, ByName)
  {
    InNameOrder(list + [NewPlan(id, d)])
  }

  /** The `map` step of `updatePlan`. */
  function ReplacePlan(list: seq<ClientPlan>, id: string, f: PlanFields): (r: seq<ClientPlan>)
    ensures |r| == |list|
    ensures forall i :: 0 <= i < |list| ==> r[i] == if list[i].id == id then PlanWithId(id, f) else list[i]
  {
    Map(list, (p: ClientPlan) => if p.id == id then PlanWithId(id, f) else p)
  }

  /** `updatePlan`: the plan with the id takes every given field, the others stay, and the list
      is put in name order. */
  function UpdatePlanIn(list: seq<ClientPlan>, id: string, f: PlanFields): (r: seq<ClientPlan>)
    ensures |r| == |list|
    ensures multiset(r) == multiset(ReplacePlan(list, id, f))
    ensures SortedBy(r, ByName)
  {
    InNameOrder(ReplacePlan(list, id, f))
  }

  function PlanHasOtherId(id: string): ClientPlan -> bool
  {
    (p: ClientPlan) => p.id != id
  }

  /** `deletePlan`. */
  function DeletePlanFrom(list: seq<ClientPlan>, id: string): (r: seq<ClientPlan>)
    ensures forall i :: 0 <= i < |r| ==> r[i].id != id
    ensures forall x :: multiset(r)[x] == if x.id != id then multiset(list)[x] else 0
  {
    FilterCounts(list, PlanHasOtherId(id));
    Filter(list, PlanHasOtherId(id))
  }

  /** One plan after `useCut(id)`: a matching plan with cuts left loses one. */
  function CutOne(p: ClientPlan, id: string): ClientPlan
  {
    if p.id == id && p.remainingCuts > 0 then p.(remainingCuts := p.remainingCuts - 1) else p
  }

  /** The plan raises the "no cuts remaining" warning. */
  predicate Exhausted(id: string, p: ClientPlan)
  {
    p.id == id && p.remainingCuts == 0
  }

  function ExhaustedWith(id: string): ClientPlan -> bool
  {
    (p: ClientPlan) => Exhausted(id, p)
  }

  datatype CutOutcome = CutOutcome(plans: seq<ClientPlan>, warnings: seq<string>)

  /** `useCut`: the new list, and the names of the plans whose warning fires, in list order. */
  function UseCut(list: seq<ClientPlan>, id: string): (o: CutOutcome)
    ensures |o.plans| == |list|
    ensures forall i :: 0 <= i < |list| ==>
      (o.plans[i].id == list[i].id && o.plans[i].name == list[i].name
       && o.plans[i].price == list[i].price && o.plans[i].totalCuts == list[i].totalCuts)
    ensures forall i :: 0 <= i < |list| ==>
      o.plans[i].remainingCuts == (if list[i].id == id && list[i].remainingCuts > 0
                                   then list[i].remainingCuts - 1 else list[i].remainingCuts)
    ensures |o.warnings| <= |list|
    ensures forall k :: 0 <= k < |o.warnings| ==>
      exists p :: p in list && Exhausted(id, p) && p.name == o.warnings[k]
  {
    WarningsNameExhausted(list, id, Filter(list, ExhaustedWith(id)));
    CutOutcome(Map(list, (p: ClientPlan) => CutOne(p, id)), PlanNames(Filter(list, ExhaustedWith(id))))
  }

  /** The plans' names, in order. */
  function PlanNames(ps: seq<ClientPlan>): (r: seq<string>)
    ensures |r| == |ps| && forall k :: 0 <= k < |ps| ==> r[k] == ps[k].name
  {
    Map(ps, (p: ClientPlan) => p.name)
  }

  /** Each warning is the name of a plan with the id and no cut left. */
  lemma WarningsNameExhausted(list: seq<ClientPlan>, id: string, ex: seq<ClientPlan>)
    requires ex == Filter(list, ExhaustedWith(id))
    ensures forall k :: 0 <= k < |ex| ==> ex[k] in list && Exhausted(id, ex[k])
  {
    forall k | 0 <= k < |ex| ensures ex[k] in list && Exhausted(id, ex[k]) {
      FilterMember(list, ExhaustedWith(id), ex[k]);
    }
  }

  /** `resetCuts`: the matching plan gets all its cuts back. */
  function ResetCuts(list: seq<ClientPlan>, id: string): (r: seq<ClientPlan>)
    ensures |r| == |list|
    ensures forall i :: 0 <= i < |list| ==>
      r[i] == if list[i].id == id then list[i].(remainingCuts := list[i].totalCuts) else list[i]
  {
    Map(list, (p: ClientPlan) => if p.id == id then p.(remainingCuts := p.totalCuts) else p)
  }

  /** With an id nobody holds, `useCut` changes nothing and warns nobody. */
  lemma {:induction false} UseCutUnknownId(list: seq<ClientPlan>, id: string)
    requires !PlanIdIn(id, list)
    ensures UseCut(list, id) == CutOutcome(list, [])
  {
    var o := UseCut(list, id);
    assert o.plans == list;
    FilterEmptyIff(list, ExhaustedWith(id));
  }

  /** A plan with no cuts left: `useCut` leaves the list as it was and warns with its name. */
  lemma UseCutExhausted(list: seq<ClientPlan>, i: nat)
    requires UniquePlanIds(list) && i < |list| && list[i].remainingCuts == 0
    ensures UseCut(list, list[i].id) == CutOutcome(list, [list[i].name])
  {
    var id := list[i].id;
    assert UseCut(list, id).plans == list;
    var keep := ExhaustedWith(id);
    assert list == list[..i] + [list[i]] + list[i + 1..];
    FilterAppend(list[..i] + [list[i]], list[i + 1..], keep);
    FilterAppend(list[..i], [list[i]], keep);
    assert Filter(list[..i], keep) == [] by {
      if Filter(list[..i], keep) != [] {
        FilterMember(list[..i], keep, Filter(list[..i], keep)[0]);
        assert false;
      }
    }
    assert Filter(list[i + 1..], keep) == [] by {
      if Filter(list[i + 1..], keep) != [] {
        FilterMember(list[i + 1..], keep, Filter(list[i + 1..], keep)[0]);
        assert false;
      }
    }
    assert Filter([list[i]], keep) == [list[i]];
  }

  /** `useCut` and `resetCuts` keep every plan's credit in range. */
  lemma CounterKeepsRange(list: seq<ClientPlan>, id: string)
    requires AllInRange(list)
    ensures AllInRange(UseCut(list, id).plans)
    ensures AllInRange(ResetCuts(list, id))
  {
  }

  /** Renewing twice is renewing once. */
  lemma ResetIdempotent(list: seq<ClientPlan>, id: string)
    ensures ResetCuts(ResetCuts(list, id), id) == ResetCuts(list, id)
  {
  }

  /** With an id nobody holds, an update changes no plan, and a list already in name order
      is returned as it was. */
  lemma UpdatePlanUnknownId(list: seq<ClientPlan>, id: string, f: PlanFields)
    requires !PlanIdIn(id, list)
    ensures multiset(UpdatePlanIn(list, id, f)) == multiset(list)
    ensures SortedBy(list, ByName) ==> UpdatePlanIn(list, id, f) == list
  {
    assert ReplacePlan(list, id, f) == list;
    if SortedBy(list, ByName) {
      SortOfSorted(list, ByName);
    }
  }

  /** Deleting an id nobody holds returns the list as it was; deleting keeps the rest in order. */
  lemma DeletePlanKeepsOrder(a: seq<ClientPlan>, b: seq<ClientPlan>, id: string)
    ensures !PlanIdIn(id, a) ==> DeletePlanFrom(a, id) == a
    ensures DeletePlanFrom(a + b, id) == DeletePlanFrom(a, id) + DeletePlanFrom(b, id)
    ensures SortedBy(a, ByName) ==> SortedBy(DeletePlanFrom(a, id), ByName)
  {
    if !PlanIdIn(id, a) {
      FilterAll(a, PlanHasOtherId(id));
    }
    FilterAppend(a, b, PlanHasOtherId(id));
    if SortedBy(a, ByName) {
      FilterSorted(a, PlanHasOtherId(id), ByName);
    }
  }

  /** Adding a plan whose cut total is not negative keeps every plan in range. */
  lemma AddKeepsRange(list: seq<ClientPlan>, id: string, d: PlanData)
    requires AllInRange(list) && d.totalCuts >= 0
    ensures AllInRange(AddPlanTo(list, id, d))
  {
    var r := AddPlanTo(list, id, d);
    forall i | 0 <= i < |r| ensures CutsInRange(r[i]) {
      assert r[i] in multiset(list) + multiset{NewPlan(id, d)};
      if r[i] != NewPlan(id, d) {
        var k :| 0 <= k < |list| && list[k] == r[i];
      }
    }
  }

  /** The notifications the persist step can show. */
  datatype PlanNotice = PlanDeleted | PlanAdded(name: string) | CutUsed(name: string)
                      | PlanRenewed(name: string) | PlanUpdated(name: string) | PlanSaveFailed

  function PlanHasId(id: string): ClientPlan -> bool
  {
    (p: ClientPlan) => p.id == id
  }

  predicate PlanChangedFrom(prev: seq<ClientPlan>, p: ClientPlan)
  {
    match Find(prev, PlanHasId(p.id))
    case None => false
    case Some(q) => q != p
  }

  function PlanChangedIn(prev: seq<ClientPlan>): ClientPlan -> bool
  {
    (p: ClientPlan) => PlanChangedFrom(prev, p)
  }

  function PlanNewIn(prev: seq<ClientPlan>): ClientPlan -> bool
  {
    (p: ClientPlan) => !PlanIdIn(p.id, prev)
  }

  /** The notification a successful write shows. Unlike the services store there is no
      "unchanged" short cut: a list of the same length with no changed plan shows nothing. */
  function ClassifyPlanChange(prev: seq<ClientPlan>, cur: seq<ClientPlan>): (n: Option<PlanNotice>)
    ensures n == Some(PlanDeleted) <==> |prev| > |cur|
    ensures n.Some? && n.value.PlanAdded? ==> |cur| > |prev|
    ensures n.Some? && (n.value.CutUsed? || n.value.PlanRenewed? || n.value.PlanUpdated?) ==> |cur| == |prev|
    ensures n != Some(PlanSaveFailed)
  {
    if |prev| > |cur| then Some(PlanDeleted)
    else if |prev| < |cur| then
      match Find(cur, PlanNewIn(prev))
      case None => None
      case Some(p) => Some(PlanAdded(p.name))
    else
      match Find(cur, PlanChangedIn(prev))
      case None => None
      case Some(p) =>
        match Find(prev, PlanHasId(p.id))
        case None => None
        case Some(q) =>
          if p.remainingCuts < q.remainingCuts then Some(CutUsed(p.name))
          else if p.remainingCuts > q.remainingCuts then Some(PlanRenewed(p.name))
          else Some(PlanUpdated(p.name))
  }

  lemma FindPlanById(list: seq<ClientPlan>, i: nat)
    requires UniquePlanIds(list) && i < |list|
    ensures Find(list, PlanHasId(list[i].id)) == Some(list[i])
  {
    FindOnly(list, PlanHasId(list[i].id), i);
  }

  /** Writing a list with unique ids a second time shows nothing. */
  lemma UnchangedSilent(list: seq<ClientPlan>)
    requires UniquePlanIds(list)
    ensures ClassifyPlanChange(list, list) == None
  {
    forall j | 0 <= j < |list| ensures !PlanChangedIn(list)(list[j]) {
      FindPlanById(list, j);
    }
  }

  /** A cut taken from a plan with cuts left announces a used cut under that plan's name. */
  lemma CutAnnounced(list: seq<ClientPlan>, i: nat)
    requires UniquePlanIds(list) && i < |list| && list[i].remainingCuts > 0
    ensures ClassifyPlanChange(list, UseCut(list, list[i].id).plans) == Some(CutUsed(list[i].name))
  {
    var cur := UseCut(list, list[i].id).plans;
    FindPlanById(list, i);
    assert PlanChangedIn(list)(cur[i]);
    forall j | 0 <= j < |cur| && PlanChangedIn(list)(cur[j]) ensures cur[j] == cur[i] {
      FindPlanById(list, j);
    }
    FindOnly(cur, PlanChangedIn(list), i);
  }

  /** Renewing a plan that has used cuts announces a renewal under that plan's name. */
  lemma RenewAnnounced(list: seq<ClientPlan>, i: nat)
    requires UniquePlanIds(list) && i < |list| && list[i].remainingCuts < list[i].totalCuts
    ensures ClassifyPlanChange(list, ResetCuts(list, list[i].id)) == Some(PlanRenewed(list[i].name))
  {
    var cur := ResetCuts(list, list[i].id);
    FindPlanById(list, i);
    assert PlanChangedIn(list)(cur[i]);
    forall j | 0 <= j < |cur| && PlanChangedIn(list)(cur[j]) ensures cur[j] == cur[i] {
      FindPlanById(list, j);
    }
    FindOnly(cur, PlanChangedIn(list), i);
  }

  /** Adding a plan under a fresh id announces that plan's name. */
  lemma AddPlanAnnounced(list: seq<ClientPlan>, id: string, d: PlanData)
    requires !PlanIdIn(id, list)
    ensures ClassifyPlanChange(list, AddPlanTo(list, id, d)) == Some(PlanAdded(d.name))
  {
    var r := AddPlanTo(list, id, d);
    assert NewPlan(id, d) in multiset(r);
    var k :| 0 <= k < |r| && r[k] == NewPlan(id, d);
    forall j | 0 <= j < |r| && PlanNewIn(list)(r[j]) ensures r[j] == r[k] {
      assert r[j] in multiset(list) + multiset{NewPlan(id, d)};
    }
    FindOnly(r, PlanNewIn(list), k);
  }

  /** Deleting a plan that exists announces a deletion. */
  lemma DeletePlanAnnounced(list: seq<ClientPlan>, i: nat)
    requires i < |list|
    ensures ClassifyPlanChange(list, DeletePlanFrom(list, list[i].id)) == Some(PlanDeleted)
  {
    FilterShrinks(list, PlanHasOtherId(list[i].id), i);
  }

  /** The state of `useClientPlans`. */
  class PlanStore {
    var plans: seq<ClientPlan>
    var isLoaded: bool
    var previous: seq<ClientPlan>
    var storage: StorageEntry<seq<ClientPlan>>

    constructor (stored: StorageEntry<seq<ClientPlan>>)
      ensures plans == [] && !isLoaded && previous == [] && storage == stored
    {
      plans := [];
      isLoaded := false;
      previous := [];
      storage := stored;
    }

    /** The load effect: a decoded entry becomes the list and the last-written list; an absent
        or unreadable entry leaves both as they were. Loading always ends with the store loaded. */
    method Load()
      modifies this
      ensures isLoaded && storage == old(storage)
      ensures storage.Entry? ==> plans == storage.value && previous == storage.value
      ensures !storage.Entry? ==> plans == old(plans) && previous == old(previous)
    {
      if storage.Entry? {
        plans := storage.value;
        previous := storage.value;
      }
      isLoaded := true;
    }

    method AddPlan(id: string, d: PlanData)
      modifies this`plans
      ensures plans == AddPlanTo(old(plans), id, d)
    {
      plans := AddPlanTo(plans, id, d);
    }

    method UpdatePlan(id: string, f: PlanFields)
      modifies this`plans
      ensures plans == UpdatePlanIn(old(plans), id, f)
    {
      plans := UpdatePlanIn(plans, id, f);
    }

    method DeletePlan(id: string)
      modifies this`plans
      ensures plans == DeletePlanFrom(old(plans), id)
    {
      plans := DeletePlanFrom(plans, id);
    }

    /** `useCut`, returning the names whose "no cuts remaining" warning fires. */
    method UseCutOf(id: string) returns (warnings: seq<string>)
      modifies this`plans
      ensures plans == UseCut(old(plans), id).plans && warnings == UseCut(old(plans), id).warnings
      ensures AllInRange(old(plans)) ==> AllInRange(plans)
    {
      if AllInRange(plans) {
        CounterKeepsRange(plans, id);
      }
      var o := UseCut(plans, id);
      plans := o.plans;
      warnings := o.warnings;
    }

    method ResetCutsOf(id: string)
      modifies this`plans
      ensures plans == ResetCuts(old(plans), id)
      ensures AllInRange(old(plans)) ==> AllInRange(plans)
    {
      if AllInRange(plans) {
        CounterKeepsRange(plans, id);
      }
      plans := ResetCuts(plans, id);
    }

    /** The persist effect: nothing before loading; on a failed write the error notification
        and the last-written list kept; otherwise the list stored, the change classified and
        the list remembered as written. */
    method Persist(writeOk: bool) returns (notice: Option<PlanNotice>)
      modifies this`storage, this`previous
      ensures !isLoaded ==> notice == None && storage == old(storage) && previous == old(previous)
      ensures isLoaded && !writeOk ==>
        notice == Some(PlanSaveFailed) && storage == old(storage) && previous == old(previous)
      ensures isLoaded && writeOk ==>
        && storage == Entry(plans)
        && notice == ClassifyPlanChange(old(previous), plans)
        && previous == plans
    {
      notice := None;
      if isLoaded {
        if writeOk {
          storage := Entry(plans);
          notice := ClassifyPlanChange(previous, plans);
          previous := plans;
        } else {
          notice := Some(PlanSaveFailed);
        }
      }
    }
  }
}

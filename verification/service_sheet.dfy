/**
  The add/edit-service sheet: the toggle over predefined services, the name and price
  derived from the selection, the form schema and the submit guard.
*/
module ServiceSheet {
  import opened Wrappers
  import opened Domain
  import opened Text
  import opened Dates
  import opened Seqs

  /** `s => s.name === service.name`. */
  function SameName(svc: PredefinedService): PredefinedService -> bool
  {
    (s: PredefinedService) => s.name == svc.name
  }

  /** `s => s.name !== service.name`. */
  function OtherName(svc: PredefinedService): PredefinedService -> bool
  {
    (s: PredefinedService) => s.name != svc.name
  }

  function NameOf(): PredefinedService -> string
  {
    (s: PredefinedService) => s.name
  }

  /** `selected.map(s => s.name)`. */
  function Names(selected: seq<PredefinedService>): seq<string>
  {
    Map(selected, NameOf())
  }

  /** `isServiceSelected`: some selected entry carries the service's name. */
  predicate IsSelected(selected: seq<PredefinedService>, svc: PredefinedService)
  {
    Find(selected, SameName(svc)).Some?
  }

  lemma IsSelectedMeans(selected: seq<PredefinedService>, svc: PredefinedService)
    ensures IsSelected(selected, svc) <==> svc.name in Names(selected)
  {
    var names := Names(selected);
    if IsSelected(selected, svc) {
      var k :| 0 <= k < |selected| && selected[k] == Find(selected, SameName(svc)).value;
      assert names[k] == svc.name;
    }
  }

  /** The selection after `handlePredefinedClick(svc)` in create mode: every entry with the
      service's name is dropped, or, when there is none, the service is appended. */
  function Toggle(selected: seq<PredefinedService>, svc: PredefinedService): seq<PredefinedService>
  {
    if IsSelected(selected, svc) then Filter(selected, OtherName(svc)) else selected + [svc]
  }

  function NamesDiffer(): (PredefinedService, PredefinedService) -> bool
  {
    (a: PredefinedService, b: PredefinedService) => a.name != b.name
  }

  /** No two entries share a name. */
  predicate UniqueNames(selected: seq<PredefinedService>)
  {
    SortedBy(selected, NamesDiffer())
  }

  /** After a click the service's name is selected exactly when it was not before, and every
      other name is selected exactly when it was. */
  lemma ToggleFlipsOnlyItsName(selected: seq<PredefinedService>, svc: PredefinedService, n: string)
    ensures n in Names(Toggle(selected, svc)) <==>
      (if n == svc.name then !IsSelected(selected, svc) else n in Names(selected))
  {
    IsSelectedMeans(selected, svc);
    var r := Toggle(selected, svc);
    if IsSelected(selected, svc) {
      NamesMember(selected, n);
      NamesMember(r, n);
      forall x | true ensures x in r <==> x in selected && x.name != svc.name {
        FilterMember(selected, OtherName(svc), x);
      }
    } else {
      assert Names(r) == Names(selected) + [svc.name];
    }
  }

  lemma NamesMember(selected: seq<PredefinedService>, n: string)
    ensures n in Names(selected) <==> exists x :: x in selected && x.name == n
  {
    if n in Names(selected) {
      var k :| 0 <= k < |selected| && Names(selected)[k] == n;
      assert selected[k] in selected;
    }
    if exists x :: x in selected && x.name == n {
      var x :| x in selected && x.name == n;
      var k :| 0 <= k < |selected| && selected[k] == x;
      assert Names(selected)[k] == n;
    }
  }

  /** Clicking keeps the names of the selection pairwise distinct. */
  lemma ToggleKeepsNamesUnique(selected: seq<PredefinedService>, svc: PredefinedService)
    requires UniqueNames(selected)
    ensures UniqueNames(Toggle(selected, svc))
  {
    if IsSelected(selected, svc) {
      FilterSorted(selected, OtherName(svc), NamesDiffer());
    } else {
      var r := selected + [svc];
      forall i, j | 0 <= i < j < |r| ensures NamesDiffer()(r[i], r[j]) {
        if j == |selected| {
          assert !SameName(svc)(selected[i]);
        }
      }
    }
  }

  /** Clicking a service that is not selected and then clicking it again gives the original
      selection back. */
  lemma ToggleTwiceRestores(selected: seq<PredefinedService>, svc: PredefinedService)
    requires !IsSelected(selected, svc)
    ensures Toggle(Toggle(selected, svc), svc) == selected
  {
    var once := selected + [svc];
    assert SameName(svc)(once[|selected|]);
    assert IsSelected(once, svc);
    FilterAppend(selected, [svc], OtherName(svc));
    FilterAll(selected, OtherName(svc));
    assert Filter([svc], OtherName(svc)) == [];
  }

  /** The selection a sequence of clicks builds from the empty one. */
  function AfterClicks(clicks: seq<PredefinedService>): seq<PredefinedService>
  {
    if clicks == [] then [] else Toggle(AfterClicks(clicks[..|clicks| - 1]), clicks[|clicks| - 1])
  }

  /** Starting from an empty selection, no two selected entries ever share a name. */
  lemma {:induction false} ClicksKeepNamesUnique(clicks: seq<PredefinedService>)
    ensures UniqueNames(AfterClicks(clicks))
  {
    if clicks != [] {
      ClicksKeepNamesUnique(clicks[..|clicks| - 1]);
      ToggleKeepsNamesUnique(AfterClicks(clicks[..|clicks| - 1]), clicks[|clicks| - 1]);
    }
  }

  /** The form's name in create mode: the selected names joined by ", ". */
  function DerivedName(selected: seq<PredefinedService>): string
  {
    JoinWith(Names(selected), ", ")
  }

  /** The form's price in create mode: `selected.reduce((acc, s) => acc + s.price, 0)`. */
  function DerivedPrice(selected: seq<PredefinedService>): real
  {
    if selected == [] then 0.0 else selected[0].price + DerivedPrice(selected[1..])
  }

  /** Appending a service to the selection appends ", " and its name to the derived name (or
      makes its name the whole name when nothing was selected) and adds its price. */
  lemma DerivedAfterAppend(selected: seq<PredefinedService>, svc: PredefinedService)
    ensures DerivedName(selected + [svc]) ==
      (if selected == [] then svc.name else DerivedName(selected) + ", " + svc.name)
    ensures DerivedPrice(selected + [svc]) == DerivedPrice(selected) + svc.price
  {
    assert Names(selected + [svc]) == Names(selected) + [svc.name];
    if selected != [] {
      JoinWithSnoc(Names(selected), svc.name, ", ");
    } else {
      assert Names(selected) + [svc.name] == [svc.name];
    }
    DerivedPriceAppend(selected, [svc]);
  }

  lemma {:induction false} DerivedPriceAppend(a: seq<PredefinedService>, b: seq<PredefinedService>)
    ensures DerivedPrice(a + b) == DerivedPrice(a) + DerivedPrice(b)
  {
    if a == [] {
      assert a + b == b;
    } else {
      assert (a + b)[1..] == a[1..] + b;
      DerivedPriceAppend(a[1..], b);
    }
  }

  /** Every selected price is counted once, either among the entries with the service's name
      or among the others; so un-selecting a service lowers the price by what its entries
      cost. */
  lemma {:induction false} DerivedPriceSplits(selected: seq<PredefinedService>, svc: PredefinedService)
    ensures DerivedPrice(selected) ==
      DerivedPrice(Filter(selected, SameName(svc))) + DerivedPrice(Filter(selected, OtherName(svc)))
  {
    if selected != [] {
      DerivedPriceSplits(selected[1..], svc);
      var x := selected[0];
      var same := if SameName(svc)(x) then [x] else [];
      var other := if SameName(svc)(x) then [] else [x];
      DerivedPriceAppend(same, Filter(selected[1..], SameName(svc)));
      DerivedPriceAppend(other, Filter(selected[1..], OtherName(svc)));
    }
  }

  /** The effect that runs when the selection changes in create mode (and the reset when the
      sheet opens for a new service): name and price follow the selection. */
  function FollowSelection(form: ServiceForm, selected: seq<PredefinedService>): ServiceForm
  {
    form.(name := DerivedName(selected), price := Some(DerivedPrice(selected)))
  }

  /** The values the form holds. `price` is `None` when the number input holds no number
      (`valueAsNumber` is NaN); `date` is `None` when it holds no valid date. */
  datatype ServiceForm = ServiceForm(name: string, price: Option<real>, paymentMethod: string, date: Option<Date>)

  /** The `z.enum` on the payment method. */
  function SchemaMethod(s: string): (r: Option<PaymentMethod>)
    ensures r.Some? <==> s == "dinheiro" || s == "pagamento online"
    ensures r.Some? ==> MethodLiteral(r.value) == s
  {
    if s == "dinheiro" then Some(Dinheiro)
    else if s == "pagamento online" then Some(PagamentoOnline)
    else None
  }

  /** `serviceSchema`: a name of at least one UTF-16 unit, a number of at least 0.01, one of
      the two method literals and a date. */
  predicate SchemaAccepts(form: ServiceForm)
  {
    && Utf16Length(form.name) >= 1
    && form.price.Some? && form.price.value >= 0.01
    && SchemaMethod(form.paymentMethod).Some?
    && form.date.Some?
  }

  /** `data.name && data.price > 0`, the guard inside `onSubmit`. */
  predicate SubmitGuard(name: string, price: real)
  {
    name != "" && price > 0.0
  }

  /** Dates the form can hold: a calendar pick (1900 or later), today, or a stored
      "yyyy-MM-dd" date read back. */
  predicate DateWritable(form: ServiceForm)
  {
    form.date.Some? ==> form.date.value.year >= 0
  }

  /** What a press of the submit button hands to `onSave`. The schema runs first and
      `onSubmit` is not called on a rejected form; every accepted form passes the guard,
      so exactly the accepted forms are forwarded, with the date written "yyyy-MM-dd" so
      that reading it back gives the chosen date. */
  function Submitted(form: ServiceForm): (r: Option<ServiceData>)
    requires DateWritable(form)
    ensures r.Some? <==> SchemaAccepts(form)
    ensures r.Some? ==> r.value.name == form.name && form.price == Some(r.value.price)
    ensures r.Some? ==> MethodLiteral(r.value.paymentMethod) == form.paymentMethod
    ensures r.Some? && form.date.value.year <= 9999 ==> ParseIso(r.value.date) == form.date
  {
    if !SchemaAccepts(form) then None
    else if SubmitGuard(form.name, form.price.value) then
      var d := form.date.value;
      assert d.year <= 9999 ==> ParseIso(FormatIso(d)) == Some(d) by {
        if d.year <= 9999 { IsoRoundTrip(d); }
      }
      Some(ServiceData(form.name, form.price.value, SchemaMethod(form.paymentMethod).value, FormatIso(d)))
    else
      assert false;
      None
  }

  /** The blank form a new sheet starts with (name "", price 0) is refused. */
  lemma DefaultFormRefused(now: Date)
    ensures !SchemaAccepts(ServiceForm("", Some(0.0), "dinheiro", Some(now)))
  {
  }

  /** The calendar offers the days from 1900-01-01 up to today. */
  predicate Selectable(d: Date, today: Date)
  {
    d.year >= 1900 && DayNumber(d) <= DayNumber(today)
  }

  /** The typing handlers as the component wires them: the field takes the new value and the
      selection is set to a fresh empty list. In create mode that new list re-runs the
      effect on the selection, which writes the empty selection's name and price over the
      field. */
  function TypedAsWritten(form: ServiceForm, editing: bool, typed: ServiceForm): ServiceForm
  {
    if editing then typed else FollowSelection(typed, [])
  }

  /** In create mode whatever is typed into the name field is replaced by "" (and the price
      by 0), so a custom service can never be submitted from a new sheet. */
  lemma TypedNameErased(form: ServiceForm, v: string)
    ensures TypedAsWritten(form, false, form.(name := v)).name == ""
    ensures !SchemaAccepts(TypedAsWritten(form, false, form.(name := v)))
  {
  }

  /**
    The sheet's state: the service being edited (if any), the selected predefined services
    and the form values.
  */
  class Sheet {
    var editing: Option<Service>
    var selected: seq<PredefinedService>
    var form: ServiceForm

    /** The selection never repeats a name, it is empty while editing, and the form's date
        can be written as "yyyy-MM-dd". */
    predicate Valid()
      reads this
    {
      UniqueNames(selected) && (editing.Some? ==> selected == []) && DateWritable(form)
    }

    /** A sheet mounted for a new service: nothing selected, name "", price 0, cash, now. */
    constructor(now: Date)
      requires now.year >= 0
      ensures Valid()
      ensures editing == None && selected == []
      ensures form == ServiceForm("", Some(0.0), "dinheiro", Some(now))
    {
      editing := None;
      selected := [];
      form := ServiceForm("", Some(0.0), "dinheiro", Some(now));
    }

    /** Opening the sheet. With a service to edit the form is filled from it and the
        selection emptied; otherwise name and price follow the selection and the method
        ("dinheiro" when blank) and date are kept. */
    method Open(toEdit: Option<Service>)
      requires Valid()
      modifies this
      ensures Valid()
      ensures editing == toEdit
      ensures toEdit.Some? ==> selected == [] && form == ServiceForm(toEdit.value.name,
        Some(toEdit.value.price), MethodLiteral(toEdit.value.paymentMethod), ParseIso(toEdit.value.date))
      ensures toEdit.None? ==> selected == old(selected) && form == FollowSelection(
        old(form).(paymentMethod := if old(form).paymentMethod == "" then "dinheiro" else old(form).paymentMethod),
        selected)
    {
      editing := toEdit;
      match toEdit
      case Some(s) =>
        selected := [];
        form := ServiceForm(s.name, Some(s.price), MethodLiteral(s.paymentMethod), ParseIso(s.date));
      case None =>
        var m := if form.paymentMethod == "" then "dinheiro" else form.paymentMethod;
        form := FollowSelection(form.(paymentMethod := m), selected);
    }

    /** `handlePredefinedClick`: ignored while editing; otherwise the selection toggles and
        the name and price follow it. */
    method Click(svc: PredefinedService)
      requires Valid()
      modifies this
      ensures Valid()
      ensures editing == old(editing)
      ensures old(editing).Some? ==> selected == old(selected) && form == old(form)
      ensures old(editing).None? ==> selected == Toggle(old(selected), svc) && form == FollowSelection(old(form), selected)
    {
      if editing.None? {
        ToggleKeepsNamesUnique(selected, svc);
        selected := Toggle(selected, svc);
        form := FollowSelection(form, selected);
      }
    }

    /** Typing a custom name: the name field takes the text and the selection is cleared. */
    method TypeName(v: string)
      requires Valid()
      modifies this
      ensures Valid()
      ensures editing == old(editing) && selected == []
      ensures form == old(form).(name := v)
    {
      form := form.(name := v);
      selected := [];
    }

    /** Typing a custom price (`valueAsNumber`, `None` for NaN): the price field takes it and
        the selection is cleared. */
    method TypePrice(p: Option<real>)
      requires Valid()
      modifies this
      ensures Valid()
      ensures editing == old(editing) && selected == []
      ensures form == old(form).(price := p)
    {
      form := form.(price := p);
      selected := [];
    }

    /** Choosing one of the two radio buttons. */
    method ChooseMethod(m: PaymentMethod)
      requires Valid()
      modifies this
      ensures Valid()
      ensures editing == old(editing) && selected == old(selected)
      ensures form == old(form).(paymentMethod := MethodLiteral(m))
    {
      form := form.(paymentMethod := MethodLiteral(m));
    }

    /** Picking a day in the calendar. */
    method PickDate(d: Date, today: Date)
      requires Valid() && Selectable(d, today)
      modifies this
      ensures Valid()
      ensures editing == old(editing) && selected == old(selected)
      ensures form == old(form).(date := Some(d))
    {
      form := form.(date := Some(d));
    }

    /** Pressing submit: a form the schema refuses changes nothing and forwards nothing;
        an accepted one is forwarded and the selection is cleared. */
    method Submit() returns (saved: Option<ServiceData>)
      requires Valid()
      modifies this
      ensures Valid()
      ensures saved == Submitted(old(form))
      ensures editing == old(editing) && form == old(form)
      ensures selected == if SchemaAccepts(old(form)) then [] else old(selected)
    {
      saved := Submitted(form);
      if SchemaAccepts(form) {
        selected := [];
      }
    }

    /** The cancel button empties the selection. */
    method Cancel()
      requires Valid()
      modifies this
      ensures Valid()
      ensures editing == old(editing) && form == old(form) && selected == []
    {
      selected := [];
    }
  }
}

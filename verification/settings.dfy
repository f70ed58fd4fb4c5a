/**
  The settings page's editing of the predefined-service catalogue: a local copy of the
  catalogue that the handlers change entry by entry, and the filter applied on save.
*/
module Settings {
  import opened Wrappers
  import opened Domain
  import opened Text
  import opened Seqs

  /** The entry `handleAddNewService` appends. */
  const BlankEntry: PredefinedService := PredefinedService("", 0.0)

  /** `s.name.trim() !== '' && s.price > 0`. */
  predicate Keepable(s: PredefinedService)
  {
    Trim(s.name) != "" && s.price > 0.0
  }

  function KeepableOf(): PredefinedService -> bool
  {
    (s: PredefinedService) => Keepable(s)
  }

  /** The list `handleSaveChanges` hands to the store. */
  function ToSave(local: seq<PredefinedService>): seq<PredefinedService>
  {
    Filter(local, KeepableOf())
  }

  /** Saving keeps every entry with a non-blank name and a positive price, as often as it
      occurs, and no other entry; it keeps their order (the filter distributes over
      concatenation); and saving what was saved changes nothing. */
  lemma SaveKeepsExactly(local: seq<PredefinedService>, more: seq<PredefinedService>)
    ensures forall x :: multiset(ToSave(local))[x] == if Keepable(x) then multiset(local)[x] else 0
    ensures forall i :: 0 <= i < |ToSave(local)| ==> Keepable(ToSave(local)[i])
    ensures ToSave(local + more) == ToSave(local) + ToSave(more)
    ensures ToSave(ToSave(local)) == ToSave(local)
  {
    FilterCounts(local, KeepableOf());
    FilterAppend(local, more, KeepableOf());
    FilterAll(ToSave(local), KeepableOf());
  }

  /** A freshly added entry never survives a save unless it is edited first. */
  lemma BlankEntryDropped(local: seq<PredefinedService>)
    ensures ToSave(local + [BlankEntry]) == ToSave(local)
  {
    FilterAppend(local, [BlankEntry], KeepableOf());
    assert Trim(BlankEntry.name) == "";
    assert ToSave([BlankEntry]) == [];
  }

  /** `local.filter((_, i) => i !== index)`, walking the list with the index shifted. */
  function DropIndex(local: seq<PredefinedService>, index: int): seq<PredefinedService>
  {
    if local == [] then []
    else (if index == 0 then [] else [local[0]]) + DropIndex(local[1..], index - 1)
  }

  /** Removing index `i` deletes that entry only and keeps the others in order; an index
      outside the list changes nothing. */
  lemma {:induction false} DropIndexRemovesOne(local: seq<PredefinedService>, index: int)
    ensures DropIndex(local, index) ==
      if 0 <= index < |local| then local[..index] + local[index + 1..] else local
  {
    if local != [] {
      DropIndexRemovesOne(local[1..], index - 1);
      if 0 < index < |local| {
        assert local[..index] == [local[0]] + local[1..][..index - 1];
        assert local[index + 1..] == local[1..][index..];
      }
    }
  }

  /** `Number(value) || 0`: the number the text denotes (`None` for NaN), with NaN and 0
      both giving 0. */
  function PriceFromInput(n: Option<real>): (p: real)
    ensures n.Some? && n.value != 0.0 ==> p == n.value
    ensures n.None? ==> p == 0.0
  {
    match n
    case None => 0.0
    case Some(v) => if v == 0.0 then 0.0 else v
  }

  /** A typed price lets the entry through the save filter only when the text denotes a
      positive number (and the name is not blank). */
  lemma TypedPriceSurvivesSave(s: PredefinedService, n: Option<real>)
    ensures Keepable(s.(price := PriceFromInput(n))) <==> Trim(s.name) != "" && n.Some? && n.value > 0.0
  {
  }

  /** The page's local copy of the catalogue. */
  class SettingsEditor {
    var local: seq<PredefinedService>

    constructor()
      ensures local == []
    {
      local := [];
    }

    /** Once the store has loaded, the local list becomes a copy of its catalogue. */
    method Load(isLoaded: bool, catalogue: seq<PredefinedService>)
      modifies this
      ensures local == if isLoaded then catalogue else old(local)
    {
      if isLoaded {
        local := catalogue;
      }
    }

    /** `handleServiceChange(index, 'name', value)`: only entry `index` changes, and only its
        name. */
    method ChangeName(index: nat, value: string)
      requires index < |local|
      modifies this
      ensures |local| == |old(local)|
      ensures local[index] == old(local)[index].(name := value)
      ensures forall j :: 0 <= j < |local| && j != index ==> local[j] == old(local)[j]
    {
      local := local[index := local[index].(name := value)];
    }

    /** `handleServiceChange(index, 'price', value)`, given the number `Number(value)` denotes
        (`None` for NaN): only entry `index` changes, and only its price. */
    method ChangePrice(index: nat, number: Option<real>)
      requires index < |local|
      modifies this
      ensures |local| == |old(local)|
      ensures local[index] == old(local)[index].(price := PriceFromInput(number))
      ensures forall j :: 0 <= j < |local| && j != index ==> local[j] == old(local)[j]
    {
      local := local[index := local[index].(price := PriceFromInput(number))];
    }

    /** `handleAddNewService`: a blank entry at the end. */
    method AddNew()
      modifies this
      ensures local == old(local) + [BlankEntry]
    {
      local := local + [BlankEntry];
    }

    /** `handleRemoveService(index)`. */
    method Remove(index: int)
      modifies this
      ensures local == if 0 <= index < |old(local)| then old(local)[..index] + old(local)[index + 1..] else old(local)
    {
      DropIndexRemovesOne(local, index);
      local := DropIndex(local, index);
    }

    /** `handleSaveChanges`: the list handed to the store. */
    method Save() returns (saved: seq<PredefinedService>)
      ensures saved == ToSave(local)
      ensures forall i :: 0 <= i < |saved| ==> Keepable(saved[i])
    {
      saved := ToSave(local);
    }
  }
}

/**
  The services store (`useServices`): the list of billed services, its four list
  rewrites, the load from storage, and the persist step that writes the list back and
  chooses which notification to show.
*/
module ServicesStore {
  import opened Wrappers
  import opened Domain
  import opened Dates
  import opened Seqs

  /** `new Date(s.date).getTime()` reduced to the day: `None` when the stored date does not
      read as a date. */
  function DateKey(s: Service): Option<int>
  {
    match ParseIso(s.date)
    case None => None
    case Some(d) => Some(DayNumber(d))
  }

  /** The store's comparator read as "`a` may stand before `b`": `a` is not older than `b`.
      A record whose date does not read is ranked below every dated one. */
  predicate NewerOrSame(a: Service, b: Service)
  {
    match (DateKey(a), DateKey(b))
    case (Some(x), Some(y)) => x >= y
    case (_, None) => true
    case (None, Some(_)) => false
  }

  lemma NewerOrSameIsTotalPreorder()
    ensures TotalPreorder(NewerOrSame)
  {
    forall a, b, c | NewerOrSame(a, b) && NewerOrSame(b, c) ensures NewerOrSame(a, c) {
      if DateKey(c).Some? {
        assert DateKey(b).Some? && DateKey(a).Some?;
      }
    }
  }

  /** The list newest first; equal dates keep their order, as `Array.prototype.sort` does. */
  function NewestFirst(list: seq<Service>): (r: seq<Service>)
    ensures |r| == |list| && multiset(r) == multiset(list)
    ensures SortedBy(r, NewerOrSame)
  {
    NewerOrSameIsTotalPreorder();
    SortSorted(list, NewerOrSame);
    Sort(list, NewerOrSame)
  }

  /** The service is dated today: `new Date(s.date).toDateString() === new Date().toDateString()`. */
  predicate IsToday(s: Service, today: Date)
  {
    ParseIso(s.date) == Some(today)
  }

  function TodayOf(today: Date): Service -> bool
  {
    (s: Service) => IsToday(s, today)
  }

  function NotTodayOf(today: Date): Service -> bool
  {
    (s: Service) => !IsToday(s, today)
  }

  function HasId(id: string): Service -> bool
  {
    (s: Service) => s.id == id
  }

  function HasOtherId(id: string): Service -> bool
  {
    (s: Service) => s.id != id
  }

  predicate IdIn(id: string, list: seq<Service>)
  {
    exists i :: 0 <= i < |list| && list[i].id == id
  }

  /** No two records share an id. */
  predicate UniqueIds(list: seq<Service>)
  {
    forall i, j :: 0 <= i < j < |list| ==> list[i].id != list[j].id
  }

  /** `addService`: the new record `{id, ...data}` joins the list, which is then ordered
      newest first. */
  function AddTo(list: seq<Service>, id: string, d: ServiceData): (r: seq<Service>)
    ensures |r| == |list| + 1
    ensures multiset(r) == multiset(list) + multiset{WithId(id, d)}
    ensures SortedBy(r, NewerOrSame)
  {
    NewestFirst([WithId(id, d)] + list)
  }

  /** The `map` step of `updateService`. */
  function Replace(list: seq<Service>, id: string, d: ServiceData): (r: seq<Service>)
    ensures |r| == |list|
    ensures forall i :: 0 <= i < |list| ==> r[i] == if list[i].id == id then WithId(id, d) else list[i]
  {
    Map(list, (s: Service) => if s.id == id then WithId(id, d) else s)
  }

  /** `updateService`: every record with the id becomes `{id, ...data}`, the others stay,
      and the list is ordered newest first. */
  function UpdateIn(list: seq<Service>, id: string, d: ServiceData): (r: seq<Service>)
    ensures |r| == |list|
    ensures multiset(r) == multiset(Replace(list, id, d))
    ensures SortedBy(r, NewerOrSame)
  {
    NewestFirst(Replace(list, id, d))
  }

  /** `deleteService`. */
  function DeleteFrom(list: seq<Service>, id: string): (r: seq<Service>)
    ensures forall i :: 0 <= i < |r| ==> r[i].id != id
    ensures forall x :: multiset(r)[x] == if x.id != id then multiset(list)[x] else 0
  {
    FilterCounts(list, HasOtherId(id));
    Filter(list, HasOtherId(id))
  }

  /** `clearServices`: today's records go, every other record stays. */
  function ClearToday(list: seq<Service>, today: Date): (r: seq<Service>)
    ensures forall i :: 0 <= i < |r| ==> !IsToday(r[i], today)
    ensures forall x :: multiset(r)[x] == if IsToday(x, today) then 0 else multiset(list)[x]
  {
    FilterCounts(list, NotTodayOf(today));
    Filter(list, NotTodayOf(today))
  }

  /** With an id nobody holds, an update changes no record, and a list already in order is
      returned as it was. */
  lemma UpdateUnknownId(list: seq<Service>, id: string, d: ServiceData)
    requires !IdIn(id, list)
    ensures multiset(UpdateIn(list, id, d)) == multiset(list)
    ensures SortedBy(list, NewerOrSame) ==> UpdateIn(list, id, d) == list
  {
    assert Replace(list, id, d) == list;
    if SortedBy(list, NewerOrSame) {
      SortOfSorted(list, NewerOrSame);
    }
  }

  /** Repeating an update changes nothing more. */
  lemma UpdateIdempotent(list: seq<Service>, id: string, d: ServiceData)
    ensures UpdateIn(UpdateIn(list, id, d), id, d) == UpdateIn(list, id, d)
  {
    var rep := Replace(list, id, d);
    var r := UpdateIn(list, id, d);
    forall i | 0 <= i < |r| && r[i].id == id ensures r[i] == WithId(id, d) {
      assert r[i] in multiset(rep);
      var k :| 0 <= k < |rep| && rep[k] == r[i];
    }
    assert Replace(r, id, d) == r;
    SortOfSorted(r, NewerOrSame);
  }

  /** With a fresh id the added record is the only one carrying that id. */
  lemma AddedOnlyHolder(list: seq<Service>, id: string, d: ServiceData)
    requires !IdIn(id, list)
    ensures forall i :: 0 <= i < |AddTo(list, id, d)| && AddTo(list, id, d)[i].id == id ==>
      AddTo(list, id, d)[i] == WithId(id, d)
  {
    var r := AddTo(list, id, d);
    forall i | 0 <= i < |r| && r[i].id == id ensures r[i] == WithId(id, d) {
      assert r[i] in multiset(list) + multiset{WithId(id, d)};
    }
  }

  /** Deleting an id nobody holds returns the list as it was. */
  lemma DeleteAbsent(list: seq<Service>, id: string)
    requires !IdIn(id, list)
    ensures DeleteFrom(list, id) == list
  {
    FilterAll(list, HasOtherId(id));
  }

  /** Deleting and clearing keep the survivors in their order: a list in date order stays in
      date order, and both distribute over concatenation. */
  lemma RemovalKeepsOrder(a: seq<Service>, b: seq<Service>, id: string, today: Date)
    ensures DeleteFrom(a + b, id) == DeleteFrom(a, id) + DeleteFrom(b, id)
    ensures ClearToday(a + b, today) == ClearToday(a, today) + ClearToday(b, today)
    ensures SortedBy(a, NewerOrSame) ==> SortedBy(DeleteFrom(a, id), NewerOrSame)
    ensures SortedBy(a, NewerOrSame) ==> SortedBy(ClearToday(a, today), NewerOrSame)
  {
    FilterAppend(a, b, HasOtherId(id));
    FilterAppend(a, b, NotTodayOf(today));
    if SortedBy(a, NewerOrSame) {
      FilterSorted(a, HasOtherId(id), NewerOrSame);
      FilterSorted(a, NotTodayOf(today), NewerOrSame);
    }
  }

  /** A list with no record dated today is left as it was by clearing. */
  lemma ClearWithoutToday(list: seq<Service>, today: Date)
    requires forall i :: 0 <= i < |list| ==> !IsToday(list[i], today)
    ensures ClearToday(list, today) == list
  {
    FilterAll(list, NotTodayOf(today));
  }

  /** The notifications the persist step can show. */
  datatype ServiceNotice = ServiceAdded(name: string) | ServiceDeleted | ListCleared
                         | ServiceUpdated(name: string) | SaveFailed

  /** The record of `cur` that `prev` has under the same id but in a different form. */
  predicate ChangedFrom(prev: seq<Service>, s: Service)
  {
    match Find(prev, HasId(s.id))
    case None => false
    case Some(p) => p != s
  }

  function ChangedIn(prev: seq<Service>): Service -> bool
  {
    (s: Service) => ChangedFrom(prev, s)
  }

  function NewIn(prev: seq<Service>): Service -> bool
  {
    (s: Service) => !IdIn(s.id, prev)
  }

  /** The notification a successful write shows, from the list as last written (`prev`) and the
      list now (`cur`). */
  function ClassifyChange(prev: seq<Service>, cur: seq<Service>, today: Date): (n: Option<ServiceNotice>)
    ensures cur == prev ==> n == None
    ensures n.Some? && n.value.ServiceAdded? ==> |cur| > |prev|
    ensures n.Some? && (n.value.ServiceDeleted? || n.value.ListCleared?) ==> |cur| < |prev|
    ensures |cur| < |prev| ==> n.Some?
    ensures |cur| < |prev| ==> (n == Some(ListCleared) <==>
      (exists i :: 0 <= i < |prev| && IsToday(prev[i], today)) && forall j :: 0 <= j < |cur| ==> !IsToday(cur[j], today))
    ensures |cur| < |prev| && n != Some(ListCleared) ==> n == Some(ServiceDeleted)
    ensures n.Some? && n.value.ServiceUpdated? ==> |cur| == |prev|
    ensures n != Some(SaveFailed)
  {
    if cur == prev then None
    else if |cur| > |prev| then
      match Find(cur, NewIn(prev))
      case None => None
      case Some(s) => Some(ServiceAdded(s.name))
    else if |cur| < |prev| then
      FilterEmptyIff(prev, TodayOf(today));
      FilterEmptyIff(cur, TodayOf(today));
      var prevToday := |Filter(prev, TodayOf(today))|;
      var curToday := |Filter(cur, TodayOf(today))|;
      if prevToday > curToday && curToday == 0 then Some(ListCleared) else Some(ServiceDeleted)
    else
      match Find(cur, ChangedIn(prev))
      case None => None
      case Some(s) => Some(ServiceUpdated(s.name))
  }

  /** Adding a record under a fresh id announces that record's name. */
  lemma AddAnnounced(list: seq<Service>, id: string, d: ServiceData, today: Date)
    requires !IdIn(id, list)
    ensures ClassifyChange(list, AddTo(list, id, d), today) == Some(ServiceAdded(d.name))
  {
    var r := AddTo(list, id, d);
    assert WithId(id, d) in multiset(r);
    var k :| 0 <= k < |r| && r[k] == WithId(id, d);
    forall j | 0 <= j < |r| && NewIn(list)(r[j]) ensures r[j] == r[k] {
      assert r[j] in multiset(list) + multiset{WithId(id, d)};
    }
    FindOnly(r, NewIn(list), k);
    assert r != list;
  }

  /** Clearing a day that has records announces the cleared list. */
  lemma ClearAnnounced(list: seq<Service>, today: Date, i: nat)
    requires i < |list| && IsToday(list[i], today)
    ensures ClassifyChange(list, ClearToday(list, today), today) == Some(ListCleared)
  {
    var cur := ClearToday(list, today);
    FilterShrinks(list, NotTodayOf(today), i);
    FilterMember(list, TodayOf(today), list[i]);
    var curToday := Filter(cur, TodayOf(today));
    if curToday != [] {
      FilterMember(cur, TodayOf(today), curToday[0]);
      assert false;
    }
  }

  /** Deleting a record while a record of today remains announces a deletion, not a
      cleared list. */
  lemma DeleteAnnounced(list: seq<Service>, id: string, today: Date, i: nat, j: nat)
    requires i < |list| && list[i].id == id
    requires j < |list| && list[j].id != id && IsToday(list[j], today)
    ensures ClassifyChange(list, DeleteFrom(list, id), today) == Some(ServiceDeleted)
  {
    var cur := DeleteFrom(list, id);
    FilterShrinks(list, HasOtherId(id), i);
    FilterMember(list, HasOtherId(id), list[j]);
    FilterMember(cur, TodayOf(today), list[j]);
  }

  /** Deleting the last record dated today announces a cleared list, not a deletion: the
      notice looks only at how many of today's records are left. */
  lemma DeleteLastOfTodayClears(list: seq<Service>, id: string, today: Date, i: nat)
    requires i < |list| && list[i].id == id && IsToday(list[i], today)
    requires forall j :: 0 <= j < |list| && list[j].id != id ==> !IsToday(list[j], today)
    ensures ClassifyChange(list, DeleteFrom(list, id), today) == Some(ListCleared)
  {
    var cur := DeleteFrom(list, id);
    FilterShrinks(list, HasOtherId(id), i);
    forall j | 0 <= j < |cur| ensures !IsToday(cur[j], today) {
      assert multiset(cur)[cur[j]] > 0;
      var k :| 0 <= k < |list| && list[k] == cur[j];
    }
  }

  /** With unique ids, looking a record's id up finds that record. */
  lemma FindById(list: seq<Service>, i: nat)
    requires UniqueIds(list) && i < |list|
    ensures Find(list, HasId(list[i].id)) == Some(list[i])
  {
    FindOnly(list, HasId(list[i].id), i);
  }

  /** With unique ids, the only record of an update that differs from its stored form under
      the same id is the updated record. */
  lemma ChangedOnlyUpdated(list: seq<Service>, id: string, d: ServiceData, x: Service)
    requires UniqueIds(list) && x in Replace(list, id, d) && ChangedFrom(list, x)
    ensures x == WithId(id, d)
  {
    var rep := Replace(list, id, d);
    var m :| 0 <= m < |rep| && rep[m] == x;
    if list[m].id != id {
      FindById(list, m);
      assert false;
    }
  }

  /** Changing the one record that holds an id announces that record's new name. */
  lemma UpdateAnnounced(list: seq<Service>, id: string, d: ServiceData, today: Date, i: nat)
    requires UniqueIds(list)
    requires i < |list| && list[i].id == id && DataOf(list[i]) != d
    ensures ClassifyChange(list, UpdateIn(list, id, d), today) == Some(ServiceUpdated(d.name))
  {
    var rep := Replace(list, id, d);
    var cur := UpdateIn(list, id, d);
    assert rep[i] == WithId(id, d);
    assert WithId(id, d) in multiset(cur);
    var k :| 0 <= k < |cur| && cur[k] == WithId(id, d);
    FindById(list, i);
    assert ChangedIn(list)(cur[k]);
    forall j | 0 <= j < |cur| && ChangedIn(list)(cur[j]) ensures cur[j] == cur[k] {
      assert cur[j] in multiset(rep);
      ChangedOnlyUpdated(list, id, d, cur[j]);
    }
    FindOnly(cur, ChangedIn(list), k);
    if cur == list {
      FindById(list, k);
      assert false;
    }
  }

  /** The state of `useServices`. `previous` is the list as last written, `storage` the
      stored entry. */
  class ServiceStore {
    var services: seq<Service>
    var isLoaded: bool
    var previous: seq<Service>
    var storage: StorageEntry<seq<Service>>

    /** A fresh store over the given stored entry: empty, not yet loaded. */
    constructor (stored: StorageEntry<seq<Service>>)
      ensures services == [] && !isLoaded && previous == [] && storage == stored
    {
      services := [];
      isLoaded := false;
      previous := [];
      storage := stored;
    }

    /** The load effect: a decoded entry becomes the list and the last-written list; an absent
        or unreadable entry leaves both empty. Loading always ends with the store loaded. */
    method Load()
      modifies this
      ensures isLoaded && storage == old(storage)
      ensures storage.Entry? ==> services == storage.value && previous == storage.value
      ensures !storage.Entry? ==> services == old(services) && previous == old(previous)
    {
      if storage.Entry? {
        services := storage.value;
        previous := storage.value;
      }
      isLoaded := true;
    }

    method AddService(id: string, d: ServiceData)
      modifies this`services
      ensures services == AddTo(old(services), id, d)
    {
      services := AddTo(services, id, d);
    }

    method UpdateService(id: string, d: ServiceData)
      modifies this`services
      ensures services == UpdateIn(old(services), id, d)
    {
      services := UpdateIn(services, id, d);
    }

    method DeleteService(id: string)
      modifies this`services
      ensures services == DeleteFrom(old(services), id)
    {
      services := DeleteFrom(services, id);
    }

    method ClearServices(today: Date)
      modifies this`services
      ensures services == ClearToday(old(services), today)
    {
      services := ClearToday(services, today);
    }

    /** The persist effect. Before loading it does nothing. A failed write shows the error
        notification and keeps the last-written list; a successful one stores the list,
        classifies the change and remembers the list as written. */
    method Persist(writeOk: bool, today: Date) returns (notice: Option<ServiceNotice>)
      modifies this`storage, this`previous
      ensures !isLoaded ==> notice == None && storage == old(storage) && previous == old(previous)
      ensures isLoaded && !writeOk ==>
        notice == Some(SaveFailed) && storage == old(storage) && previous == old(previous)
      ensures isLoaded && writeOk ==>
        && storage == Entry(services)
        && notice == ClassifyChange(old(previous), services, today)
        && previous == services
    {
      notice := None;
      if isLoaded {
        if writeOk {
          storage := Entry(services);
          notice := ClassifyChange(previous, services, today);
          previous := services;
        } else {
          notice := Some(SaveFailed);
        }
      }
    }
  }
}

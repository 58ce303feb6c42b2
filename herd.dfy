// The herd screen (components/SheepManager.tsx): adding a sheep, changing a
// sheep's health status by id, and the filtered, searched list on display.
module Herd {
  import opened Types
  import opened Seqs
  import opened Strings
  import opened Storage

  /** The status filter buttons: every sheep, or those with one status. */
  datatype StatusFilter = All | Only(status: HealthStatus)

  /** `list.map(s => s.id === id ? { ...s, status } : s)`. */
  function WithStatus(list: seq<Sheep>, id: string, status: HealthStatus): (r: seq<Sheep>)
    ensures |r| == |list|
    ensures forall i :: 0 <= i < |list| ==>
      r[i] == if list[i].id == id then list[i].(status := status) else list[i]
  {
    if list == [] then []
    else [if list[0].id == id then list[0].(status := status) else list[0]]
         + WithStatus(list[1..], id, status)
  }

  /** Setting the same status twice is setting it once. */
  lemma WithStatusIdempotent(list: seq<Sheep>, id: string, status: HealthStatus)
    ensures WithStatus(WithStatus(list, id, status), id, status) == WithStatus(list, id, status)
  {
  }

  /** An id that no sheep has leaves the list as it is. */
  lemma WithStatusUnknownId(list: seq<Sheep>, id: string, status: HealthStatus)
    requires forall i :: 0 <= i < |list| ==> list[i].id != id
    ensures WithStatus(list, id, status) == list
  {
  }

  /** The sheep with the id carry the new status and nothing else of theirs changes. */
  lemma WithStatusTargets(list: seq<Sheep>, id: string, status: HealthStatus, i: nat)
    requires i < |list|
    ensures WithStatus(list, id, status)[i].id == list[i].id
    ensures WithStatus(list, id, status)[i].tagId == list[i].tagId
    ensures WithStatus(list, id, status)[i].age == list[i].age
    ensures WithStatus(list, id, status)[i].gender == list[i].gender
    ensures WithStatus(list, id, status)[i].notes == list[i].notes
    ensures WithStatus(list, id, status)[i].status == if list[i].id == id then status else list[i].status
  {
  }

  /** The filter button matches and the search term occurs in the tag. */
  predicate Matches(filter: StatusFilter, searchTerm: string, s: Sheep)
  {
    && (filter == All || s.status == filter.status)
    && Includes(s.tagId, searchTerm)
  }

  /** `filteredSheep`: the sheep on display. */
  function FilteredSheep(list: seq<Sheep>, filter: StatusFilter, searchTerm: string): (r: seq<Sheep>)
    ensures |r| <= |list|
    ensures forall i :: 0 <= i < |r| ==> Matches(filter, searchTerm, r[i])
  {
    Filter(s => Matches(filter, searchTerm, s), list)
  }

  /** The sheep the filter and the search hide. */
  function HiddenSheep(list: seq<Sheep>, filter: StatusFilter, searchTerm: string): seq<Sheep>
  {
    Filter(s => !Matches(filter, searchTerm, s), list)
  }

  /** The displayed sheep are the list's sheep that match, in list order, and no others;
      each matching sheep is displayed as often as it occurs, for the displayed and the
      hidden sheep together make up the herd. */
  lemma FilteredSheepSelects(list: seq<Sheep>, filter: StatusFilter, searchTerm: string)
    ensures IsSubsequence(FilteredSheep(list, filter, searchTerm), list)
    ensures forall i :: 0 <= i < |HiddenSheep(list, filter, searchTerm)| ==>
      !Matches(filter, searchTerm, HiddenSheep(list, filter, searchTerm)[i])
    ensures multiset(FilteredSheep(list, filter, searchTerm)) + multiset(HiddenSheep(list, filter, searchTerm))
      == multiset(list)
    ensures forall s :: s in FilteredSheep(list, filter, searchTerm) <==>
      (s in list && (filter == All || s.status == filter.status) &&
       exists i :: OccursAt(s.tagId, searchTerm, i))
  {
    var r := FilteredSheep(list, filter, searchTerm);
    FilterIsSubsequence(s => Matches(filter, searchTerm, s), list);
    FilterMembers(s => Matches(filter, searchTerm, s), list);
    FilterSplit(s => Matches(filter, searchTerm, s), s => !Matches(filter, searchTerm, s), list);
    forall s
      ensures s in r <==> (s in list && (filter == All || s.status == filter.status) &&
                           exists i :: OccursAt(s.tagId, searchTerm, i))
    {
      IncludesAt(s.tagId, searchTerm);
    }
  }

  /** With every status shown and nothing typed, the whole herd is displayed. */
  lemma UnfilteredShowsHerd(list: seq<Sheep>)
    ensures FilteredSheep(list, All, "") == list
  {
    forall s | s in list
      ensures Matches(All, "", s)
    {
      IncludesEmpty(s.tagId);
    }
    FilterAll(s => Matches(All, "", s), list);
  }

  /** The herd screen: the sheep list it shows, loaded from the store on mount. */
  class SheepManager {
    const store: Store
    var sheepList: seq<Sheep>

    ghost predicate Synced()
      reads this, store
    {
      store.Valid() && sheepList == store.GetSheep()
    }

    constructor (store: Store)
      requires store.Valid()
      ensures this.store == store && Synced()
    {
      this.store := store;
      sheepList := store.GetSheep();
    }

    /** The new sheep (no notes) goes in front of the list, which is saved whole. */
    method AddSheep(id: string, tagId: string, age: nat, status: HealthStatus, gender: Gender)
      requires Synced()
      modifies this, store
      ensures Synced()
      ensures sheepList == [Sheep(id, tagId, age, status, gender, None)] + old(sheepList)
      ensures store.GetTransactions() == old(store.GetTransactions())
      ensures store.GetEvents() == old(store.GetEvents())
      ensures store.GetStock() == old(store.GetStock())
    {
      var updated := [Sheep(id, tagId, age, status, gender, None)] + sheepList;
      sheepList := updated;
      store.SaveSheep(updated);
    }

    method UpdateStatus(id: string, status: HealthStatus)
      requires Synced()
      modifies this, store
      ensures Synced()
      ensures sheepList == WithStatus(old(sheepList), id, status)
      ensures store.GetTransactions() == old(store.GetTransactions())
      ensures store.GetEvents() == old(store.GetEvents())
      ensures store.GetStock() == old(store.GetStock())
    {
      var updated := WithStatus(sheepList, id, status);
      sheepList := updated;
      store.SaveSheep(updated);
    }
  }
}

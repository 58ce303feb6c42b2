// The health and feed screen (components/HealthManager.tsx): the feed stock
// gauge, adding a calendar event (the list is re-sorted by date), ticking an
// event done or undone, and the pending / completed split on display.
module Health {
  import opened Types
  import opened Seqs
  import opened Storage

  predicate SortedByDate(s: seq<CalendarEvent>)
  {
    forall i, j :: 0 <= i < j < |s| ==> s[i].date <= s[j].date
  }

  /** Selects the events of one day. */
  function OnDay(d: Day): CalendarEvent -> bool
  {
    (e: CalendarEvent) => e.date == d
  }

  /** Puts `e` after every event of `s` dated no later than it. */
  function InsertByDate(s: seq<CalendarEvent>, e: CalendarEvent): seq<CalendarEvent>
  {
    if s == [] then [e]
    else if e.date < s[0].date then [e] + s
    else [s[0]] + InsertByDate(s[1..], e)
  }

  /** `s.sort((a, b) => a.date - b.date)`: a stable sort by date (insertion sort,
      taking the events in list order). */
  function SortByDate(s: seq<CalendarEvent>): seq<CalendarEvent>
  {
    if s == [] then [] else InsertByDate(SortByDate(s[..|s| - 1]), s[|s| - 1])
  }

  lemma {:induction false} InsertByDateMultiset(s: seq<CalendarEvent>, e: CalendarEvent)
    ensures multiset(InsertByDate(s, e)) == multiset(s) + multiset{e}
  {
    if s != [] && e.date >= s[0].date {
      InsertByDateMultiset(s[1..], e);
      assert s == [s[0]] + s[1..];
    }
  }

  lemma {:induction false} InsertByDateSorted(s: seq<CalendarEvent>, e: CalendarEvent)
    requires SortedByDate(s)
    ensures SortedByDate(InsertByDate(s, e))
  {
    if s != [] && e.date >= s[0].date {
      InsertByDateSorted(s[1..], e);
      var r := InsertByDate(s[1..], e);
      InsertByDateMultiset(s[1..], e);
      forall j | 0 <= j < |r|
        ensures s[0].date <= r[j].date
      {
        assert r[j] in multiset(s[1..]) + multiset{e} by {
          assert r[j] in multiset(r);
        }
      }
    }
  }

  /** No event of a sorted list starting after day `d` is dated `d`. */
  lemma NoneOnEarlierDay(s: seq<CalendarEvent>, d: Day)
    requires SortedByDate(s) && s != [] && d < s[0].date
    ensures Filter(OnDay(d), s) == []
  {
    assert forall x :: x in s ==> !OnDay(d)(x);
  }

  /** Inserting keeps the events of each day in their order, with `e` last among its own day's. */
  lemma {:induction false} InsertByDateStable(s: seq<CalendarEvent>, e: CalendarEvent, d: Day)
    requires SortedByDate(s)
    ensures Filter(OnDay(d), InsertByDate(s, e)) == Filter(OnDay(d), s) + Filter(OnDay(d), [e])
  {
    if s == [] {
      assert InsertByDate(s, e) == [e];
    } else if e.date < s[0].date {
      InsertAtFrontStable(s, e, d);
    } else {
      InsertByDateStable(s[1..], e, d);
      InsertAfterHeadStable(s, e, d);
    }
  }

  /** An event dated before all of a sorted list goes in front, and still comes last on its own day. */
  lemma InsertAtFrontStable(s: seq<CalendarEvent>, e: CalendarEvent, d: Day)
    requires SortedByDate(s) && s != [] && e.date < s[0].date
    ensures Filter(OnDay(d), InsertByDate(s, e)) == Filter(OnDay(d), s) + Filter(OnDay(d), [e])
  {
    assert InsertByDate(s, e) == [e] + s;
    FilterAppend(OnDay(d), [e], s);
    if e.date == d {
      NoneOnEarlierDay(s, d);
    } else {
      assert Filter(OnDay(d), [e]) == [];
    }
  }

  /** The step past the head: stability of the insertion into the tail carries over to the list. */
  lemma InsertAfterHeadStable(s: seq<CalendarEvent>, e: CalendarEvent, d: Day)
    requires s != [] && e.date >= s[0].date
    requires Filter(OnDay(d), InsertByDate(s[1..], e)) == Filter(OnDay(d), s[1..]) + Filter(OnDay(d), [e])
    ensures Filter(OnDay(d), InsertByDate(s, e)) == Filter(OnDay(d), s) + Filter(OnDay(d), [e])
  {
    assert InsertByDate(s, e) == [s[0]] + InsertByDate(s[1..], e);
    assert s == [s[0]] + s[1..];
    FilterConsSuffix(OnDay(d), s[0], InsertByDate(s[1..], e), s[1..], [e]);
  }

  /** Inserting after events that are all dated no later is appending. */
  lemma {:induction false} InsertByDateAtEnd(s: seq<CalendarEvent>, e: CalendarEvent)
    requires forall i :: 0 <= i < |s| ==> s[i].date <= e.date
    ensures InsertByDate(s, e) == s + [e]
  {
    if s != [] {
      InsertByDateAtEnd(s[1..], e);
      assert s == [s[0]] + s[1..];
    }
  }

  /** The sorted list is sorted by date and holds exactly the events it was given. */
  lemma {:induction false} SortByDateSortsAndPermutes(s: seq<CalendarEvent>)
    ensures SortedByDate(SortByDate(s))
    ensures multiset(SortByDate(s)) == multiset(s)
  {
    if s != [] {
      var init := s[..|s| - 1];
      SortByDateSortsAndPermutes(init);
      InsertByDateSorted(SortByDate(init), s[|s| - 1]);
      InsertByDateMultiset(SortByDate(init), s[|s| - 1]);
      SplitLast(s);
    }
  }

  /** The sort is stable: the events of any one day keep their relative order. */
  lemma {:induction false} SortByDateStable(s: seq<CalendarEvent>, d: Day)
    ensures Filter(OnDay(d), SortByDate(s)) == Filter(OnDay(d), s)
  {
    if s != [] {
      var init, last := s[..|s| - 1], s[|s| - 1];
      SortByDateStable(init, d);
      SortByDateSortsAndPermutes(init);
      InsertByDateStable(SortByDate(init), last, d);
      FilterAppend(OnDay(d), init, [last]);
      SplitLast(s);
    }
  }

  /** A list already in date order comes out of the sort unchanged. */
  lemma {:induction false} SortByDateOfSorted(s: seq<CalendarEvent>)
    requires SortedByDate(s)
    ensures SortByDate(s) == s
  {
    if s != [] {
      var init, last := s[..|s| - 1], s[|s| - 1];
      SortByDateOfSorted(init);
      InsertByDateAtEnd(init, last);
      SplitLast(s);
    }
  }

  /** `events.map(e => e.id === id ? { ...e, isCompleted: !e.isCompleted } : e)`. */
  function ToggleComplete(events: seq<CalendarEvent>, id: string): (r: seq<CalendarEvent>)
    ensures |r| == |events|
    ensures forall i :: 0 <= i < |events| ==>
      r[i] == if events[i].id == id then events[i].(isCompleted := !events[i].isCompleted) else events[i]
  {
    if events == [] then []
    else [if events[0].id == id then events[0].(isCompleted := !events[0].isCompleted) else events[0]]
         + ToggleComplete(events[1..], id)
  }

  /** Ticking the same event twice restores the list. */
  lemma ToggleCompleteTwice(events: seq<CalendarEvent>, id: string)
    ensures ToggleComplete(ToggleComplete(events, id), id) == events
  {
    var once := ToggleComplete(events, id);
    var twice := ToggleComplete(once, id);
    forall i | 0 <= i < |events|
      ensures twice[i] == events[i]
    {
    }
  }

  /** Ticking changes no date, so the date order survives it. */
  lemma ToggleCompleteKeepsOrder(events: seq<CalendarEvent>, id: string)
    requires SortedByDate(events)
    ensures SortedByDate(ToggleComplete(events, id))
  {
  }

  predicate IsPending(e: CalendarEvent)
  {
    !e.isCompleted
  }

  predicate IsDone(e: CalendarEvent)
  {
    e.isCompleted
  }

  /** `upcomingEvents`. */
  function PendingEvents(events: seq<CalendarEvent>): (r: seq<CalendarEvent>)
    ensures |r| <= |events|
    ensures forall i :: 0 <= i < |r| ==> !r[i].isCompleted
  {
    Filter(IsPending, events)
  }

  /** `completedEvents`. */
  function CompletedEvents(events: seq<CalendarEvent>): (r: seq<CalendarEvent>)
    ensures |r| <= |events|
    ensures forall i :: 0 <= i < |r| ==> r[i].isCompleted
  {
    Filter(IsDone, events)
  }

  /** The two lists on screen split the events between them, each in list order. */
  lemma PendingCompletedPartition(events: seq<CalendarEvent>)
    ensures |PendingEvents(events)| + |CompletedEvents(events)| == |events|
    ensures multiset(PendingEvents(events)) + multiset(CompletedEvents(events)) == multiset(events)
    ensures IsSubsequence(PendingEvents(events), events)
    ensures IsSubsequence(CompletedEvents(events), events)
  {
    FilterSplit(IsPending, IsDone, events);
    FilterIsSubsequence(IsPending, events);
    FilterIsSubsequence(IsDone, events);
  }

  /** The health screen: the event list and the stock gauge, loaded from the store on mount. */
  class HealthManager {
    const store: Store
    var events: seq<CalendarEvent>
    var stockStatus: FeedStockStatus

    ghost predicate Synced()
      reads this, store
    {
      store.Valid() && events == store.GetEvents() && stockStatus == store.GetStock()
    }

    constructor (store: Store)
      requires store.Valid()
      ensures this.store == store && Synced()
    {
      this.store := store;
      events := store.GetEvents();
      stockStatus := store.GetStock();
    }

    method StockChange(status: FeedStockStatus)
      requires Synced()
      modifies this, store
      ensures Synced()
      ensures stockStatus == status && store.GetStock() == status
      ensures events == old(events)
      ensures store.GetSheep() == old(store.GetSheep())
      ensures store.GetTransactions() == old(store.GetTransactions())
    {
      stockStatus := status;
      store.SaveStock(status);
    }

    /** The new event starts not done; the list with it appended is sorted and saved whole. */
    method AddEvent(id: string, title: string, date: Day, kind: EventKind)
      requires Synced()
      modifies this, store
      ensures Synced()
      ensures events == SortByDate(old(events) + [CalendarEvent(id, kind, title, date, false, None)])
      ensures SortedByDate(events)
      ensures multiset(events) == multiset(old(events)) + multiset{CalendarEvent(id, kind, title, date, false, None)}
      ensures SortedByDate(old(events)) ==>
        events == InsertByDate(old(events), CalendarEvent(id, kind, title, date, false, None))
      ensures stockStatus == old(stockStatus)
      ensures store.GetSheep() == old(store.GetSheep())
      ensures store.GetTransactions() == old(store.GetTransactions())
    {
      var newEvent := CalendarEvent(id, kind, title, date, false, None);
      var appended := events + [newEvent];
      var updated := SortByDate(appended);
      SortByDateSortsAndPermutes(appended);
      assert appended[..|appended| - 1] == events;
      if SortedByDate(events) {
        SortByDateOfSorted(events);
      }
      events := updated;
      store.SaveEvents(updated);
    }

    method ToggleEvent(id: string)
      requires Synced()
      modifies this, store
      ensures Synced()
      ensures events == ToggleComplete(old(events), id)
      ensures stockStatus == old(stockStatus)
      ensures store.GetSheep() == old(store.GetSheep())
      ensures store.GetTransactions() == old(store.GetTransactions())
    {
      var updated := ToggleComplete(events, id);
      events := updated;
      store.SaveEvents(updated);
    }
  }
}

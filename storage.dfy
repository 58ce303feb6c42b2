// The browser key-value store behind the farm book (services/storageService.ts):
// four keys, each holding one whole collection (or the stock scalar), replaced
// wholesale on every save; a key never written reads as its seed value.
module Storage {
  import opened Types

  const SheepKey := "myfarm_sheep"
  const TransactionsKey := "myfarm_transactions"
  const EventsKey := "myfarm_events"
  const StockKey := "myfarm_stock_status"

  /** A stored value, already decoded from its JSON text. */
  datatype Stored =
    | SheepData(sheep: seq<Sheep>)
    | TransactionData(transactions: seq<Transaction>)
    | EventData(events: seq<CalendarEvent>)
    | StockData(stock: FeedStockStatus)

  function InitialSheep(): seq<Sheep>
  {
    [ Sheep("1", "101", 12, Healthy, Female, None),
      Sheep("2", "102", 24, Sick, Female, Some("سعال خفيف")),
      Sheep("3", "103", 6, Healthy, Male, None),
      Sheep("4", "104", 36, Treatment, Female, Some("تحت المضاد الحيوي")) ]
  }

  /** The seed events are dated from the moment the module is loaded:
      that day and two days later. */
  function InitialEvents(loadDay: Day): seq<CalendarEvent>
  {
    [ CalendarEvent("1", Vaccine, "تطعيم جدري", loadDay, false, Some("القطيع بالكامل")),
      CalendarEvent("2", Feed, "شراء شعير", loadDay + 2, false, None) ]
  }

  function InitialTransactions(): seq<Transaction>
  {
    [ Transaction("1", Expense, 500, "2023-10-01", Some("شراء أعلاف")),
      Transaction("2", Sale, 1200, "2023-10-15", Some("بيع خروف")) ]
  }

  const DefaultStock: FeedStockStatus := Good

  /** The seed herd shows every health status, and exactly one sheep is sick. */
  lemma SeedHerdCoversStatuses()
    ensures exists i :: 0 <= i < |InitialSheep()| && InitialSheep()[i].status == Healthy
    ensures exists i :: 0 <= i < |InitialSheep()| && InitialSheep()[i].status == Sick
    ensures exists i :: 0 <= i < |InitialSheep()| && InitialSheep()[i].status == Treatment
    ensures forall i :: 0 <= i < |InitialSheep()| && InitialSheep()[i].status == Sick ==> i == 1
  {
    assert InitialSheep()[0].status == Healthy;
    assert InitialSheep()[1].status == Sick;
    assert InitialSheep()[3].status == Treatment;
  }

  /** The four keys are pairwise different, so each save touches one collection only. */
  lemma KeysDistinct()
    ensures |{SheepKey, TransactionsKey, EventsKey, StockKey}| == 4
  {
  }

  class Store {
    /** The day the storage module was loaded; the seed events are dated from it. */
    const loadDay: Day
    var items: map<string, Stored>

    /** Each key holds only what its own save function writes there. */
    ghost predicate Valid()
      reads this
    {
      && (SheepKey in items ==> items[SheepKey].SheepData?)
      && (TransactionsKey in items ==> items[TransactionsKey].TransactionData?)
      && (EventsKey in items ==> items[EventsKey].EventData?)
      && (StockKey in items ==> items[StockKey].StockData?)
    }

    /** An empty browser store. */
    constructor (loadDay: Day)
      ensures Valid()
      ensures this.loadDay == loadDay && items == map[]
    {
      this.loadDay := loadDay;
      items := map[];
    }

    function GetSheep(): seq<Sheep>
      requires Valid()
      reads this
    {
      if SheepKey in items then items[SheepKey].sheep else InitialSheep()
    }

    function GetTransactions(): seq<Transaction>
      requires Valid()
      reads this
    {
      if TransactionsKey in items then items[TransactionsKey].transactions else InitialTransactions()
    }

    function GetEvents(): seq<CalendarEvent>
      requires Valid()
      reads this
    {
      if EventsKey in items then items[EventsKey].events else InitialEvents(loadDay)
    }

    function GetStock(): FeedStockStatus
      requires Valid()
      reads this
    {
      if StockKey in items then items[StockKey].stock else DefaultStock
    }

    method SaveSheep(sheep: seq<Sheep>)
      requires Valid()
      modifies this
      ensures Valid()
      ensures items == old(items)[SheepKey := SheepData(sheep)]
      ensures GetSheep() == sheep
      ensures GetTransactions() == old(GetTransactions())
      ensures GetEvents() == old(GetEvents())
      ensures GetStock() == old(GetStock())
    {
      items := items[SheepKey := SheepData(sheep)];
    }

    method SaveTransactions(transactions: seq<Transaction>)
      requires Valid()
      modifies this
      ensures Valid()
      ensures items == old(items)[TransactionsKey := TransactionData(transactions)]
      ensures GetTransactions() == transactions
      ensures GetSheep() == old(GetSheep())
      ensures GetEvents() == old(GetEvents())
      ensures GetStock() == old(GetStock())
    {
      items := items[TransactionsKey := TransactionData(transactions)];
    }

    method SaveEvents(events: seq<CalendarEvent>)
      requires Valid()
      modifies this
      ensures Valid()
      ensures items == old(items)[EventsKey := EventData(events)]
      ensures GetEvents() == events
      ensures GetSheep() == old(GetSheep())
      ensures GetTransactions() == old(GetTransactions())
      ensures GetStock() == old(GetStock())
    {
      items := items[EventsKey := EventData(events)];
    }

    method SaveStock(stock: FeedStockStatus)
      requires Valid()
      modifies this
      ensures Valid()
      ensures items == old(items)[StockKey := StockData(stock)]
      ensures GetStock() == stock
      ensures GetSheep() == old(GetSheep())
      ensures GetTransactions() == old(GetTransactions())
      ensures GetEvents() == old(GetEvents())
    {
      items := items[StockKey := StockData(stock)];
    }
  }

  /** A store nobody has written to reads as the seed data. */
  lemma UnwrittenKeysReadSeeds(s: Store)
    requires s.Valid() && s.items == map[]
    ensures s.GetSheep() == InitialSheep()
    ensures s.GetTransactions() == InitialTransactions()
    ensures s.GetEvents() == InitialEvents(s.loadDay)
    ensures s.GetStock() == Good
  {
  }

  /** Two saves to one key: the later value is what reads back. */
  method SaveSheepTwice(s: Store, first: seq<Sheep>, second: seq<Sheep>)
    requires s.Valid()
    modifies s
    ensures s.Valid() && s.GetSheep() == second
    ensures s.items == old(s.items)[SheepKey := SheepData(second)]
  {
    s.SaveSheep(first);
    s.SaveSheep(second);
  }
}

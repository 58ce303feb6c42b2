// The app shell (App.tsx): the alert list behind the notification bell,
// built from the stored sheep, events and feed stock, and the screen chosen
// for the current view.
module App {
  import opened Types
  import opened Seqs
  import opened Strings
  import opened Storage
  import Health

  datatype Severity = Danger | Warning | Info

  /** What an alert says; MessageText gives the words shown. */
  datatype Message =
    | CriticalStock
    | LowStock
    | Reminder(title: string, date: Day)
    | Missed(title: string, date: Day)
    | SickCases(count: nat)

  datatype Alert = Alert(severity: Severity, message: Message)

  /** Every alert shows some words. */
  function MessageText(m: Message): (r: string)
    ensures r != ""
  {
    match m
    case CriticalStock => "تنبيه: مخزون العلف حرج جداً!"
    case LowStock => "مخزون العلف منخفض، يرجى الشراء قريباً."
    case Reminder(title, date) => "تذكير: " + title + " يوم " + IsoDate(date)
    case Missed(title, date) => "فائت: " + title + " (" + IsoDate(date) + ")"
    case SickCases(count) => "يوجد " + NatText(count) + " حالات مريضة تحتاج عناية."
  }

  predicate IsStockMessage(m: Message)
  {
    m.CriticalStock? || m.LowStock?
  }

  // ---------------------------------------------------------------------------
  // The alert list, as a function of the snapshot

  function StockAlerts(stock: FeedStockStatus): seq<Alert>
  {
    match stock
    case Critical => [Alert(Danger, CriticalStock)]
    case Low => [Alert(Warning, LowStock)]
    case Good => []
  }

  /** The two independent tests the app makes of an event that is not done:
      due within the next three days (today included), or already past. */
  function AlertsForEvent(e: CalendarEvent, today: Day): seq<Alert>
  {
    if e.isCompleted then []
    else
      (if today <= e.date && e.date <= today + 3 then [Alert(Info, Reminder(e.title, e.date))] else [])
      + (if e.date < today then [Alert(Warning, Missed(e.title, e.date))] else [])
  }

  function EventAlerts(events: seq<CalendarEvent>, today: Day): seq<Alert>
  {
    if events == [] then [] else AlertsForEvent(events[0], today) + EventAlerts(events[1..], today)
  }

  predicate IsSick(s: Sheep)
  {
    s.status == Sick
  }

  /** The sheep counted by the health alert: those marked sick, not those under treatment. */
  function SickCount(sheep: seq<Sheep>): nat
  {
    |Filter(IsSick, sheep)|
  }

  function SickAlerts(sheep: seq<Sheep>): seq<Alert>
  {
    if SickCount(sheep) > 0 then [Alert(Danger, SickCases(SickCount(sheep)))] else []
  }

  /** Stock alert first, then the event alerts in list order, then the health alert. */
  function Alerts(sheep: seq<Sheep>, events: seq<CalendarEvent>, stock: FeedStockStatus, today: Day): seq<Alert>
  {
    StockAlerts(stock) + EventAlerts(events, today) + SickAlerts(sheep)
  }

  // ---------------------------------------------------------------------------
  // checkAlerts, as the app runs it

  /** The `forEach` callback: the two independent tests on one event not done. */
  method PushEventAlerts(alerts: seq<Alert>, e: CalendarEvent, today: Day) returns (pushed: seq<Alert>)
    ensures pushed == alerts + AlertsForEvent(e, today)
  {
    pushed := alerts;
    if !e.isCompleted {
      if today <= e.date && e.date <= today + 3 {
        pushed := pushed + [Alert(Info, Reminder(e.title, e.date))];
      }
      if e.date < today {
        pushed := pushed + [Alert(Warning, Missed(e.title, e.date))];
      }
    }
  }

  /** `events.forEach(...)`: the callback's pushes for every event, in list order. */
  method PushAllEventAlerts(alerts: seq<Alert>, events: seq<CalendarEvent>, today: Day) returns (pushed: seq<Alert>)
    ensures pushed == alerts + EventAlerts(events, today)
  {
    pushed := alerts;
    var i := 0;
    while i < |events|
      invariant 0 <= i <= |events|
      invariant pushed == alerts + EventAlerts(events[..i], today)
    {
      EventAlertsStep(events, i, today);
      pushed := PushEventAlerts(pushed, events[i], today);
      i := i + 1;
    }
    assert events[..i] == events;
  }

  /** The alert pass: pushes onto a list, stock first, then one test per event, then the herd. */
  method DeriveAlerts(sheep: seq<Sheep>, events: seq<CalendarEvent>, stock: FeedStockStatus, today: Day)
    returns (alerts: seq<Alert>)
    ensures alerts == Alerts(sheep, events, stock, today)
  {
    alerts := [];
    if stock == Critical {
      alerts := alerts + [Alert(Danger, CriticalStock)];
    } else if stock == Low {
      alerts := alerts + [Alert(Warning, LowStock)];
    }
    assert alerts == StockAlerts(stock);
    alerts := PushAllEventAlerts(alerts, events, today);
    var sickCount := SickCount(sheep);
    if sickCount > 0 {
      alerts := alerts + [Alert(Danger, SickCases(sickCount))];
    }
  }

  /** The alert pass over what the store holds now. */
  method CheckAlerts(store: Store, today: Day) returns (alerts: seq<Alert>)
    requires store.Valid()
    ensures alerts == Alerts(store.GetSheep(), store.GetEvents(), store.GetStock(), today)
  {
    var sheep := store.GetSheep();
    var events := store.GetEvents();
    var stock := store.GetStock();
    alerts := DeriveAlerts(sheep, events, stock, today);
  }

  // ---------------------------------------------------------------------------
  // What the alert list says

  /** An event that is not done and is due no later than three days from today. */
  function Due(today: Day): CalendarEvent -> bool
  {
    (e: CalendarEvent) => !e.isCompleted && e.date <= today + 3
  }

  /** The one alert a due event gets: missed when past, a reminder otherwise. */
  function AlertFor(e: CalendarEvent, today: Day): Alert
  {
    if e.date < today then Alert(Warning, Missed(e.title, e.date)) else Alert(Info, Reminder(e.title, e.date))
  }

  /** Each event gets at most one alert: the two tests never both pass. */
  lemma AlertsForEventAtMostOne(e: CalendarEvent, today: Day)
    ensures |AlertsForEvent(e, today)| <= 1
    ensures AlertsForEvent(e, today) == if Due(today)(e) then [AlertFor(e, today)] else []
  {
  }

  lemma {:induction false} EventAlertsAppend(a: seq<CalendarEvent>, b: seq<CalendarEvent>, today: Day)
    ensures EventAlerts(a + b, today) == EventAlerts(a, today) + EventAlerts(b, today)
  {
    if a == [] {
      assert a + b == b;
    } else {
      assert (a + b)[1..] == a[1..] + b;
      EventAlertsAppend(a[1..], b, today);
    }
  }

  /** One more event of the list: its alerts follow those of the events before it. */
  lemma EventAlertsStep(events: seq<CalendarEvent>, i: nat, today: Day)
    requires i < |events|
    ensures EventAlerts(events[..i + 1], today) == EventAlerts(events[..i], today) + AlertsForEvent(events[i], today)
  {
    assert events[..i + 1] == events[..i] + [events[i]];
    EventAlertsAppend(events[..i], [events[i]], today);
    assert EventAlerts([events[i]], today) == AlertsForEvent(events[i], today) by {
      assert [events[i]][1..] == [];
    }
  }

  /** The event alerts are one alert per due event, in the events' list order. */
  lemma {:induction false} EventAlertsInOrder(events: seq<CalendarEvent>, today: Day)
    ensures |EventAlerts(events, today)| == |Filter(Due(today), events)|
    ensures forall i :: 0 <= i < |Filter(Due(today), events)| ==>
      EventAlerts(events, today)[i] == AlertFor(Filter(Due(today), events)[i], today)
  {
    if events != [] {
      var e, rest := events[0], events[1..];
      EventAlertsInOrder(rest, today);
      AlertsForEventAtMostOne(e, today);
      var ea, er := EventAlerts(events, today), EventAlerts(rest, today);
      var f, fr := Filter(Due(today), events), Filter(Due(today), rest);
      assert ea == AlertsForEvent(e, today) + er;
      assert f == (if Due(today)(e) then [e] else []) + fr;
      if Due(today)(e) {
        forall i | 0 <= i < |f|
          ensures ea[i] == AlertFor(f[i], today)
        {
          if i > 0 {
            assert ea[i] == er[i - 1] && f[i] == fr[i - 1];
          }
        }
      } else {
        assert ea == er && f == fr;
      }
    }
  }

  /** Done events never raise an alert: dropping them changes nothing. */
  lemma {:induction false} CompletedEventsSilent(events: seq<CalendarEvent>, today: Day)
    ensures EventAlerts(events, today) == EventAlerts(Health.PendingEvents(events), today)
  {
    if events != [] {
      CompletedEventsSilent(events[1..], today);
      EventAlertsAppend(if Health.IsPending(events[0]) then [events[0]] else [],
                        Health.PendingEvents(events[1..]), today);
    }
  }

  /** How many stock alerts there are: one unless the stock is good. */
  function StockAlertCount(stock: FeedStockStatus): nat
  {
    if stock == Good then 0 else 1
  }

  /** From index `k` on, `a` holds the alert of each due event of `due`, in order. */
  predicate DueAlertsFrom(a: seq<Alert>, k: nat, due: seq<CalendarEvent>, today: Day)
  {
    k + |due| <= |a| && forall i :: 0 <= i < |due| ==> a[k + i] == AlertFor(due[i], today)
  }

  /** The whole list: its length, the stock alert at the front, the event alerts
      in list order after it, and the health alert at the end. */
  lemma AlertsLayout(sheep: seq<Sheep>, events: seq<CalendarEvent>, stock: FeedStockStatus, today: Day)
    ensures |Alerts(sheep, events, stock, today)| ==
      StockAlertCount(stock) + |Filter(Due(today), events)| + (if SickCount(sheep) > 0 then 1 else 0)
    ensures stock == Critical ==> Alerts(sheep, events, stock, today)[0] == Alert(Danger, CriticalStock)
    ensures stock == Low ==> Alerts(sheep, events, stock, today)[0] == Alert(Warning, LowStock)
    ensures DueAlertsFrom(Alerts(sheep, events, stock, today), StockAlertCount(stock), Filter(Due(today), events), today)
    ensures SickCount(sheep) > 0 ==>
      Alerts(sheep, events, stock, today)[|Alerts(sheep, events, stock, today)| - 1] ==
      Alert(Danger, SickCases(SickCount(sheep)))
  {
    AlertsLength(sheep, events, stock, today);
    AlertsStockFirst(sheep, events, stock, today);
    AlertsEventsInOrder(sheep, events, stock, today);
    AlertsSickLast(sheep, events, stock, today);
  }

  lemma AlertsLength(sheep: seq<Sheep>, events: seq<CalendarEvent>, stock: FeedStockStatus, today: Day)
    ensures |Alerts(sheep, events, stock, today)| ==
      StockAlertCount(stock) + |Filter(Due(today), events)| + (if SickCount(sheep) > 0 then 1 else 0)
  {
    EventAlertsInOrder(events, today);
  }

  lemma AlertsStockFirst(sheep: seq<Sheep>, events: seq<CalendarEvent>, stock: FeedStockStatus, today: Day)
    ensures stock == Critical ==> Alerts(sheep, events, stock, today)[0] == Alert(Danger, CriticalStock)
    ensures stock == Low ==> Alerts(sheep, events, stock, today)[0] == Alert(Warning, LowStock)
  {
    if stock != Good {
      IndexConcat3(StockAlerts(stock), EventAlerts(events, today), SickAlerts(sheep), 0);
    }
  }

  lemma AlertsEventsInOrder(sheep: seq<Sheep>, events: seq<CalendarEvent>, stock: FeedStockStatus, today: Day)
    ensures DueAlertsFrom(Alerts(sheep, events, stock, today), StockAlertCount(stock), Filter(Due(today), events), today)
  {
    EventAlertsInOrder(events, today);
    DueAlertsInMiddle(StockAlerts(stock), EventAlerts(events, today), SickAlerts(sheep), Filter(Due(today), events), today);
  }

  /** Alerts of due events in the middle part of a list stand right after its first part. */
  lemma DueAlertsInMiddle(sa: seq<Alert>, ea: seq<Alert>, ha: seq<Alert>, due: seq<CalendarEvent>, today: Day)
    requires |ea| == |due|
    requires forall i :: 0 <= i < |due| ==> ea[i] == AlertFor(due[i], today)
    ensures DueAlertsFrom(sa + ea + ha, |sa|, due, today)
  {
    forall i | 0 <= i < |due|
      ensures (sa + ea + ha)[|sa| + i] == AlertFor(due[i], today)
    {
      IndexMiddle(sa, ea, ha, i);
    }
  }

  lemma AlertsSickLast(sheep: seq<Sheep>, events: seq<CalendarEvent>, stock: FeedStockStatus, today: Day)
    ensures SickCount(sheep) > 0 ==>
      Alerts(sheep, events, stock, today)[|Alerts(sheep, events, stock, today)| - 1] ==
      Alert(Danger, SickCases(SickCount(sheep)))
  {
    var sa, ea, ha := StockAlerts(stock), EventAlerts(events, today), SickAlerts(sheep);
    if SickCount(sheep) > 0 {
      IndexConcat3(sa, ea, ha, |sa + ea + ha| - 1);
    }
  }

  /** A stock alert stands only at the front and only when stock is not good; a
      health alert stands only at the end and only when some sheep is sick. */
  lemma AlertsPlacement(sheep: seq<Sheep>, events: seq<CalendarEvent>, stock: FeedStockStatus, today: Day, i: nat)
    requires i < |Alerts(sheep, events, stock, today)|
    ensures IsStockMessage(Alerts(sheep, events, stock, today)[i].message) <==> (i == 0 && stock != Good)
    ensures Alerts(sheep, events, stock, today)[i].message.SickCases? <==>
      (i == |Alerts(sheep, events, stock, today)| - 1 && SickCount(sheep) > 0)
  {
    var a := Alerts(sheep, events, stock, today);
    var sa, ea, ha := StockAlerts(stock), EventAlerts(events, today), SickAlerts(sheep);
    assert a == sa + ea + ha;
    assert |sa| == if stock == Good then 0 else 1;
    assert |ha| == if SickCount(sheep) > 0 then 1 else 0;
    IndexConcat3(sa, ea, ha, i);
    if |sa| <= i < |sa| + |ea| {
      EventAlertsInOrder(events, today);
      assert ea[i - |sa|] == AlertFor(Filter(Due(today), events)[i - |sa|], today);
    }
  }

  /** The health alert is there exactly when some sheep is marked sick. */
  lemma SickAlertIff(sheep: seq<Sheep>, events: seq<CalendarEvent>, stock: FeedStockStatus, today: Day)
    ensures (exists i :: 0 <= i < |Alerts(sheep, events, stock, today)| &&
                         Alerts(sheep, events, stock, today)[i].message.SickCases?)
            <==> (exists s :: s in sheep && s.status == Sick)
  {
    var a := Alerts(sheep, events, stock, today);
    FilterMembers(IsSick, sheep);
    if SickCount(sheep) > 0 {
      AlertsPlacement(sheep, events, stock, today, |a| - 1);
      var f := Filter(IsSick, sheep);
      assert f[0] in sheep && IsSick(f[0]);
    } else {
      forall i | 0 <= i < |a|
        ensures !a[i].message.SickCases?
      {
        AlertsPlacement(sheep, events, stock, today, i);
      }
      forall s | s in sheep
        ensures s.status != Sick
      {
        var j :| 0 <= j < |sheep| && sheep[j] == s;
        assert !IsSick(sheep[j]);
      }
    }
  }

  /** The bell shows its dot exactly when the list is not empty. */
  predicate BadgeShown(alerts: seq<Alert>)
  {
    |alerts| > 0
  }

  /** The dot shows exactly when stock is low or critical, some event not done is
      due within three days (or already past), or some sheep is sick. */
  lemma BadgeShownIff(sheep: seq<Sheep>, events: seq<CalendarEvent>, stock: FeedStockStatus, today: Day)
    ensures BadgeShown(Alerts(sheep, events, stock, today)) <==>
      (|| stock != Good
       || (exists e :: e in events && !e.isCompleted && e.date <= today + 3)
       || (exists s :: s in sheep && s.status == Sick))
  {
    AlertsLayout(sheep, events, stock, today);
    SickAlertIff(sheep, events, stock, today);
    FilterMembers(Due(today), events);
    FilterMembers(IsSick, sheep);
    var f := Filter(Due(today), events);
    if |f| > 0 {
      assert f[0] in events && Due(today)(f[0]);
    }
    if exists e :: e in events && !e.isCompleted && e.date <= today + 3 {
      var e :| e in events && !e.isCompleted && e.date <= today + 3;
      var j :| 0 <= j < |events| && events[j] == e;
      assert Due(today)(events[j]);
    }
    if SickCount(sheep) > 0 {
      var g := Filter(IsSick, sheep);
      assert g[0] in sheep && IsSick(g[0]);
    }
    if exists s :: s in sheep && s.status == Sick {
      var s :| s in sheep && s.status == Sick;
      var j :| 0 <= j < |sheep| && sheep[j] == s;
      assert IsSick(sheep[j]);
    }
  }

  /** Sheep under treatment do not count: healthy, sick, treatment, sick gives one alert for 2. */
  lemma SickAlertCountsOnlySick(a: Sheep, b: Sheep, c: Sheep, d: Sheep)
    requires a.status == Healthy && b.status == Sick && c.status == Treatment && d.status == Sick
    ensures SickAlerts([a, b, c, d]) == [Alert(Danger, SickCases(2))]
  {
    assert Filter(IsSick, [d]) == [d] by {
      assert [d][1..] == [];
    }
    assert Filter(IsSick, [c, d]) == [d] by {
      assert [c, d][1..] == [d];
    }
    assert Filter(IsSick, [b, c, d]) == [b, d] by {
      assert [b, c, d][1..] == [c, d];
    }
    assert Filter(IsSick, [a, b, c, d]) == [b, d] by {
      assert [a, b, c, d][1..] == [b, c, d];
    }
  }

  /** On a fresh store, read on the day it was loaded: two reminders for the seed
      events, then one health alert for the single sick seed sheep. */
  lemma SeedAlerts(loadDay: Day)
    ensures Alerts(InitialSheep(), InitialEvents(loadDay), Good, loadDay) ==
      [ Alert(Info, Reminder("تطعيم جدري", loadDay)),
        Alert(Info, Reminder("شراء شعير", loadDay + 2)),
        Alert(Danger, SickCases(1)) ]
  {
    var sheep := InitialSheep();
    assert Filter(IsSick, sheep[3..]) == [] by {
      assert sheep[3..][1..] == [];
    }
    assert Filter(IsSick, sheep[2..]) == [] by {
      assert sheep[2..][1..] == sheep[3..];
    }
    assert Filter(IsSick, sheep[1..]) == [sheep[1]] by {
      assert sheep[1..][1..] == sheep[2..];
    }
    assert Filter(IsSick, sheep) == [sheep[1]] by {
      assert sheep[1..] == sheep[1..];
    }
    var events := InitialEvents(loadDay);
    assert EventAlerts(events[1..], loadDay) == [Alert(Info, Reminder("شراء شعير", loadDay + 2))] by {
      assert events[1..][1..] == [];
    }
  }

  /** Seed events come in date order. */
  lemma SeedEventsSorted(loadDay: Day)
    ensures Health.SortedByDate(InitialEvents(loadDay))
  {
  }

  // ---------------------------------------------------------------------------
  // Screens

  datatype Screen = HerdScreen | HealthScreen | FinanceScreen | AdvisorScreen

  /** The views the bottom navigation can select. */
  const NavTargets: seq<ViewState> := [SheepView, HealthView, FinanceView, AdvisorView]

  /** `renderView`: a switch on the view that falls back to the herd screen. */
  function RenderView(view: ViewState): Screen
  {
    match view
    case SheepView => HerdScreen
    case HealthView => HealthScreen
    case FinanceView => FinanceScreen
    case AdvisorView => AdvisorScreen
    case _ => HerdScreen
  }

  /** The navigation button that leads to a screen. */
  function ButtonFor(s: Screen): ViewState
  {
    match s
    case HerdScreen => SheepView
    case HealthScreen => HealthView
    case FinanceScreen => FinanceView
    case AdvisorScreen => AdvisorView
  }

  /** Every screen has its own navigation button, and the button shows that screen;
      Dashboard, which no button selects, shows the herd screen. */
  lemma RenderViewCoversScreens(s: Screen)
    ensures ButtonFor(s) in NavTargets && RenderView(ButtonFor(s)) == s
    ensures Dashboard !in NavTargets && RenderView(Dashboard) == HerdScreen
  {
  }
}

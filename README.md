# Sheep farm record keeper — a Dafny model

The farm book is a small client-side app. It keeps four things in the browser's key-value store: a herd of sheep with health statuses, a list of money transactions, a calendar of vaccine and feed events, and one feed-stock gauge. Four screens work on this data:

- the herd screen adds sheep, changes a sheep's health status, and filters and searches the herd;
- the health screen sets the feed gauge, adds events in date order, ticks events done or undone, and splits them into pending and completed;
- the finance screen derives income, expense and balance, and adds transactions;
- the advisor screen sums the farm up into a prompt for a text-generation service and shows its reply.

Above the screens, a notification bell shows an ordered list of alerts:

- a stock alert;
- one alert per event that is not done and is either due within three days or already missed;
- a sick-herd alert.

This project models that data logic and proves what it promises.

Modules follow the source files:

| module | file | models |
|---|---|---|
| `Types` | `types.dfy` | the closed record types of `types.ts` |
| `Storage` | `storage.dfy` | `services/storageService.ts`: class `Store` over a map from key to decoded value; every read falls back to its seed |
| `Finance` | `finance.dfy` | `components/FinanceManager.tsx`: pure totals, and class `FinanceManager` |
| `Herd` | `herd.dfy` | `components/SheepManager.tsx`: pure status update and filter, and class `SheepManager` |
| `Health` | `health.dfy` | `components/HealthManager.tsx`: stable date sort, completion toggle, pending/completed split, and class `HealthManager` |
| `App` | `app.dfy` | `App.tsx`: the alert pass as a loop method proved equal to a specification function; `renderView` |
| `Advisor` | `advisor.dfy` | `services/geminiService.ts`: the prompt figures, the prompt text, and how the reply is chosen |
| `Seqs` | `seqs.dfy` | shared helpers: `filter` and order-preserving subsequences |
| `Strings` | `strings.dfy` | shared helpers: decimal text, ISO dates, `includes`, `join` |

Conventions:

- A calendar date is a day number (days since 1970-01-01). "Today" is a parameter.
- The seed events are dated from `Store.loadDay`, the day the storage module was loaded.
- Transaction dates are only displayed, so they stay text.
- Amounts are integers.
- New ids (`Date.now()`), form values and the text-generation service are parameters.
- Components are classes. Each holds its on-screen list and a `const store: Store`. Its handlers replace that list and save it to the store. `Synced()` states that the two agree.

## Model

| member | source | states |
|---|---|---|
| `Types.NotSaleIsPurchaseOrExpense` | types.ts:16 | The transaction kind is closed: "not a sale" is exactly "purchase or expense". |
| `Storage.KeysDistinct` | services/storageService.ts:3-6 | The four storage keys are pairwise different. |
| `Storage.SeedHerdCoversStatuses` | services/storageService.ts:9-14 | The seed herd holds a healthy, a sick and a treated sheep, and only the second sheep is sick. |
| `Storage.UnwrittenKeysReadSeeds` | services/storageService.ts:26-55 | An empty store reads as the seed sheep, transactions and events, and as stock `good`. |
| `Storage.Store.GetSheep` | services/storageService.ts:26-29 | Reads the sheep list saved under its key, or the seed herd when nothing was saved there. No contract of its own: `Storage.Store.SaveSheep` states the read-back, `Storage.UnwrittenKeysReadSeeds` the fallback. |
| `Storage.Store.GetTransactions` | services/storageService.ts:35-38 | Reads the saved transactions, or the seed book when nothing was saved there. No contract of its own: `Storage.Store.SaveTransactions` states the read-back, `Storage.UnwrittenKeysReadSeeds` the fallback. |
| `Storage.Store.GetEvents` | services/storageService.ts:44-47 | Reads the saved events, or the seed events dated from the load day when nothing was saved there. No contract of its own: `Storage.Store.SaveEvents` states the read-back, `Storage.UnwrittenKeysReadSeeds` the fallback. |
| `Storage.Store.GetStock` | services/storageService.ts:53-55 | Reads the saved stock status, or `good` when nothing was saved there. No contract of its own: `Storage.Store.SaveStock` states the read-back, `Storage.UnwrittenKeysReadSeeds` the fallback. |
| `Storage.Store.SaveSheep` | services/storageService.ts:31-33 | After saving, the sheep key holds the new list and reads it back; the other three reads are unchanged. |
| `Storage.Store.SaveTransactions` | services/storageService.ts:40-42 | After saving, the transactions read back; sheep, events and stock are unchanged. |
| `Storage.Store.SaveEvents` | services/storageService.ts:49-51 | After saving, the events read back; sheep, transactions and stock are unchanged. |
| `Storage.Store.SaveStock` | services/storageService.ts:57-59 | After saving, the stock status reads back; the three collections are unchanged. |
| `Storage.SaveSheepTwice` | services/storageService.ts:31-33 | A save replaces the whole value: after two saves, the second list is what reads back. |
| `Finance.Income` | components/FinanceManager.tsx:37 | The sum of the amounts of the sales. No contract of its own: `Finance.IncomePlusExpenseIsTotal`, `Finance.TotalsPermutationInvariant` and `Finance.AddTransactionMovesOneTotal` state its properties. |
| `Finance.Expense` | components/FinanceManager.tsx:38 | The sum of the amounts of every transaction that is not a sale. No contract of its own: the same three lemmas state its properties. |
| `Finance.Balance` | components/FinanceManager.tsx:39 | Income minus expense. No contract of its own: `Finance.BalanceIsSignedTotal` equates it with the signed sum of all amounts. |
| `Finance.IncomePlusExpenseIsTotal` | components/FinanceManager.tsx:37-38 | Income (sales) plus expense (everything else) is the sum of all amounts. |
| `Finance.BalanceIsSignedTotal` | components/FinanceManager.tsx:37-39 | The balance equals a signed sum: sales count up, every other kind counts down. |
| `Finance.FilteredTotalIsSharesTotal` | components/FinanceManager.tsx:37-38 | Summing the filtered list equals adding up each transaction's share: its amount if selected, 0 otherwise. |
| `Finance.SharesTotalPermutation` | components/FinanceManager.tsx:37-38 | The sum of the shares is equal for any two lists with the same multiset of transactions. |
| `Finance.FilteredTotalPermutation` | components/FinanceManager.tsx:37-38 | A sum over the transactions a predicate selects does not depend on their order. |
| `Finance.TotalsPermutationInvariant` | components/FinanceManager.tsx:37-39 | Income, expense and balance are equal for any two lists with the same multiset of transactions. |
| `Finance.AddTransactionMovesOneTotal` | components/FinanceManager.tsx:29-39 | A transaction put in front adds its amount to income if it is a sale and to expense otherwise. The balance moves by that amount, up or down accordingly. |
| `Finance.SeedTotals` | services/storageService.ts:21-24 | The seed book gives income 1200, expense 500 and balance 700. |
| `Finance.FinanceManager.AddTransaction` | components/FinanceManager.tsx:20-31 | The new transaction (with its notes) goes in front of the old list, unchanged and in order. The store holds the new list; the other keys are untouched. |
| `Herd.WithStatus` | components/SheepManager.tsx:45 | Length and order are kept. Each sheep with the id gets the new status; every other sheep is unchanged. |
| `Herd.WithStatusTargets` | components/SheepManager.tsx:45 | Updating one sheep's status leaves its id, tag, age, gender and notes as they were. |
| `Herd.WithStatusIdempotent` | components/SheepManager.tsx:45 | Setting the same status twice is setting it once. |
| `Herd.WithStatusUnknownId` | components/SheepManager.tsx:45 | An id that no sheep has leaves the list unchanged. |
| `Strings.IncludesAt` | components/SheepManager.tsx:53 | `includes` holds exactly when the search term occurs at some position of the tag. |
| `Herd.FilteredSheep` | components/SheepManager.tsx:51-55 | The displayed sheep are no more than the herd, and each passes the status filter and contains the search term in its tag. |
| `Herd.FilteredSheepSelects` | components/SheepManager.tsx:51-55 | The displayed sheep are an order-preserving subsequence of the herd. A sheep is displayed exactly when it is in the herd, passes the status filter, and its tag contains the search term. The displayed and the hidden sheep together are the herd as a multiset, and no hidden sheep matches, so every matching sheep is displayed as often as it occurs. |
| `Herd.UnfilteredShowsHerd` | components/SheepManager.tsx:51-55 | With the filter on all and an empty search, the whole herd is displayed. |
| `Herd.SheepManager.AddSheep` | components/SheepManager.tsx:26-37 | The new sheep (no notes) goes in front of the old list. The store holds the new list; the other keys are untouched. |
| `Herd.SheepManager.UpdateStatus` | components/SheepManager.tsx:44-47 | The list becomes its status update by id, and the store holds it; the other keys are untouched. |
| `Health.SortByDate` | components/HealthManager.tsx:40 | The date sort, as insertion of each event after those dated no later. No contract of its own: the next three lemmas state that it sorts, permutes, is stable, and leaves a sorted list alone. |
| `Health.SortByDateSortsAndPermutes` | components/HealthManager.tsx:40 | The sort's result is in ascending date order and holds exactly the events it was given. |
| `Health.SortByDateStable` | components/HealthManager.tsx:40 | The sort is stable: the events of any one day keep their relative order. |
| `Health.SortByDateOfSorted` | components/HealthManager.tsx:40 | A list already in date order is returned unchanged. |
| `Health.HealthManager.AddEvent` | components/HealthManager.tsx:31-42 | The new event starts not done. The events become the sorted list of old events plus the new one: date-ordered and a permutation. On a list already sorted, this is an insertion after every event dated no later. The store holds the result. |
| `Health.ToggleComplete` | components/HealthManager.tsx:50 | Length and order are kept. `isCompleted` flips on the events with the id; every other event is unchanged. |
| `Health.ToggleCompleteTwice` | components/HealthManager.tsx:50 | Ticking the same id twice restores the list. |
| `Health.ToggleCompleteKeepsOrder` | components/HealthManager.tsx:50 | Ticking keeps a date-ordered list date-ordered. |
| `Health.HealthManager.ToggleEvent` | components/HealthManager.tsx:49-52 | The events become their completion toggle by id, and the store holds them; stock and the other keys are untouched. |
| `Health.PendingEvents` | components/HealthManager.tsx:56 | The upcoming list holds only events not done, and no more events than the whole list. |
| `Health.CompletedEvents` | components/HealthManager.tsx:57 | The completed list holds only done events, and no more events than the whole list. |
| `Health.PendingCompletedPartition` | components/HealthManager.tsx:56-57 | The pending and completed lists split the events: lengths sum to the whole, multisets add up to it, and each is an order-preserving subsequence. |
| `Health.HealthManager.StockChange` | components/HealthManager.tsx:25-27 | The gauge and the stored stock status both become the chosen status; events and the other keys are untouched. |
| `App.MessageText` | App.tsx:28-75 | Every alert shows a non-empty message: the fixed stock texts, the event's title and `YYYY-MM-DD` date, or the sick count in decimal. |
| `App.Alerts` | App.tsx:25-78 | The specified alert list: stock alert, then each event's alerts in list order, then the health alert. No contract of its own: `App.DeriveAlerts` is proved equal to it, and the layout lemmas below state its properties. |
| `App.PushEventAlerts` | App.tsx:49-65 | The `forEach` callback appends exactly one event's alerts to the list. |
| `App.PushAllEventAlerts` | App.tsx:48-66 | The `forEach` loop appends the alerts of every event, in list order. |
| `App.DeriveAlerts` | App.tsx:21-79 | The push-based alert pass returns exactly the specified alert list: stock, then events, then herd. |
| `App.CheckAlerts` | App.tsx:21-24 | The alert pass run on what the store holds now. |
| `App.AlertsForEventAtMostOne` | App.tsx:48-66 | The two event tests never both pass. An event gets one alert exactly when it is not done and dated no later than today+3: missed if before today, a reminder otherwise. Done events and later events get none. |
| `App.EventAlertsInOrder` | App.tsx:48-66 | There is one event alert per due event, in the events' list order. |
| `App.CompletedEventsSilent` | App.tsx:49 | Dropping the done events does not change the event alerts. |
| `App.AlertsLength` | App.tsx:25-78 | The list length is: 1 if stock is low or critical, plus the number of due events, plus 1 if some sheep is sick. There is no deduplication or cap. |
| `App.AlertsStockFirst` | App.tsx:28-40 | Critical stock puts the danger alert first; low stock puts the warning alert first. |
| `App.AlertsEventsInOrder` | App.tsx:48-66 | After the stock alert, the list holds the alert of each due event, in the events' list order. |
| `App.AlertsSickLast` | App.tsx:69-76 | When some sheep is sick, the last alert is the danger alert stating the count of sick sheep. |
| `App.AlertsLayout` | App.tsx:25-78 | All four facts together: length, stock alert first, event alerts in order, health alert last. |
| `App.AlertsPlacement` | App.tsx:27-76 | A stock alert appears only at index 0 and only when stock is not good. The health alert appears only at the last index and only when some sheep is sick. |
| `App.SickAlertIff` | App.tsx:69-76 | The health alert is present exactly when some sheep is marked sick. |
| `App.SickAlertCountsOnlySick` | App.tsx:69 | Sheep under treatment are not counted. Healthy, sick, treatment, sick gives one alert stating 2. |
| `App.BadgeShownIff` | App.tsx:104 | The bell's dot shows exactly when one of these holds: stock is not good, some event not done is dated no later than today+3, or some sheep is sick. |
| `App.SeedAlerts` | services/storageService.ts:9-19 | A fresh store read on its load day gives exactly two info reminders (today, today+2), then a health alert for one sick sheep. |
| `App.SeedEventsSorted` | services/storageService.ts:16-19 | The seed events are in ascending date order. |
| `App.RenderView` | App.tsx:84-92 | The screen for each view, with the herd screen as the fallback. No contract of its own: `App.RenderViewCoversScreens` states what it shows. |
| `App.RenderViewCoversScreens` | App.tsx:153-183 | Every screen has one of the four navigation buttons, and `renderView` (App.tsx:84-92) shows that screen for it. `dashboard` has no button and falls back to the herd screen. |
| `Advisor.Summarize` | services/geminiService.ts:12-23 | The five prompt figures: head count, sick-or-treated count, sale total, expense-or-purchase total, pending-events text. No contract of its own: `Advisor.SummaryHerdFigures`, `Advisor.SickOrTreatedSplit`, `Advisor.IncomeAgreesWithFinance` and `Advisor.ExpensesAgreeWithFinance` state them. |
| `Advisor.PendingText` | services/geminiService.ts:23 | The pending events as "title (date)" labels, in list order, joined by ", ". No contract of its own: `Advisor.Labels` and `Advisor.PendingTextEmptyIff` state its properties. |
| `Advisor.PromptText` | services/geminiService.ts:25-41 | The prompt with the five figures written in decimal, and the fixed no-tasks phrase when the pending text is empty. No contract of its own; the figures it writes are the ones the lemmas above state. |
| `Advisor.Labels` | services/geminiService.ts:23 | Each event becomes its "title (date)" label, in list order. |
| `Advisor.SickOrTreatedSplit` | services/geminiService.ts:13 | The advisor's sick count is the alert's sick count plus the sheep under treatment. |
| `Advisor.SummaryHerdFigures` | services/geminiService.ts:12-13 | The head count is the herd size. The sick figure lies between the alert's sick count and the herd size. |
| `Advisor.IncomeAgreesWithFinance` | services/geminiService.ts:15-17 | The advisor's income is the finance screen's income. |
| `Advisor.ExpensesAgreeWithFinance` | services/geminiService.ts:19-21 | The advisor sums "expense or purchase" while the finance screen sums "not a sale". Both give the same total. |
| `Strings.JoinEmptyIff` | services/geminiService.ts:23 | Joining non-empty labels gives the empty string exactly when there are no labels. |
| `Advisor.PendingTextEmptyIff` | services/geminiService.ts:23-33 | The pending-events text in the prompt is empty exactly when every event is done. |
| `Advisor.ResultText` | services/geminiService.ts:48-51 | The answer chosen from the service's outcome is never empty. |
| `Advisor.ResultTextCases` | services/geminiService.ts:43-52 | The answer is the reply text when it is non-empty, the fixed no-result text when it is empty, and the fixed error text when the call fails. |
| `Advisor.AnalyzeFarmStatus` | services/geminiService.ts:6-53 | Whatever the service does, the advisor answers with a non-empty string; no failure propagates. |

## Left out

- Rendering (JSX, CSS classes, icons, `getStatusColor`, `getStatusLabel`, `toLocaleString`): presentation only.
- React scheduling (`useState`, the `useEffect` dependency lists, the `dataVersion` counter, `onDataChange`): framework plumbing. The alert pass is modelled as a call on the current store; the screen's list is a class field loaded by the constructor.
- Form state setters (`showForm`, `setNewAmount('')`, and so on): they only reset inputs.
- The real `localStorage` and `JSON.parse`/`JSON.stringify`: the store is a map of decoded values.
  - A malformed text, or a value of the wrong shape under a key, is not modelled; the source does not guard against either. `Store.Valid()` excludes the wrong shape.
  - An empty string stored under a key reads as the seed in the source, as an absent key does. The model only writes decoded values, so that case does not arise.
- The text-generation network call, its API key, `async`/`await`, and `console.error`: the service is a parameter of `Advisor.AnalyzeFarmStatus` returning a `ServiceOutcome`. A reply whose `text` is missing is modelled as `Responded("")`.
- AdvisorView.tsx: only a loading flag around `analyzeFarmStatus`, which is modelled in `Advisor`.
- `Date.now()` ids: ids are parameters.
- JavaScript date parsing and time zones:
  - The source compares an event's `YYYY-MM-DD` (parsed as UTC midnight) against local midnight today (App.tsx:43-44).
  - The upper bound is three days from an un-zeroed current time (`setDate` on a fresh `new Date()`, App.tsx:45-46).
  - The model works on whole days. The window is today..today+3 inclusive, and "missed" means strictly before today.
  - An unparseable date (`NaN`, which passes neither test and sorts unpredictably) is not modelled.
- The alert messages (`App.MessageText`) and the advisor's event labels (`Advisor.EventLabel`) show the event's stored date text. The model renders it from the day number with `Strings.IsoDate`, which gives the same `YYYY-MM-DD` for dates entered through the form.
- Floating-point amounts and ages (`Number(newAmount)`, `Number(newAge)`, `NaN`): amounts are `int`, ages `nat`.
- The view state machine's transitions (navigation under user input) are not modelled.
  - `ViewState` has five values. No navigation button selects `dashboard`, and `renderView` sends it to the herd screen (App.tsx:84-92, 153-183; `App.RenderView`, `App.RenderViewCoversScreens`).

// The record types of the farm book (types.ts) as closed datatypes.
module Types {

  datatype Option<+T> = None | Some(value: T)

  /** A calendar date as a day number: days since 1970-01-01. */
  type Day = int

  datatype HealthStatus = Healthy | Sick | Treatment

  datatype FeedStockStatus = Good | Low | Critical

  datatype Gender = Male | Female

  datatype Sheep = Sheep(
    id: string,
    tagId: string,
    age: nat,            // in months
    status: HealthStatus,
    gender: Gender,
    notes: Option<string>)

  datatype TransactionKind = Sale | Purchase | Expense

  /** The transaction date is only ever displayed, so it stays the stored text. */
  datatype Transaction = Transaction(
    id: string,
    kind: TransactionKind,
    amount: int,
    date: string,
    notes: Option<string>)

  datatype EventKind = Vaccine | Feed

  datatype CalendarEvent = CalendarEvent(
    id: string,
    kind: EventKind,
    title: string,
    date: Day,
    isCompleted: bool,
    details: Option<string>)

  /** The screens the app can be on; no navigation button selects Dashboard. */
  datatype ViewState = Dashboard | SheepView | HealthView | FinanceView | AdvisorView

  /** The kind tag is closed: a transaction that is not a sale is a purchase or an expense. */
  lemma NotSaleIsPurchaseOrExpense(k: TransactionKind)
    ensures k != Sale <==> (k == Purchase || k == Expense)
  {
  }
}

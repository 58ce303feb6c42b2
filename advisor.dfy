// The farm advisor (services/geminiService.ts): the five figures put into the
// prompt, the prompt itself, and how the reply of the text-generation service
// becomes the one string the advisor screen shows.
module Advisor {
  import opened Types
  import opened Seqs
  import opened Strings
  import Finance
  import App
  import Health

  /** The figures the prompt is built from. */
  datatype FarmSummary = FarmSummary(
    totalSheep: nat,
    sickSheep: nat,
    totalIncome: int,
    totalExpenses: int,
    pendingEvents: string)

  predicate SickOrTreated(s: Sheep)
  {
    s.status == Sick || s.status == Treatment
  }

  predicate IsIncome(t: Transaction)
  {
    t.kind == Sale
  }

  predicate IsCost(t: Transaction)
  {
    t.kind == Expense || t.kind == Purchase
  }

  /** `${e.title} (${e.date})`. */
  function EventLabel(e: CalendarEvent): string
  {
    e.title + " (" + IsoDate(e.date) + ")"
  }

  /** `events.map(EventLabel)`. */
  function Labels(events: seq<CalendarEvent>): (r: seq<string>)
    ensures |r| == |events|
    ensures forall i :: 0 <= i < |events| ==> r[i] == EventLabel(events[i])
  {
    if events == [] then [] else [EventLabel(events[0])] + Labels(events[1..])
  }

  /** The events not yet done, each as "title (date)", in list order, joined by ", ". */
  function PendingText(events: seq<CalendarEvent>): string
  {
    Join(Labels(Filter(Health.IsPending, events)), ", ")
  }

  function Summarize(sheep: seq<Sheep>, transactions: seq<Transaction>, events: seq<CalendarEvent>): FarmSummary
  {
    FarmSummary(
      |sheep|,
      |Filter(SickOrTreated, sheep)|,
      Finance.Total(Filter(IsIncome, transactions)),
      Finance.Total(Filter(IsCost, transactions)),
      PendingText(events))
  }

  const NoTasksText := "لا يوجد مهام قادمة"

  /** `${pendingEvents || '...'}`: an empty list of tasks is written as a fixed phrase. */
  function PendingLine(pendingEvents: string): string
  {
    if pendingEvents == "" then NoTasksText else pendingEvents
  }

  /** The prompt sent to the service, with the figures written in. */
  function PromptText(s: FarmSummary): string
  {
    "\n"
    + "    أنت مستشار زراعي وبيطري خبير متخصص في الأغنام. قم بتحليل بيانات المزرعة التالية وقدم نصيحة مقتضبة وعملية للمزارع (باللغة العربية).\n"
    + "    \n"
    + "    البيانات:\n"
    + "    - عدد القطيع: " + NatText(s.totalSheep) + "\n"
    + "    - عدد الحالات المريضة/تحت العلاج: " + NatText(s.sickSheep) + "\n"
    + "    - إجمالي المبيعات: " + IntText(s.totalIncome) + " ريال\n"
    + "    - إجمالي المصروفات: " + IntText(s.totalExpenses) + " ريال\n"
    + "    - المهام القادمة: " + PendingLine(s.pendingEvents) + "\n"
    + "\n"
    + "    المطلوب:\n"
    + "    1. تقييم سريع للحالة الصحية للقطيع.\n"
    + "    2. نصيحة مالية بناءً على الدخل والمصروفات.\n"
    + "    3. تذكير بأهمية المهام القادمة (إن وجدت) أو اقتراح إجراء وقائي عام.\n"
    + "    \n"
    + "    اجعل الرد مشجعاً، بسيطاً، ومقسماً إلى نقاط واضحة. لا تزد عن 150 كلمة.\n"
    + "  "
  }

  /** What the service call comes back with: a reply (whose text may be empty) or a failure. */
  datatype ServiceOutcome = Responded(text: string) | Failed

  const NoResultText := "عذراً، لم أتمكن من تحليل البيانات حالياً."
  const ErrorText := "حدث خطأ أثناء الاتصال بالمستشار الذكي. يرجى التحقق من الاتصال بالإنترنت."

  /** `response.text || NoResultText`, and the error text when the call fails. */
  function ResultText(outcome: ServiceOutcome): (r: string)
    ensures r != ""
  {
    match outcome
    case Responded(text) => if text != "" then text else NoResultText
    case Failed => ErrorText
  }

  /** `analyzeFarmStatus`: the service is a parameter, given the prompt. Whatever the
      service does, the advisor answers with a non-empty string and raises nothing. */
  function AnalyzeFarmStatus(
    sheep: seq<Sheep>, transactions: seq<Transaction>, events: seq<CalendarEvent>,
    service: string -> ServiceOutcome): (r: string)
    ensures r != ""
  {
    ResultText(service(PromptText(Summarize(sheep, transactions, events))))
  }

  predicate IsTreated(s: Sheep)
  {
    s.status == Treatment
  }

  /** The advisor's count of sick sheep is the alert's count plus those under treatment. */
  lemma {:induction false} SickOrTreatedSplit(sheep: seq<Sheep>)
    ensures |Filter(SickOrTreated, sheep)| == App.SickCount(sheep) + |Filter(IsTreated, sheep)|
  {
    if sheep != [] {
      SickOrTreatedSplit(sheep[1..]);
    }
  }

  /** The herd figures: the head count, and a sick count between the alert's count and the herd size. */
  lemma SummaryHerdFigures(sheep: seq<Sheep>, transactions: seq<Transaction>, events: seq<CalendarEvent>)
    ensures Summarize(sheep, transactions, events).totalSheep == |sheep|
    ensures Summarize(sheep, transactions, events).sickSheep ==
      App.SickCount(sheep) + |Filter(IsTreated, sheep)|
    ensures App.SickCount(sheep) <= Summarize(sheep, transactions, events).sickSheep <= |sheep|
  {
    SickOrTreatedSplit(sheep);
  }

  /** The advisor's income is the finance screen's income. */
  lemma IncomeAgreesWithFinance(transactions: seq<Transaction>)
    ensures Finance.Total(Filter(IsIncome, transactions)) == Finance.Income(transactions)
  {
    FilterAgree(IsIncome, Finance.IsSale, transactions);
  }

  /** Choosing "expense or purchase" is choosing "not a sale", the kind tag being closed,
      so the advisor's expenses are the finance screen's expense. */
  lemma ExpensesAgreeWithFinance(transactions: seq<Transaction>)
    ensures Finance.Total(Filter(IsCost, transactions)) == Finance.Expense(transactions)
  {
    forall t | t in transactions
      ensures IsCost(t) == Finance.IsNotSale(t)
    {
      NotSaleIsPurchaseOrExpense(t.kind);
    }
    FilterAgree(IsCost, Finance.IsNotSale, transactions);
  }

  /** The pending-events text in the prompt is empty exactly when every event is done. */
  lemma PendingTextEmptyIff(events: seq<CalendarEvent>)
    ensures PendingText(events) == "" <==> forall e :: e in events ==> e.isCompleted
  {
    var pending := Filter(Health.IsPending, events);
    var labels := Labels(pending);
    FilterMembers(Health.IsPending, events);
    forall i | 0 <= i < |labels|
      ensures labels[i] != ""
    {
      assert |labels[i]| >= |" ("|;
    }
    JoinEmptyIff(labels, ", ");
    if pending != [] {
      assert pending[0] in events && !pending[0].isCompleted;
    }
    if exists e :: e in events && !e.isCompleted {
      var e :| e in events && !e.isCompleted;
      var j :| 0 <= j < |events| && events[j] == e;
      assert Health.IsPending(events[j]);
    }
  }

  /** The three ways the service's outcome becomes the answer: the reply when it has
      text, the fixed no-result text when it is empty, the fixed error text when the
      call fails. */
  lemma ResultTextCases(outcome: ServiceOutcome)
    ensures outcome.Responded? && outcome.text != "" ==> ResultText(outcome) == outcome.text
    ensures outcome == Responded("") ==> ResultText(outcome) == NoResultText
    ensures outcome.Failed? ==> ResultText(outcome) == ErrorText
  {
  }
}

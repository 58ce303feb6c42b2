// Bookkeeping (components/FinanceManager.tsx): income, expense and balance
// derived from the transaction list, and adding a transaction at the front.
module Finance {
  import opened Types
  import opened Seqs
  import opened Storage

  /** `reduce((acc, t) => acc + t.amount, 0)`: the sum of the amounts. */
  function Total(ts: seq<Transaction>): int
  {
    if ts == [] then 0 else ts[0].amount + Total(ts[1..])
  }

  predicate IsSale(t: Transaction)
  {
    t.kind == Sale
  }

  predicate IsNotSale(t: Transaction)
  {
    t.kind != Sale
  }

  function Income(ts: seq<Transaction>): int
  {
    Total(Filter(IsSale, ts))
  }

  function Expense(ts: seq<Transaction>): int
  {
    Total(Filter(IsNotSale, ts))
  }

  function Balance(ts: seq<Transaction>): int
  {
    Income(ts) - Expense(ts)
  }

  /** Reference reading of the balance: every sale counts up, every other transaction down. */
  function SignedTotal(ts: seq<Transaction>): int
  {
    if ts == [] then 0
    else (if ts[0].kind == Sale then ts[0].amount else -ts[0].amount) + SignedTotal(ts[1..])
  }

  lemma {:induction false} TotalAppend(a: seq<Transaction>, b: seq<Transaction>)
    ensures Total(a + b) == Total(a) + Total(b)
  {
    if a == [] {
      assert a + b == b;
    } else {
      assert (a + b)[1..] == a[1..] + b;
      TotalAppend(a[1..], b);
    }
  }

  /** What one transaction adds to the sum over those `p` selects. */
  function Share(p: Transaction -> bool, t: Transaction): int
  {
    if p(t) then t.amount else 0
  }

  /** The sum over the selected transactions, taken apart at the first one. */
  lemma FilteredTotalCons(p: Transaction -> bool, ts: seq<Transaction>)
    requires ts != []
    ensures Total(Filter(p, ts)) == Share(p, ts[0]) + Total(Filter(p, ts[1..]))
  {
    TotalAppend(if p(ts[0]) then [ts[0]] else [], Filter(p, ts[1..]));
  }

  /** Income and expense split the sum of all amounts between them. */
  lemma {:induction false} IncomePlusExpenseIsTotal(ts: seq<Transaction>)
    ensures Income(ts) + Expense(ts) == Total(ts)
  {
    if ts != [] {
      IncomePlusExpenseIsTotal(ts[1..]);
      FilteredTotalCons(IsSale, ts);
      FilteredTotalCons(IsNotSale, ts);
    }
  }

  /** The balance is the signed sum of the amounts. */
  lemma {:induction false} BalanceIsSignedTotal(ts: seq<Transaction>)
    ensures Balance(ts) == SignedTotal(ts)
  {
    if ts != [] {
      BalanceIsSignedTotal(ts[1..]);
      FilteredTotalCons(IsSale, ts);
      FilteredTotalCons(IsNotSale, ts);
    }
  }

  /** The sum of the shares: the same sum as over the filtered list, without building it. */
  function SharesTotal(p: Transaction -> bool, ts: seq<Transaction>): int
  {
    if ts == [] then 0 else Share(p, ts[0]) + SharesTotal(p, ts[1..])
  }

  lemma {:induction false} FilteredTotalIsSharesTotal(p: Transaction -> bool, ts: seq<Transaction>)
    ensures Total(Filter(p, ts)) == SharesTotal(p, ts)
  {
    if ts != [] {
      FilteredTotalCons(p, ts);
      FilteredTotalIsSharesTotal(p, ts[1..]);
    }
  }

  /** Taking one transaction out of the list, wherever it stands. */
  lemma {:induction false} SharesTotalRemove(p: Transaction -> bool, us: seq<Transaction>, k: nat)
    requires k < |us|
    ensures SharesTotal(p, us) == Share(p, us[k]) + SharesTotal(p, us[..k] + us[k + 1..])
  {
    if k == 0 {
      assert us[..0] + us[1..] == us[1..];
    } else {
      var rest := us[1..];
      var v := us[..k] + us[k + 1..];
      SharesTotalRemove(p, rest, k - 1);
      assert rest[k - 1] == us[k];
      assert v[0] == us[0];
      assert v[1..] == rest[..k - 1] + rest[k..];
    }
  }

  /** The sum of the shares does not depend on the order of the transactions. */
  lemma {:induction false} SharesTotalPermutation(p: Transaction -> bool, ts: seq<Transaction>, us: seq<Transaction>)
    requires multiset(ts) == multiset(us)
    ensures SharesTotal(p, ts) == SharesTotal(p, us)
    decreases |ts|
  {
    if ts != [] {
      var k := MatchFirst(ts, us);
      SharesTotalRemove(p, us, k);
      SharesTotalPermutation(p, ts[1..], us[..k] + us[k + 1..]);
    } else {
      assert |us| == |multiset(us)|;
    }
  }

  /** The sum over the transactions selected by `p` does not depend on their order. */
  lemma FilteredTotalPermutation(p: Transaction -> bool, ts: seq<Transaction>, us: seq<Transaction>)
    requires multiset(ts) == multiset(us)
    ensures Total(Filter(p, ts)) == Total(Filter(p, us))
  {
    SharesTotalPermutation(p, ts, us);
    FilteredTotalIsSharesTotal(p, ts);
    FilteredTotalIsSharesTotal(p, us);
  }

  /** Income, expense and balance are the same for any reordering of the transactions. */
  lemma TotalsPermutationInvariant(ts: seq<Transaction>, us: seq<Transaction>)
    requires multiset(ts) == multiset(us)
    ensures Income(ts) == Income(us)
    ensures Expense(ts) == Expense(us)
    ensures Balance(ts) == Balance(us)
  {
    FilteredTotalPermutation(IsSale, ts, us);
    FilteredTotalPermutation(IsNotSale, ts, us);
  }

  /** A new transaction at the front moves exactly one of the two totals, by its amount. */
  lemma AddTransactionMovesOneTotal(t: Transaction, ts: seq<Transaction>)
    ensures Income([t] + ts) == Income(ts) + (if t.kind == Sale then t.amount else 0)
    ensures Expense([t] + ts) == Expense(ts) + (if t.kind == Sale then 0 else t.amount)
    ensures Balance([t] + ts) == Balance(ts) + (if t.kind == Sale then t.amount else -t.amount)
  {
    assert ([t] + ts)[1..] == ts;
    FilteredTotalCons(IsSale, [t] + ts);
    FilteredTotalCons(IsNotSale, [t] + ts);
  }

  /** The seed book: a sale of 1200 and an expense of 500. */
  lemma SeedTotals()
    ensures Income(InitialTransactions()) == 1200
    ensures Expense(InitialTransactions()) == 500
    ensures Balance(InitialTransactions()) == 700
  {
    var ts := InitialTransactions();
    AddTransactionMovesOneTotal(ts[0], ts[1..]);
    AddTransactionMovesOneTotal(ts[1], []);
    assert ts == [ts[0]] + ts[1..] && ts[1..] == [ts[1]] + [];
  }

  /** The finance screen: the transaction list it shows, loaded from the store on mount. */
  class FinanceManager {
    const store: Store
    var transactions: seq<Transaction>

    /** The list on screen is the list in the store. */
    ghost predicate Synced()
      reads this, store
    {
      store.Valid() && transactions == store.GetTransactions()
    }

    constructor (store: Store)
      requires store.Valid()
      ensures this.store == store && Synced()
    {
      this.store := store;
      transactions := store.GetTransactions();
    }

    /** The new transaction goes in front of the list, which is saved whole. */
    method AddTransaction(id: string, kind: TransactionKind, amount: int, date: string, notes: string)
      requires Synced()
      modifies this, store
      ensures Synced()
      ensures transactions == [Transaction(id, kind, amount, date, Some(notes))] + old(transactions)
      ensures store.GetSheep() == old(store.GetSheep())
      ensures store.GetEvents() == old(store.GetEvents())
      ensures store.GetStock() == old(store.GetStock())
    {
      var t := Transaction(id, kind, amount, date, Some(notes));
      var updated := [t] + transactions;
      transactions := updated;
      store.SaveTransactions(updated);
    }
  }
}

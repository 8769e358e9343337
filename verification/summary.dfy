/** The four headline figures of the dashboard, computed from a snapshot:
    per-type transaction totals and the net balance across accounts. */
module Summary {
  import Seqs
  import opened FinanceTypes

  datatype Metrics = Metrics(income: int, expense: int, transfer: int, balance: int)

  /** Sum of `amount` over `txs` (the `reduce((sum, tx) => sum + tx.amount, 0)`). */
  function SumAmounts(txs: seq<Transaction>): int {
    if |txs| == 0 then 0 else txs[0].amount + SumAmounts(txs[1..])
  }

  /** Sum of `balance` over `accounts`. */
  function SumBalances(accounts: seq<Account>): int {
    if |accounts| == 0 then 0 else accounts[0].balance + SumBalances(accounts[1..])
  }

  /** The transactions of one type, in history order, each as often as it
      occurs in the history. */
  function OfType(txs: seq<Transaction>, kind: TxType): (r: seq<Transaction>)
    ensures Seqs.IsSubsequence(r, txs)
    ensures forall t :: multiset(r)[t] == if t.kind == kind then multiset(txs)[t] else 0
    ensures forall t :: t in r <==> t in txs && t.kind == kind
  {
    Seqs.Filter(txs, (t: Transaction) => t.kind == kind)
  }

  /** Sum of `amount` over the transactions of type `kind`. */
  function TotalOf(txs: seq<Transaction>, kind: TxType): int {
    SumAmounts(OfType(txs, kind))
  }

  /** Total Income, Total Expense, Transfers and Net Balance. Each flow
      total sums the amounts of its own type only; together they account
      for every transaction amount exactly once, and all three are zero for
      an empty history. */
  function ComputeMetrics(state: FinanceState): (m: Metrics)
    ensures m.income == TotalOf(state.transactions, Income)
    ensures m.expense == TotalOf(state.transactions, Expense)
    ensures m.transfer == TotalOf(state.transactions, Transfer)
    ensures m.income + m.expense + m.transfer == SumAmounts(state.transactions)
    ensures state.transactions == [] ==> m.income == 0 && m.expense == 0 && m.transfer == 0
    ensures m.balance == SumBalances(state.accounts)
  {
    TotalsPartitionSum(state.transactions);
    Metrics(
      TotalOf(state.transactions, Income),
      TotalOf(state.transactions, Expense),
      TotalOf(state.transactions, Transfer),
      SumBalances(state.accounts))
  }

  /** A per-type total grows by the amount of a newly prepended transaction
      of that type and is unaffected by one of another type. */
  lemma TotalOfPrepend(tx: Transaction, txs: seq<Transaction>, kind: TxType)
    ensures TotalOf([tx] + txs, kind) == TotalOf(txs, kind) + (if tx.kind == kind then tx.amount else 0)
  {
    assert ([tx] + txs)[1..] == txs;
  }

  /** The three per-type totals add up to the sum of all amounts, because
      every transaction has exactly one of the three types. */
  lemma {:induction false} TotalsPartitionSum(txs: seq<Transaction>)
    ensures TotalOf(txs, Income) + TotalOf(txs, Expense) + TotalOf(txs, Transfer) == SumAmounts(txs)
    decreases |txs|
  {
    if |txs| > 0 {
      var tx, rest := txs[0], txs[1..];
      assert txs == [tx] + rest;
      TotalsPartitionSum(rest);
      TotalOfPrepend(tx, rest, Income);
      TotalOfPrepend(tx, rest, Expense);
      TotalOfPrepend(tx, rest, Transfer);
    }
  }

  /** Changing one balance by `delta` changes the net balance by `delta`. */
  lemma {:induction false} SumBalancesUpdate(accounts: seq<Account>, k: nat, a: Account)
    requires k < |accounts|
    ensures SumBalances(accounts[k := a]) == SumBalances(accounts) + (a.balance - accounts[k].balance)
    decreases |accounts|
  {
    if k > 0 {
      SumBalancesUpdate(accounts[1..], k - 1, a);
      assert accounts[k := a][1..] == accounts[1..][k - 1 := a];
    }
  }

  /** The seed state: Wallet at 8500 and Savings at 42000, in INR, with no
      history; its net balance is 50500. */
  lemma SeedMetrics()
    ensures DefaultState.currency == "INR"
    ensures DefaultState.accounts[0].name == "Wallet" && DefaultState.accounts[0].balance == 8500
    ensures DefaultState.accounts[1].name == "Savings" && DefaultState.accounts[1].balance == 42000
    ensures ComputeMetrics(DefaultState) == Metrics(0, 0, 0, 50500)
  {
  }
}

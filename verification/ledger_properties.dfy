/** Properties of the ledger over whole histories of intents: nothing is
    ever removed, balances are the seed balances plus the effects of the
    recorded transactions, and the dashboard figures move accordingly. */
module LedgerProperties {
  import opened Wrappers
  import opened FinanceTypes
  import opened Ledger
  import opened Summary
  import Seqs

  /** Applies the intents in order, as the store does over its lifetime. */
  function Replay(state: FinanceState, actions: seq<Action>): FinanceState
    decreases |actions|
  {
    if |actions| == 0 then state else Replay(Reduce(state, actions[0]), actions[1..])
  }

  /** Every account of `before` is still present at the same position in
      `after` with the same id, name and currency (only its balance may
      differ); categories and subcategories were only appended to;
      transactions were only prepended to; the currency is unchanged. */
  ghost predicate Extends(before: FinanceState, after: FinanceState) {
    && |before.accounts| <= |after.accounts|
    && (forall k :: 0 <= k < |before.accounts| ==>
          && after.accounts[k].id == before.accounts[k].id
          && after.accounts[k].name == before.accounts[k].name
          && after.accounts[k].currency == before.accounts[k].currency)
    && before.categories <= after.categories
    && before.subcategories <= after.subcategories
    && |before.transactions| <= |after.transactions|
    && after.transactions[|after.transactions| - |before.transactions|..] == before.transactions
    && after.currency == before.currency
  }

  /** Every intent except INIT only adds to the state. */
  lemma ReduceExtends(state: FinanceState, action: Action)
    requires !action.Init?
    ensures Extends(state, Reduce(state, action))
  {
    var r := Reduce(state, action);
    if action.AddTransaction? {
      assert r.transactions[1..] == state.transactions;
    }
  }

  lemma ExtendsTransitive(a: FinanceState, b: FinanceState, c: FinanceState)
    requires Extends(a, b) && Extends(b, c)
    ensures Extends(a, c)
  {
    var n := |c.transactions| - |a.transactions|;
    var m := |c.transactions| - |b.transactions|;
    assert c.transactions[n..] == c.transactions[m..][n - m..];
  }

  /** No history of intents without INIT deletes or restructures anything. */
  lemma {:induction false} ReplayExtends(state: FinanceState, actions: seq<Action>)
    requires forall i :: 0 <= i < |actions| ==> !actions[i].Init?
    ensures Extends(state, Replay(state, actions))
    decreases |actions|
  {
    if |actions| == 0 {
      assert state.transactions[0..] == state.transactions;
    } else {
      var next := Reduce(state, actions[0]);
      ReduceExtends(state, actions[0]);
      ReplayExtends(next, actions[1..]);
      ExtendsTransitive(state, next, Replay(next, actions[1..]));
    }
  }

  /** The net change recording `tx` makes to the sum of all balances. */
  function NetEffect(accounts: seq<Account>, tx: Transaction): int {
    match tx.kind
    case Income => if Resolves(accounts, tx.accountId) then tx.amount else 0
    case Expense => if Resolves(accounts, tx.accountId) then -tx.amount else 0
    case Transfer => 0
  }

  /** Income and expense move the net balance by their signed amount when
      the source resolves; a transfer never changes it. */
  lemma NetBalanceAfterRecord(state: FinanceState, tx: Transaction)
    ensures SumBalances(ApplyTransaction(state, tx).accounts) == SumBalances(state.accounts) + NetEffect(state.accounts, tx)
  {
    assert ApplyTransaction(state, tx).accounts == RecordBalances(state.accounts, tx);
    RecordBalancesSum(state.accounts, tx);
  }

  lemma RecordBalancesSum(accounts: seq<Account>, tx: Transaction)
    ensures SumBalances(RecordBalances(accounts, tx)) == SumBalances(accounts) + NetEffect(accounts, tx)
  {
    var source := FindAccount(accounts, tx.accountId);
    if source.None? {
      assert RecordBalances(accounts, tx) == accounts;
    } else if tx.kind.Transfer? {
      TransferSum(accounts, tx, source.value);
    } else {
      var delta := if tx.kind.Income? then tx.amount else -tx.amount;
      assert RecordBalances(accounts, tx) == Credit(accounts, source.value, delta);
      CreditSum(accounts, source.value, delta);
    }
  }

  /** A transfer from a resolved source leaves the net balance fixed. */
  lemma TransferSum(accounts: seq<Account>, tx: Transaction, s: nat)
    requires tx.kind.Transfer? && FindAccount(accounts, tx.accountId) == Some(s)
    ensures SumBalances(RecordBalances(accounts, tx)) == SumBalances(accounts)
  {
    var t := TransferTarget(accounts, tx, s);
    if t.Some? {
      MoveSum(accounts, s, t.value, tx.amount);
    }
  }

  /** How `RecordBalances` treats a transfer from a resolved source: nothing
      changes without a resolved target, and otherwise the amount moves from
      the source to the target. */
  lemma TransferTarget(accounts: seq<Account>, tx: Transaction, s: nat) returns (t: Option<nat>)
    requires tx.kind.Transfer? && FindAccount(accounts, tx.accountId) == Some(s)
    ensures t.None? ==> RecordBalances(accounts, tx) == accounts
    ensures t.Some? ==> s < |accounts| && t.value < |accounts|
                        && RecordBalances(accounts, tx) == Credit(Credit(accounts, s, -tx.amount), t.value, tx.amount)
  {
    t := match TargetId(tx)
      case Some(id) => FindAccount(accounts, id)
      case None => None;
    var r := RecordBalances(accounts, tx);
    if t.Some? {
      assert r == Credit(Credit(accounts, s, -tx.amount), t.value, tx.amount);
    } else {
      assert r == accounts;
    }
  }

  /** Debiting one account and crediting another by the same amount keeps
      the net balance. */
  lemma MoveSum(accounts: seq<Account>, s: nat, t: nat, amount: int)
    requires s < |accounts| && t < |accounts|
    ensures SumBalances(Credit(Credit(accounts, s, -amount), t, amount)) == SumBalances(accounts)
  {
    CreditSum(accounts, s, -amount);
    CreditSum(Credit(accounts, s, -amount), t, amount);
  }

  /** Crediting one account by `delta` moves the net balance by `delta`. */
  lemma CreditSum(accounts: seq<Account>, k: nat, delta: int)
    requires k < |accounts|
    ensures SumBalances(Credit(accounts, k, delta)) == SumBalances(accounts) + delta
  {
    SumBalancesUpdate(accounts, k, accounts[k].(balance := accounts[k].balance + delta));
  }

  /** Recording `tx` raises the total of its own type by its amount, leaves
      the other two totals alone, and moves the net balance by its net
      effect. In particular a transfer keeps the net balance fixed. */
  lemma RecordMetrics(state: FinanceState, tx: Transaction)
    ensures ComputeMetrics(Reduce(state, AddTransaction(tx))).income
              == ComputeMetrics(state).income + (if tx.kind == Income then tx.amount else 0)
    ensures ComputeMetrics(Reduce(state, AddTransaction(tx))).expense
              == ComputeMetrics(state).expense + (if tx.kind == Expense then tx.amount else 0)
    ensures ComputeMetrics(Reduce(state, AddTransaction(tx))).transfer
              == ComputeMetrics(state).transfer + (if tx.kind == Transfer then tx.amount else 0)
    ensures ComputeMetrics(Reduce(state, AddTransaction(tx))).balance
              == ComputeMetrics(state).balance + NetEffect(state.accounts, tx)
  {
    var r := Reduce(state, AddTransaction(tx));
    assert r.transactions == [tx] + state.transactions;
    TotalOfPrepend(tx, state.transactions, Income);
    TotalOfPrepend(tx, state.transactions, Expense);
    TotalOfPrepend(tx, state.transactions, Transfer);
    NetBalanceAfterRecord(state, tx);
  }

  /** Two account lists that agree on every id, position by position. */
  ghost predicate SameIds(a: seq<Account>, b: seq<Account>) {
    |a| == |b| && forall j :: 0 <= j < |a| ==> a[j].id == b[j].id
  }

  /** Which accounts a transaction touches depends only on the ids. */
  lemma DeltaDependsOnIds(a: seq<Account>, b: seq<Account>, tx: Transaction, k: int)
    requires SameIds(a, b)
    ensures Delta(a, tx, k) == Delta(b, tx, k)
  {
    forall id: string ensures Resolves(a, id) == Resolves(b, id) {
      if Resolves(a, id) {
        var j :| 0 <= j < |a| && a[j].id == id;
        assert b[j].id == id;
      }
      if Resolves(b, id) {
        var j :| 0 <= j < |b| && b[j].id == id;
        assert a[j].id == id;
      }
    }
    forall id: string ensures IsFirstMatch(a, k, id) == IsFirstMatch(b, k, id) {
    }
  }

  /** Every intent in `actions` records a transaction. */
  ghost predicate OnlyRecords(actions: seq<Action>) {
    forall i :: 0 <= i < |actions| ==> actions[i].AddTransaction?
  }

  /** The sum of the balance changes the recorded transactions make to the
      account at index `k`. */
  function SumDeltas(accounts: seq<Account>, actions: seq<Action>, k: int): int
    decreases |actions|
  {
    if |actions| == 0 then 0
    else
      (match actions[0]
       case AddTransaction(tx) => Delta(accounts, tx, k)
       case _ => 0)
      + SumDeltas(accounts, actions[1..], k)
  }

  /** The transactions recorded by `actions`, most recent first. */
  function RecordedNewestFirst(actions: seq<Action>): seq<Transaction>
    decreases |actions|
  {
    if |actions| == 0 then []
    else
      RecordedNewestFirst(actions[1..])
      + (match actions[0]
         case AddTransaction(tx) => [tx]
         case _ => [])
  }

  /** After any history of recorded transactions every account keeps its
      position, id, name and currency, and its balance is its starting
      balance plus the signed effect of every transaction that resolved to
      it. */
  lemma {:induction false} ReplayBalances(state: FinanceState, actions: seq<Action>)
    requires OnlyRecords(actions)
    ensures |Replay(state, actions).accounts| == |state.accounts|
    ensures forall k :: 0 <= k < |state.accounts| ==>
              Replay(state, actions).accounts[k]
                == state.accounts[k].(balance := state.accounts[k].balance + SumDeltas(state.accounts, actions, k))
    decreases |actions|
  {
    if |actions| > 0 {
      var tx := actions[0].transaction;
      var next := Reduce(state, actions[0]);
      var rest := actions[1..];
      assert OnlyRecords(rest);
      ReplayBalances(next, rest);
      assert SameIds(state.accounts, next.accounts);
      forall k | 0 <= k < |state.accounts|
        ensures Replay(state, actions).accounts[k]
                  == state.accounts[k].(balance := state.accounts[k].balance + SumDeltas(state.accounts, actions, k))
      {
        SumDeltasDependsOnIds(state.accounts, next.accounts, rest, k);
      }
    }
  }

  /** After any history of recorded transactions the history holds them
      newest first, in front of the earlier ones. */
  lemma {:induction false} ReplayHistory(state: FinanceState, actions: seq<Action>)
    requires OnlyRecords(actions)
    ensures Replay(state, actions).transactions == RecordedNewestFirst(actions) + state.transactions
    decreases |actions|
  {
    if |actions| > 0 {
      var tx := actions[0].transaction;
      var next := Reduce(state, actions[0]);
      var rest := actions[1..];
      assert OnlyRecords(rest);
      ReplayHistory(next, rest);
      assert next.transactions == [tx] + state.transactions;
      assert RecordedNewestFirst(actions) == RecordedNewestFirst(rest) + [tx];
      Seqs.AppendAssoc(RecordedNewestFirst(rest), [tx], state.transactions);
    }
  }

  lemma {:induction false} SumDeltasDependsOnIds(a: seq<Account>, b: seq<Account>, actions: seq<Action>, k: int)
    requires SameIds(a, b)
    ensures SumDeltas(a, actions, k) == SumDeltas(b, actions, k)
    decreases |actions|
  {
    if |actions| > 0 {
      SumDeltasDependsOnIds(a, b, actions[1..], k);
      if actions[0].AddTransaction? {
        DeltaDependsOnIds(a, b, actions[0].transaction, k);
      }
    }
  }

  /** Income of 500 into an account holding 1000 leaves it at 1500, with the
      new transaction first in the history. */
  lemma IncomeExample(tx: Transaction)
    requires tx.kind == Income && tx.amount == 500 && tx.accountId == "a"
    ensures var s := FinanceState([Account("a", "A", "INR", 1000)], [], [], [], "INR");
            var r := Reduce(s, AddTransaction(tx));
            r.accounts[0].balance == 1500 && r.transactions == [tx]
  {
  }

  /** A transfer of 200 from an account holding 500 to one holding 100
      leaves both at 300. */
  lemma TransferExample(tx: Transaction)
    requires tx.kind == Transfer && tx.amount == 200 && tx.accountId == "a" && tx.toAccountId == Some("b")
    ensures var s := FinanceState([Account("a", "A", "INR", 500), Account("b", "B", "INR", 100)], [], [], [], "INR");
            var r := Reduce(s, AddTransaction(tx));
            r.accounts[0].balance == 300 && r.accounts[1].balance == 300
  {
    var accounts := [Account("a", "A", "INR", 500), Account("b", "B", "INR", 100)];
    assert IsFirstMatch(accounts, 0, "a") && IsFirstMatch(accounts, 1, "b");
    assert Resolves(accounts, "a") && Resolves(accounts, "b");
  }
}

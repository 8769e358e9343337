/** The ledger reducer: one pure transition per intent, each producing a new
    state from the prior one. */
module Ledger {
  import opened Wrappers
  import opened FinanceTypes

  /** The closed set of intents the store accepts. */
  datatype Action =
    | Init(payload: FinanceState)
    | AddTransaction(transaction: Transaction)
    | AddCategory(category: Category)
    | AddSubcategory(subcategory: Subcategory)
    | AddAccount(account: Account)

  /** `after` is `before` with exactly `x` appended at the end. */
  ghost predicate AppendsOne<T>(before: seq<T>, after: seq<T>, x: T) {
    |after| == |before| + 1 && after[..|before|] == before && after[|before|] == x
  }

  /** `after` is `before` with exactly `x` prepended at the front. */
  ghost predicate PrependsOne<T>(before: seq<T>, after: seq<T>, x: T) {
    |after| == |before| + 1 && after[0] == x && after[1..] == before
  }

  /** The id of the transfer target that the store looks up: an absent or
      empty `toAccountId` is falsy, so no lookup happens. */
  function TargetId(tx: Transaction): (r: Option<string>)
    ensures r.Some? <==> tx.toAccountId.Some? && tx.toAccountId.value != ""
    ensures r.Some? ==> r == tx.toAccountId
  {
    match tx.toAccountId
    case Some(t) => if t != "" then Some(t) else None
    case None => None
  }

  /** The balance change recording `tx` makes to the account at index `k`:
      income credits and expense debits the first account carrying
      `accountId`; a transfer debits the first account carrying `accountId`
      and credits the first one carrying the target id, but only when both
      resolve. Nothing bounds a balance from below. */
  function Delta(accounts: seq<Account>, tx: Transaction, k: int): int {
    match tx.kind
    case Income => if IsFirstMatch(accounts, k, tx.accountId) then tx.amount else 0
    case Expense => if IsFirstMatch(accounts, k, tx.accountId) then -tx.amount else 0
    case Transfer =>
      if Resolves(accounts, tx.accountId) && TargetId(tx).Some? && Resolves(accounts, TargetId(tx).value) then
        (if IsFirstMatch(accounts, k, tx.accountId) then -tx.amount else 0)
        + (if IsFirstMatch(accounts, k, TargetId(tx).value) then tx.amount else 0)
      else 0
  }

  /** `accounts` with `delta` added to the balance at index `k`. */
  function Credit(accounts: seq<Account>, k: nat, delta: int): seq<Account>
    requires k < |accounts|
  {
    accounts[k := accounts[k].(balance := accounts[k].balance + delta)]
  }

  /** The accounts after recording `tx`: the balance effect applied to the
      resolved accounts, and ids, names, currencies and order kept. */
  function RecordBalances(accounts: seq<Account>, tx: Transaction): (r: seq<Account>)
    ensures |r| == |accounts|
    ensures forall k {:trigger r[k]} :: 0 <= k < |accounts| ==>
              r[k] == accounts[k].(balance := accounts[k].balance + Delta(accounts, tx, k))
  {
    var source := FindAccount(accounts, tx.accountId);
    var target := match TargetId(tx)
      case Some(t) => FindAccount(accounts, t)
      case None => None;
    if tx.kind.Income? && source.Some? then Credit(accounts, source.value, tx.amount)
    else if tx.kind.Expense? && source.Some? then Credit(accounts, source.value, -tx.amount)
    else if tx.kind.Transfer? && source.Some? && target.Some? then
      Credit(Credit(accounts, source.value, -tx.amount), target.value, tx.amount)
    else accounts
  }

  /** Records `tx`: applies its balance effect to the resolved accounts and
      puts it at the front of the history. The record is kept even when no
      account resolves. Ids, names, currencies and the order of the accounts
      are kept; categories, subcategories and the currency are untouched. */
  function ApplyTransaction(state: FinanceState, tx: Transaction): (r: FinanceState)
    ensures PrependsOne(state.transactions, r.transactions, tx)
    ensures |r.accounts| == |state.accounts|
    ensures forall k :: 0 <= k < |state.accounts| ==>
              r.accounts[k] == state.accounts[k].(balance := state.accounts[k].balance + Delta(state.accounts, tx, k))
    ensures r.categories == state.categories
    ensures r.subcategories == state.subcategories
    ensures r.currency == state.currency
  {
    state.(transactions := [tx] + state.transactions, accounts := RecordBalances(state.accounts, tx))
  }

  /** The reducer. INIT replaces the state wholesale; each ADD_* entity
      intent appends one record and leaves everything else alone; recording
      a transaction goes through `ApplyTransaction`. */
  function Reduce(state: FinanceState, action: Action): (r: FinanceState)
    ensures action.Init? ==> r == action.payload
    ensures action.AddAccount? ==>
              AppendsOne(state.accounts, r.accounts, action.account) && r == state.(accounts := r.accounts)
    ensures action.AddCategory? ==>
              AppendsOne(state.categories, r.categories, action.category) && r == state.(categories := r.categories)
    ensures action.AddSubcategory? ==>
              AppendsOne(state.subcategories, r.subcategories, action.subcategory)
              && r == state.(subcategories := r.subcategories)
    ensures action.AddTransaction? ==> r == ApplyTransaction(state, action.transaction)
  {
    match action
    case Init(payload) => payload
    case AddAccount(a) => state.(accounts := state.accounts + [a])
    case AddCategory(c) => state.(categories := state.categories + [c])
    case AddSubcategory(s) => state.(subcategories := state.subcategories + [s])
    case AddTransaction(tx) => ApplyTransaction(state, tx)
  }

  /** Recording a transaction whose source account does not resolve leaves
      every balance as it was, yet the transaction is still recorded. */
  lemma UnresolvedSourceChangesNoBalance(state: FinanceState, tx: Transaction)
    requires !Resolves(state.accounts, tx.accountId)
    ensures ApplyTransaction(state, tx).accounts == state.accounts
    ensures ApplyTransaction(state, tx).transactions[0] == tx
  {
    var r := ApplyTransaction(state, tx);
    forall k | 0 <= k < |state.accounts| ensures r.accounts[k] == state.accounts[k] {
      assert !IsFirstMatch(state.accounts, k, tx.accountId);
    }
  }

  /** A transfer from an account to itself changes no balance. */
  lemma SelfTransferChangesNoBalance(state: FinanceState, tx: Transaction)
    requires tx.kind.Transfer? && tx.toAccountId == Some(tx.accountId)
    ensures ApplyTransaction(state, tx).accounts == state.accounts
  {
    var r := ApplyTransaction(state, tx);
    forall k | 0 <= k < |state.accounts| ensures r.accounts[k] == state.accounts[k] {
      assert Delta(state.accounts, tx, k) == 0;
    }
  }

  /** A transfer between two distinct resolved accounts moves exactly
      `amount` from the first account carrying the source id to the first
      account carrying the target id, and touches no other account. */
  lemma TransferMovesAmount(state: FinanceState, tx: Transaction, s: nat, t: nat)
    requires tx.kind.Transfer? && t < |state.accounts|
    requires state.accounts[t].id != "" && tx.toAccountId == Some(state.accounts[t].id)
    requires IsFirstMatch(state.accounts, s, tx.accountId)
    requires IsFirstMatch(state.accounts, t, state.accounts[t].id)
    requires s != t
    ensures ApplyTransaction(state, tx).accounts[s].balance == state.accounts[s].balance - tx.amount
    ensures ApplyTransaction(state, tx).accounts[t].balance == state.accounts[t].balance + tx.amount
    ensures forall k :: 0 <= k < |state.accounts| && k != s && k != t ==>
              ApplyTransaction(state, tx).accounts[k] == state.accounts[k]
  {
    var accounts := state.accounts;
    assert accounts[t].id != tx.accountId;
    assert Resolves(accounts, tx.accountId);
    assert Resolves(accounts, accounts[t].id);
  }
}

/** Restoring the ledger at start-up from what an earlier session stored
    under the ledger's one storage key, and what saving writes there. */
module Persistence {
  import opened Wrappers
  import opened FinanceTypes
  import opened Ledger

  /** A decoded snapshot; a top-level field is `None` when the stored
      record lacks that key. */
  datatype Snapshot = Snapshot(
    currency: Option<string>,
    accounts: Option<seq<Account>>,
    categories: Option<seq<Category>>,
    subcategories: Option<seq<Subcategory>>,
    transactions: Option<seq<Transaction>>)

  /** What reading the storage key yields: no storage at all (server-side
      rendering), no item, an empty string, text that fails to parse, or a
      parsed snapshot. */
  datatype Stored = NoWindow | NoItem | BlankItem | Unparseable | Parsed(snapshot: Snapshot)

  /** `rehydrate()`: the seed state unless a snapshot parsed; otherwise the
      seed state with each field the snapshot carries taken from it. */
  function Rehydrate(stored: Stored): (r: FinanceState)
    ensures !stored.Parsed? ==> r == DefaultState
    ensures stored.Parsed? ==>
              var p := stored.snapshot;
              && (p.accounts.Some? ==> r.accounts == p.accounts.value)
              && (p.accounts.None? ==> r.accounts == DefaultState.accounts)
              && (p.categories.Some? ==> r.categories == p.categories.value)
              && (p.categories.None? ==> r.categories == DefaultState.categories)
              && (p.subcategories.Some? ==> r.subcategories == p.subcategories.value)
              && (p.subcategories.None? ==> r.subcategories == DefaultState.subcategories)
              && (p.transactions.Some? ==> r.transactions == p.transactions.value)
              && (p.transactions.None? ==> r.transactions == DefaultState.transactions)
              && (p.currency.Some? ==> r.currency == p.currency.value)
              && (p.currency.None? ==> r.currency == DefaultState.currency)
  {
    match stored
    case Parsed(p) =>
      FinanceState(
        p.accounts.GetOr(DefaultState.accounts),
        p.categories.GetOr(DefaultState.categories),
        p.subcategories.GetOr(DefaultState.subcategories),
        p.transactions.GetOr(DefaultState.transactions),
        p.currency.GetOr(DefaultState.currency))
    case _ => DefaultState
  }

  /** What the save effect leaves in storage: the whole state, every field present. */
  function Save(state: FinanceState): Stored {
    Parsed(Snapshot(Some(state.currency), Some(state.accounts), Some(state.categories),
                    Some(state.subcategories), Some(state.transactions)))
  }

  /** Restoring what was saved gives back exactly the saved state. */
  lemma RehydrateSave(state: FinanceState)
    ensures Rehydrate(Save(state)) == state
  {
  }

  /** A restart — rehydrate, then INIT — reinstates the last saved state,
      whatever the store held before. */
  lemma RestartRestoresState(current: FinanceState, saved: FinanceState)
    ensures Reduce(current, Init(Rehydrate(Save(saved)))) == saved
  {
    RehydrateSave(saved);
  }

  /** A snapshot with no fields at all restores the seed state, as does any
      corrupt or missing value. */
  lemma EmptySnapshotIsSeed()
    ensures Rehydrate(Parsed(Snapshot(None, None, None, None, None))) == DefaultState
  {
  }

  /** Saving after restoring is stable: restoring again yields the same state. */
  lemma RehydrateIsStable(stored: Stored)
    ensures Rehydrate(Save(Rehydrate(stored))) == Rehydrate(stored)
  {
    RehydrateSave(Rehydrate(stored));
  }
}

# Personal finance ledger — a Dafny model

This project models the ledger state manager of a personal-finance dashboard,
together with the pure computations its views derive from the ledger snapshot.

The ledger holds accounts, categories, subcategories and a transaction history,
newest first, plus a display currency. A closed set of intents changes it:

- INIT replaces the whole state.
- ADD_ACCOUNT, ADD_CATEGORY and ADD_SUBCATEGORY each append one entity.
- ADD_TRANSACTION records a transaction. An income credits the source account.
  An expense debits it, with no floor on the balance. A transfer debits the
  source and credits the target, but only when both resolve. In every case the
  transaction goes to the front of the history, even when no account resolves.

At start-up the state is restored from storage. When nothing usable is stored,
the built-in seed state is used: Wallet 8500, Savings 42000, currency INR. A
stored snapshot that lacks a top-level field gets that field from the seed.

The views build on the snapshot:

- The dashboard totals income, expense and transfer amounts. Its net balance is
  the sum of all account balances.
- The timeline filters by type and searches the names a transaction refers to.
  It shows expenses as negative amounts.
- The category hierarchy lists each category with its subcategories.
- The quick-entry forms validate their input and turn form text into intents.

Modules, one concept each:

| module | file | what it holds |
|---|---|---|
| `Wrappers` | wrappers.dfy | `Option`, for optional fields and failed lookups |
| `Seqs` | seqs.dfy | order-preserving `Filter` and `Map`, and subsequences |
| `Text` | text.dfy | `trim`, ASCII `toLowerCase`, `includes` |
| `FinanceTypes` | finance_types.dfy | entities, the seed state, first-match lookups |
| `Ledger` | ledger.dfy | the reducer and the transaction balance algorithm |
| `LedgerProperties` | ledger_properties.dfy | whole-history properties: append-only growth, balance history, dashboard deltas |
| `Intents` | intents.dfy | the store's `addAccount`/`addCategory`/`addSubcategory`/`addTransaction`, and id uniqueness |
| `Persistence` | persistence.dfy | rehydration and the field-by-field merge with the seed |
| `Summary` | summary.dfy | dashboard metrics |
| `TransactionsTable` | transactions_table.dfy | timeline filter, search and signed display amount |
| `CategoryOverview` | category_overview.dfy | the category-to-subcategories grouping |
| `QuickActions` | quick_actions.dfy | form transitions, submit guards and payload normalisation |

`Ledger.Delta` is the reference definition of a transaction's effect on one
account. It is stated declaratively with "first account carrying this id"
(`IsFirstMatch`) and "some account carries this id" (`Resolves`). The
implementation, `RecordBalances`, finds indices and updates them, the way the
source mutates copies of the accounts. Its contract ties the two together.

Two details of the code that the model follows:

- A new account takes the seed currency, INR, and not the ledger's current
  currency (finance-context.tsx:215).
- A transfer whose `toAccountId` is the empty string is treated like one with
  no target. The source only looks up a target when the id is truthy
  (finance-context.tsx:102-104).

## Model

| member | source | states |
|---|---|---|
| FinanceTypes.FindAccount | agentic-app/src/components/finance/finance-context.tsx:101-104 | finds an index exactly when some account has the id, and that index is the first account with it (`Array.prototype.find`) |
| FinanceTypes.AccountName | agentic-app/src/components/finance/transactions-table.tsx:29 | gives the name of the first account with the id, or "" when no account has it |
| FinanceTypes.NameOfFirst | agentic-app/src/components/finance/transactions-table.tsx:30-31 | the category or subcategory name shown is that of the first element with the id, or "" when no element has it |
| Ledger.TargetId | agentic-app/src/components/finance/finance-context.tsx:102-104 | a transfer target is looked up only when `toAccountId` is present and non-empty |
| Ledger.RecordBalances | agentic-app/src/components/finance/finance-context.tsx:99-117 | changes every account's balance by exactly its `Delta` (income +amount and expense −amount on the first source match; a transfer moves amount from source to target only when both resolve) and keeps id, name, currency and position |
| Ledger.ApplyTransaction | agentic-app/src/components/finance/finance-context.tsx:98-124 | prepends the transaction, changes each balance by its `Delta`, and leaves categories, subcategories and currency alone |
| Ledger.Reduce | agentic-app/src/components/finance/finance-context.tsx:81-96 | INIT returns the payload whatever the prior state; each ADD_* entity intent appends exactly its entity at the end of its sequence with every other field unchanged; ADD_TRANSACTION is `ApplyTransaction` |
| Ledger.UnresolvedSourceChangesNoBalance | agentic-app/src/components/finance/finance-context.tsx:101-122 | with an unresolved source account no balance changes, yet the transaction is still recorded first |
| Ledger.SelfTransferChangesNoBalance | agentic-app/src/components/finance/finance-context.tsx:101-117 | a transfer whose target id equals its source id changes no balance |
| Ledger.TransferMovesAmount | agentic-app/src/components/finance/finance-context.tsx:114-117 | a transfer between two distinct resolved accounts debits the source by amount, credits the target by amount and touches no other account |
| LedgerProperties.ReduceExtends | agentic-app/src/components/finance/finance-context.tsx:85-92 | every non-INIT intent only adds: accounts keep position, id, name and currency; categories and subcategories grow at the end; transactions grow at the front; currency is unchanged |
| LedgerProperties.ReplayExtends | agentic-app/src/components/finance/finance-context.tsx:81-96 | any history of non-INIT intents deletes and restructures nothing |
| LedgerProperties.NetBalanceAfterRecord | agentic-app/src/components/finance/finance-context.tsx:106-117 | the sum of balances moves by +amount for a resolved income, −amount for a resolved expense, and 0 for every transfer |
| LedgerProperties.RecordMetrics | agentic-app/src/components/finance/summary-cards.tsx:29-38 | recording a transaction raises its own type's total by its amount, leaves the other totals alone and moves Net Balance by its net effect; a transfer keeps Net Balance fixed and raises Transfers by the amount |
| LedgerProperties.ReplayBalances | agentic-app/src/components/finance/finance-context.tsx:98-124 | after any sequence of recorded transactions each account keeps id, name and currency, and its balance equals its starting balance plus the sum of the transactions' effects on it |
| LedgerProperties.ReplayHistory | agentic-app/src/components/finance/finance-context.tsx:119-122 | after any sequence of recorded transactions the history is those transactions newest first, in front of the earlier history |
| LedgerProperties.IncomeExample | agentic-app/src/components/finance/finance-context.tsx:106-108 | income of 500 into an account at 1000 leaves it at 1500, with the transaction first |
| LedgerProperties.TransferExample | agentic-app/src/components/finance/finance-context.tsx:114-117 | a transfer of 200 from an account at 500 to one at 100 leaves both at 300 |
| Intents.CreateAccount | agentic-app/src/components/finance/finance-context.tsx:209-220 | appends one account with the given id and name, balance 0 and currency INR, whatever the ledger's currency is; nothing else changes |
| Intents.CreateCategory | agentic-app/src/components/finance/finance-context.tsx:184-195 | appends one category with the given id, name and type, coloured #22c55e for income and #f97316 for expense; nothing else changes |
| Intents.CreateSubcategory | agentic-app/src/components/finance/finance-context.tsx:197-207 | appends one subcategory under the given parent id, which is not checked; nothing else changes |
| Intents.RecordTransaction | agentic-app/src/components/finance/finance-context.tsx:173-182 | records the input under the given id as the new first transaction, every input field carried over; each account's balance changes by exactly its `Delta` with id, name, currency and position kept; categories, subcategories and currency are unchanged |
| Intents.SeedHasUniqueIds | agentic-app/src/components/finance/finance-context.tsx:60-79 | the seed state's ids are pairwise distinct within each kind of entity |
| Intents.CreateAccountKeepsIdsUnique | agentic-app/src/components/finance/finance-context.tsx:209-220 | creating an account under an unused id keeps ids distinct, and the id then resolves to the new account |
| Intents.CreateCategoryKeepsIdsUnique | agentic-app/src/components/finance/finance-context.tsx:184-195 | creating a category under an unused id keeps ids distinct |
| Intents.CreateSubcategoryKeepsIdsUnique | agentic-app/src/components/finance/finance-context.tsx:197-207 | creating a subcategory under an unused id keeps ids distinct |
| Intents.RecordTransactionKeepsIdsUnique | agentic-app/src/components/finance/finance-context.tsx:173-182 | recording a transaction under an unused id keeps ids distinct |
| Persistence.Rehydrate | agentic-app/src/components/finance/finance-context.tsx:135-158 | with no storage, no item, an empty item or a parse failure the result is the seed state; otherwise each field is the snapshot's when present and the seed's when absent |
| Persistence.RehydrateSave | agentic-app/src/components/finance/finance-context.tsx:141-153 | restoring a saved state gives back exactly that state |
| Persistence.RestartRestoresState | agentic-app/src/components/finance/finance-context.tsx:160-171 | rehydrating and dispatching INIT reinstates the last saved state, whatever the store held |
| Persistence.EmptySnapshotIsSeed | agentic-app/src/components/finance/finance-context.tsx:146-153 | a snapshot with no fields restores the seed state |
| Persistence.RehydrateIsStable | agentic-app/src/components/finance/finance-context.tsx:135-158 | saving a restored state and restoring again yields the same state |
| Summary.ComputeMetrics | agentic-app/src/components/finance/summary-cards.tsx:28-46 | each flow figure is the total of its own type's amounts (Total Income of the income transactions, Total Expense of the expense ones, Transfers of the transfers); the three add up to the sum of all amounts, each is 0 with no transactions, and Net Balance is the sum of all account balances |
| Summary.OfType | agentic-app/src/components/finance/summary-cards.tsx:29-37 | keeps the transactions of the given type in history order, each exactly as many times as it occurs, and no other transaction |
| Summary.TotalOfPrepend | agentic-app/src/components/finance/summary-cards.tsx:29-37 | a new transaction adds its amount to its own type's total and nothing to the others |
| Summary.TotalsPartitionSum | agentic-app/src/components/finance/summary-cards.tsx:29-37 | Total Income + Total Expense + Transfers equals the sum of all amounts |
| Summary.SumBalancesUpdate | agentic-app/src/components/finance/summary-cards.tsx:38 | changing one account's balance changes Net Balance by the same amount |
| Summary.SeedMetrics | agentic-app/src/components/finance/finance-context.tsx:60-79 | the seed has Wallet 8500 and Savings 42000 in INR, so its metrics are 0, 0, 0 and 50500 |
| Text.Trim | agentic-app/src/components/finance/transactions-table.tsx:26 | the trimmed string is the input with a whitespace-only prefix and suffix cut off; it is empty exactly when the input is all whitespace, and otherwise starts and ends with non-whitespace |
| Text.ToLower | agentic-app/src/components/finance/transactions-table.tsx:38-39 | lower-cases each code point on its own and keeps the length |
| TransactionsTable.Filtered | agentic-app/src/components/finance/transactions-table.tsx:21-41 | the rows shown are an order-preserving subsequence of the history that keeps every occurrence of a transaction passing the type filter and the search, and no occurrence of any other |
| TransactionsTable.UnfilteredShowsAll | agentic-app/src/components/finance/transactions-table.tsx:23-28 | with filter "all" and a whitespace-only query every transaction is shown, in order |
| TransactionsTable.TypeFilterKeepsType | agentic-app/src/components/finance/transactions-table.tsx:23-25 | with a type filter every shown transaction has that type |
| TransactionsTable.SearchSemantics | agentic-app/src/components/finance/transactions-table.tsx:26-39 | with a non-blank query a transaction is shown exactly when its type matches and the lower-cased haystack contains the lower-cased, untrimmed query |
| TransactionsTable.SearchFindsAccountName | agentic-app/src/components/finance/transactions-table.tsx:29-39 | a query that occurs in the source account's name finds the transaction |
| TransactionsTable.SearchFindsNotes | agentic-app/src/components/finance/transactions-table.tsx:32-39 | a query that occurs in the notes finds the transaction |
| TransactionsTable.UnresolvedHaystack | agentic-app/src/components/finance/transactions-table.tsx:29-38 | a category or subcategory id that is absent or names nothing, or a target id that is absent, empty or names nothing, adds an empty string, so with an unresolved source account only the notes are left to search (an empty category or subcategory id is still looked up, and matches an element whose id is "") |
| TransactionsTable.DisplayAmountIsBalanceEffect | agentic-app/src/components/finance/transactions-table.tsx:106-109 | the shown amount (−amount for expense, +amount otherwise) equals the change made to the resolved source account for income and expense, and the change made to the target for a transfer |
| CategoryOverview.ChildrenOf | agentic-app/src/components/finance/category-overview.tsx:15-17 | keeps the subcategories whose parent id is the category's id in subcategory order, each exactly as many times as it occurs, and no other subcategory |
| CategoryOverview.Group | agentic-app/src/components/finance/category-overview.tsx:10-22 | the grouping's keys are exactly the category ids |
| CategoryOverview.GroupLastWins | agentic-app/src/components/finance/category-overview.tsx:12-19 | the entry under an id is built from the last category with that id, so a later duplicate overwrites an earlier one |
| CategoryOverview.GroupChildren | agentic-app/src/components/finance/category-overview.tsx:15-17 | an entry's children are the names of the subcategories pointing at its id, in subcategory order, each as often as it occurs, and of no other subcategory |
| CategoryOverview.OrphanNotListed | agentic-app/src/components/finance/category-overview.tsx:15-17 | a subcategory whose parent id names no category is listed under no entry |
| CategoryOverview.DistinctIdsEachListed | agentic-app/src/components/finance/category-overview.tsx:10-22 | with distinct ids every category has an entry with its own name and type |
| CategoryOverview.NoCategoriesNoEntries | agentic-app/src/components/finance/category-overview.tsx:10-22 | with no categories the grouping is empty |
| QuickActions.NonEmpty | agentic-app/src/components/finance/quick-actions.tsx:69-75 | the empty string becomes absent; any other string is kept |
| QuickActions.SelectType | agentic-app/src/components/finance/quick-actions.tsx:117-124 | choosing a type clears category, subcategory and target account and keeps amount, date, account and notes |
| QuickActions.SelectCategory | agentic-app/src/components/finance/quick-actions.tsx:215-220 | choosing a category clears the subcategory and keeps every other field |
| QuickActions.AvailableSubcategories | agentic-app/src/components/finance/quick-actions.tsx:54-56 | the offered subcategories are those under the selected category, in original order, each as often as it occurs, and no other |
| QuickActions.SubmitTransaction | agentic-app/src/components/finance/quick-actions.tsx:58-80 | nothing is dispatched and the form is kept exactly when amount, date or account is empty; otherwise the target is set only for transfers, category and subcategory only for non-transfers, each only when non-empty, notes only when non-empty, and the form resets keeping the account |
| QuickActions.TypeChangeClearsReferences | agentic-app/src/components/finance/quick-actions.tsx:117-124 | a submit right after a type change carries no category, subcategory or target |
| QuickActions.CategoryChangeClearsSubcategory | agentic-app/src/components/finance/quick-actions.tsx:215-220 | a submit right after a category change carries no subcategory |
| QuickActions.SubmitName | agentic-app/src/components/finance/quick-actions.tsx:84-86 | a whitespace-only name dispatches nothing and keeps the field; otherwise the trimmed, non-empty name is dispatched and the field cleared |
| QuickActions.SubmitCategoryForm | agentic-app/src/components/finance/quick-actions.tsx:82-87 | a blank name leaves the ledger and the field alone; otherwise exactly one category is appended, with the given id, the trimmed name, the chosen type and the type's colour, the field is cleared, and accounts, subcategories, transactions and currency are unchanged |
| QuickActions.SubmitAccountForm | agentic-app/src/components/finance/quick-actions.tsx:96-101 | a blank name leaves the ledger and the field alone; otherwise exactly one empty INR account with the given id and the trimmed name is appended, the field is cleared, and categories, subcategories, transactions and currency are unchanged |
| QuickActions.SubmitSubcategoryForm | agentic-app/src/components/finance/quick-actions.tsx:89-94 | without a parent category or with a blank name nothing changes; otherwise exactly one subcategory with the given id and the trimmed name is appended under the parent, the name field is cleared, and accounts, categories, transactions and currency are unchanged |
| QuickActions.SubmitTransactionForm | agentic-app/src/components/finance/quick-actions.tsx:58-80 | a blocked submit leaves the ledger and form alone; an accepted one puts exactly one transaction, built under the given id from the normalised payload, first in the history, changes each account's balance by its `Delta`, leaves categories, subcategories and currency unchanged, and resets the form keeping the account |

## Left out

- Id generation (`nanoid`) is a foreign library call. Ids are parameters of the intents. Freshness is a precondition only of the uniqueness lemmas.
- Browser storage, `JSON.parse`/`JSON.stringify` and `console.error` are I/O. The stored value is the abstract `Persistence.Stored`: no storage, no item, an empty item, unparseable text, or a decoded snapshot. `Save` assumes the JSON round trip is lossless for the modelled field types.
- Persistence.Rehydrate: a parsed record whose `currency` key holds `null`, extra keys that the spread would copy, and values of the wrong JSON type are not modelled. A decoded snapshot is typed, and an absent field is `None`.
- React plumbing is framework code and is not modelled: `useReducer`, `useEffect`, `useMemo`, the context, and the save effect that runs on every state change. `Persistence.RestartRestoresState` states only the rehydrate-then-INIT step (finance-context.tsx:163-165).
- The save of the seed at mount is not modelled. On the first render the save effect (finance-context.tsx:167-171) writes `useReducer`'s initial seed state (line 161) over the stored snapshot, after `rehydrate()` has read it and before the restored state is saved again. A second run of the mount effects would read that seed back; the model has no effect scheduling.
- The start-up choice of account in the transaction form (`accounts[0]?.id ?? ""`, quick-actions.tsx:45-47) is not modelled; `QuickActions.InitialForm` takes the account id as a parameter.
- The reducer's `default` branch cannot be reached, because `Ledger.Action` is a closed datatype.
- Amounts and balances are unbounded integers, not IEEE doubles. Rounding and NaN are not modelled.
- `Number(amount)` and today's date come from a parser and a clock. `QuickActions.SubmitTransaction` takes both as parameters.
- QuickActions.SubmitTransaction: the browser's own form validation is not modelled. The form has no `noValidate` (quick-actions.tsx:111), so `required` on amount, date, source, target and category (lines 140, 154, 168, 187, 213) and `min="0"`/`step="0.01"` on amount (142-143) can stop a submit before the handler runs; with the empty placeholder options (193, 223) an income or expense without a category, or a transfer without a target, is refused there. The modelled guard is the handler's alone (lines 60-62).
- Text.ToLower: folds only the ASCII letters A–Z. JavaScript's full Unicode lower-casing, which can change a string's length, is not modelled.
- Text.Trim: the whitespace set is the ECMAScript WhiteSpace and LineTerminator code points, written out by hand.
- CategoryOverview.Group: the result is a map. `Object.entries` puts integer-like keys first, and that rendering order is not modelled. Nor is the plain-object key `"__proto__"`: assigning it (category-overview.tsx:12) replaces the object's prototype instead of adding a key, so `Object.entries` and `Object.keys` (lines 32, 64) leave such a category out, whereas `Group` lists its id. Only a hand-edited stored snapshot can carry that id.
- Formatting (`currency`, `formatDate`), icons, badges, Tailwind classes and layout are presentation only. This covers page.tsx, layout.tsx, accounts-overview.tsx, ui/*.tsx and tailwind.config.ts.
- The option lists of the form selects are not modelled: the category select lists only categories of the current type, and the target select leaves out the source account. The submit handler does not re-check either, so the model accepts any ids.

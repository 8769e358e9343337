/** The store's public operations: each builds a new entity from its
    arguments and dispatches it to the reducer. Ids are supplied by the
    caller instead of being generated. */
module Intents {
  import opened FinanceTypes
  import opened Ledger
  import Seqs

  const IncomeColor: string := "#22c55e"
  const ExpenseColor: string := "#f97316"

  /** A new account starts empty and in the seed currency. */
  function NewAccount(id: string, name: string): Account {
    Account(id, name, DefaultState.currency, 0)
  }

  /** A new category is coloured by its type alone. */
  function NewCategory(id: string, name: string, kind: CategoryType): Category {
    Category(id, name, kind, if kind == Income then IncomeColor else ExpenseColor)
  }

  function NewSubcategory(id: string, categoryId: string, name: string): Subcategory {
    Subcategory(id, categoryId, name)
  }

  function NewTransaction(id: string, input: TransactionInput): Transaction {
    Transaction(id, input.kind, input.amount, input.accountId, input.toAccountId,
                input.categoryId, input.subcategoryId, input.notes, input.date)
  }

  /** `addAccount(name)`: appends an account with zero balance in INR, the
      seed currency, whatever the ledger's own currency is. */
  function CreateAccount(state: FinanceState, id: string, name: string): (r: FinanceState)
    ensures |r.accounts| == |state.accounts| + 1 && r.accounts[..|state.accounts|] == state.accounts
    ensures r.accounts[|state.accounts|] == Account(id, name, "INR", 0)
    ensures r.categories == state.categories && r.subcategories == state.subcategories
    ensures r.transactions == state.transactions && r.currency == state.currency
  {
    Reduce(state, AddAccount(NewAccount(id, name)))
  }

  /** `addCategory(name, type)`: appends a category coloured green for
      income and orange for expense. */
  function CreateCategory(state: FinanceState, id: string, name: string, kind: CategoryType): (r: FinanceState)
    ensures |r.categories| == |state.categories| + 1 && r.categories[..|state.categories|] == state.categories
    ensures r.categories[|state.categories|].id == id
    ensures r.categories[|state.categories|].name == name
    ensures r.categories[|state.categories|].kind == kind
    ensures r.categories[|state.categories|].color == (if kind.Income? then "#22c55e" else "#f97316")
    ensures r.accounts == state.accounts && r.subcategories == state.subcategories
    ensures r.transactions == state.transactions && r.currency == state.currency
  {
    Reduce(state, AddCategory(NewCategory(id, name, kind)))
  }

  /** `addSubcategory(categoryId, name)`: appends a subcategory; whether the
      parent exists is not checked here. */
  function CreateSubcategory(state: FinanceState, id: string, categoryId: string, name: string): (r: FinanceState)
    ensures |r.subcategories| == |state.subcategories| + 1
    ensures r.subcategories[..|state.subcategories|] == state.subcategories
    ensures r.subcategories[|state.subcategories|] == Subcategory(id, categoryId, name)
    ensures r.accounts == state.accounts && r.categories == state.categories
    ensures r.transactions == state.transactions && r.currency == state.currency
  {
    Reduce(state, AddSubcategory(NewSubcategory(id, categoryId, name)))
  }

  /** `addTransaction(input)`: records the input under the given id, first
      in the history, and applies its balance effect to the accounts. */
  function RecordTransaction(state: FinanceState, id: string, input: TransactionInput): (r: FinanceState)
    ensures |r.transactions| == |state.transactions| + 1 && r.transactions[1..] == state.transactions
    ensures r.transactions[0].id == id
    ensures var t := r.transactions[0];
            && t.kind == input.kind && t.amount == input.amount && t.accountId == input.accountId
            && t.toAccountId == input.toAccountId && t.categoryId == input.categoryId
            && t.subcategoryId == input.subcategoryId && t.notes == input.notes && t.date == input.date
    ensures |r.accounts| == |state.accounts|
    ensures forall k :: 0 <= k < |state.accounts| ==>
              r.accounts[k] == state.accounts[k].(balance := state.accounts[k].balance
                                                  + Delta(state.accounts, NewTransaction(id, input), k))
    ensures r.categories == state.categories && r.subcategories == state.subcategories
    ensures r.currency == state.currency
  {
    Reduce(state, AddTransaction(NewTransaction(id, input)))
  }

  /** No two elements of `xs` are equal. */
  ghost predicate Distinct<T>(xs: seq<T>) {
    forall i, j :: 0 <= i < j < |xs| ==> xs[i] != xs[j]
  }

  function AccountIds(accounts: seq<Account>): seq<string> {
    Seqs.Map(accounts, (a: Account) => a.id)
  }

  function CategoryIds(categories: seq<Category>): seq<string> {
    Seqs.Map(categories, (c: Category) => c.id)
  }

  function SubcategoryIds(subcategories: seq<Subcategory>): seq<string> {
    Seqs.Map(subcategories, (s: Subcategory) => s.id)
  }

  function TransactionIds(transactions: seq<Transaction>): seq<string> {
    Seqs.Map(transactions, (t: Transaction) => t.id)
  }

  /** Within each kind of entity, ids are pairwise distinct. */
  ghost predicate UniqueIds(state: FinanceState) {
    && Distinct(AccountIds(state.accounts))
    && Distinct(CategoryIds(state.categories))
    && Distinct(SubcategoryIds(state.subcategories))
    && Distinct(TransactionIds(state.transactions))
  }

  lemma SeedHasUniqueIds()
    ensures UniqueIds(DefaultState)
  {
    var s := DefaultState;
    assert AccountIds(s.accounts) == ["wallet", "savings"];
    assert CategoryIds(s.categories) == ["salary", "freelance", "food", "bills"];
    assert SubcategoryIds(s.subcategories)
        == ["food-groceries", "food-restaurants", "bills-electricity", "bills-emi"];
  }

  /** Creating an account under an id no account carries keeps ids unique,
      and the new account is the one that id now resolves to. */
  lemma CreateAccountKeepsIdsUnique(state: FinanceState, id: string, name: string)
    requires UniqueIds(state) && !Resolves(state.accounts, id)
    ensures UniqueIds(CreateAccount(state, id, name))
    ensures IsFirstMatch(CreateAccount(state, id, name).accounts, |state.accounts|, id)
  {
    var r := CreateAccount(state, id, name);
    assert AccountIds(r.accounts) == AccountIds(state.accounts) + [id];
  }

  lemma CreateCategoryKeepsIdsUnique(state: FinanceState, id: string, name: string, kind: CategoryType)
    requires UniqueIds(state) && id !in CategoryIds(state.categories)
    ensures UniqueIds(CreateCategory(state, id, name, kind))
  {
    var r := CreateCategory(state, id, name, kind);
    assert CategoryIds(r.categories) == CategoryIds(state.categories) + [id];
  }

  lemma CreateSubcategoryKeepsIdsUnique(state: FinanceState, id: string, categoryId: string, name: string)
    requires UniqueIds(state) && id !in SubcategoryIds(state.subcategories)
    ensures UniqueIds(CreateSubcategory(state, id, categoryId, name))
  {
    var r := CreateSubcategory(state, id, categoryId, name);
    assert SubcategoryIds(r.subcategories) == SubcategoryIds(state.subcategories) + [id];
  }

  lemma RecordTransactionKeepsIdsUnique(state: FinanceState, id: string, input: TransactionInput)
    requires UniqueIds(state) && id !in TransactionIds(state.transactions)
    ensures UniqueIds(RecordTransaction(state, id, input))
  {
    var r := RecordTransaction(state, id, input);
    assert AccountIds(r.accounts) == AccountIds(state.accounts);
    assert TransactionIds(r.transactions) == [id] + TransactionIds(state.transactions);
  }
}

/** The ledger's entities and its built-in seed state. Money is modelled as
    unbounded integers; ids, names, currency codes, colours and dates are
    strings. */
module FinanceTypes {
  import opened Wrappers

  datatype TxType = Income | Expense | Transfer

  /** A category is an income or an expense category, never a transfer one. */
  type CategoryType = t: TxType | !t.Transfer? witness Income

  datatype Account = Account(id: string, name: string, currency: string, balance: int)

  datatype Category = Category(id: string, name: string, kind: CategoryType, color: string)

  datatype Subcategory = Subcategory(id: string, categoryId: string, name: string)

  /** A recorded transaction. The optional references are absent (`None`)
      when the record carries no such key. */
  datatype Transaction = Transaction(
    id: string,
    kind: TxType,
    amount: int,
    accountId: string,
    toAccountId: Option<string>,
    categoryId: Option<string>,
    subcategoryId: Option<string>,
    notes: Option<string>,
    date: string)

  /** What a caller supplies to record a transaction: everything but the id. */
  datatype TransactionInput = TransactionInput(
    kind: TxType,
    amount: int,
    accountId: string,
    toAccountId: Option<string>,
    categoryId: Option<string>,
    subcategoryId: Option<string>,
    notes: Option<string>,
    date: string)

  /** Transactions are kept most recent first. */
  datatype FinanceState = FinanceState(
    accounts: seq<Account>,
    categories: seq<Category>,
    subcategories: seq<Subcategory>,
    transactions: seq<Transaction>,
    currency: string)

  const DefaultCurrency: string := "INR"

  /** The seed state used on first start and whenever nothing usable is stored. */
  const DefaultState: FinanceState := FinanceState(
    [ Account("wallet", "Wallet", "INR", 8500),
      Account("savings", "Savings", "INR", 42000) ],
    [ Category("salary", "Salary", Income, "#22c55e"),
      Category("freelance", "Freelance", Income, "#0ea5e9"),
      Category("food", "Food & Dining", Expense, "#f97316"),
      Category("bills", "Bills & Utilities", Expense, "#a855f7") ],
    [ Subcategory("food-groceries", "food", "Groceries"),
      Subcategory("food-restaurants", "food", "Restaurants"),
      Subcategory("bills-electricity", "bills", "Electricity"),
      Subcategory("bills-emi", "bills", "EMI") ],
    [],
    DefaultCurrency)

  /** The first account carrying `id`, as `Array.prototype.find` returns it.
      This is `IsFirstKeyed` for accounts keyed by id, written out on its own
      so that the balance logic's quantifiers trigger on `accounts[j].id`
      rather than on an applied lambda. */
  predicate IsFirstMatch(accounts: seq<Account>, k: int, id: string) {
    && 0 <= k < |accounts|
    && accounts[k].id == id
    && forall j :: 0 <= j < k ==> accounts[j].id != id
  }

  /** Some account carries `id`. */
  predicate Resolves(accounts: seq<Account>, id: string) {
    exists k :: 0 <= k < |accounts| && accounts[k].id == id
  }

  /** Index of the first account whose id is `id`, if any. */
  function FindAccount(accounts: seq<Account>, id: string): (r: Option<nat>)
    ensures r.Some? <==> Resolves(accounts, id)
    ensures r.Some? ==> IsFirstMatch(accounts, r.value, id)
  {
    if |accounts| == 0 then None
    else if accounts[0].id == id then Some(0)
    else match FindAccount(accounts[1..], id)
      case None => None
      case Some(k) => Some(k + 1)
  }

  /** The name of the first account carrying `id`, or "" (`find(...)?.name ?? ""`).
      Defined through `FindAccount` rather than `NameOfFirst`, so that its
      contract speaks the same `IsFirstMatch`/`Resolves` terms as `Ledger.Delta`. */
  function AccountName(accounts: seq<Account>, id: string): (r: string)
    ensures Resolves(accounts, id) ==> exists k :: IsFirstMatch(accounts, k, id) && r == accounts[k].name
    ensures !Resolves(accounts, id) ==> r == ""
  {
    match FindAccount(accounts, id)
    case Some(k) => accounts[k].name
    case None => ""
  }

  /** `xs[k]` is the first element whose key is `id`. */
  predicate IsFirstKeyed<T>(xs: seq<T>, key: T -> string, k: int, id: string) {
    && 0 <= k < |xs|
    && key(xs[k]) == id
    && forall j :: 0 <= j < k ==> key(xs[j]) != id
  }

  /** The name of the first element whose key is `id`, or "" when there is
      none: `find((x) => x.id === id)?.name ?? ""` over categories or
      subcategories. */
  function NameOfFirst<T>(xs: seq<T>, key: T -> string, name: T -> string, id: string): (r: string)
    ensures (forall k :: 0 <= k < |xs| ==> key(xs[k]) != id) ==> r == ""
    ensures forall k :: IsFirstKeyed(xs, key, k, id) ==> r == name(xs[k])
    decreases |xs|
  {
    if |xs| == 0 then ""
    else if key(xs[0]) == id then name(xs[0])
    else
      var r := NameOfFirst(xs[1..], key, name, id);
      assert forall k :: IsFirstKeyed(xs, key, k, id) ==> k > 0 && IsFirstKeyed(xs[1..], key, k - 1, id);
      r
  }

  function CategoryName(categories: seq<Category>, id: string): string {
    NameOfFirst(categories, (c: Category) => c.id, (c: Category) => c.name, id)
  }

  function SubcategoryName(subcategories: seq<Subcategory>, id: string): string {
    NameOfFirst(subcategories, (s: Subcategory) => s.id, (s: Subcategory) => s.name, id)
  }
}

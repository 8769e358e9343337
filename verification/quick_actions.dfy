/** The quick-entry forms: their field transitions, the guards that decide
    whether anything is dispatched, and how the transaction form's text
    fields become a transaction input. */
module QuickActions {
  import opened Wrappers
  import opened FinanceTypes
  import Seqs
  import Text
  import Intents
  import Ledger

  /** The transaction form; every field is the raw text of its control. */
  datatype TxForm = TxForm(
    kind: TxType,
    amount: string,
    date: string,
    accountId: string,
    toAccountId: string,
    categoryId: string,
    subcategoryId: string,
    notes: string)

  /** The form after start-up or a submit: an empty income entry on
      `today`, keeping the chosen account. */
  function InitialForm(accountId: string, today: string): TxForm {
    TxForm(Income, "", today, accountId, "", "", "", "")
  }

  /** `s || undefined`: the empty string becomes absent. */
  function NonEmpty(s: string): (r: Option<string>)
    ensures r.None? <==> s == ""
    ensures r.Some? ==> r.value == s
  {
    if s == "" then None else Some(s)
  }

  /** Choosing a transaction type clears the category, subcategory and
      target account; the other fields are kept. */
  function SelectType(form: TxForm, kind: TxType): (r: TxForm)
    ensures r.kind == kind
    ensures r.categoryId == "" && r.subcategoryId == "" && r.toAccountId == ""
    ensures r.amount == form.amount && r.date == form.date
    ensures r.accountId == form.accountId && r.notes == form.notes
  {
    form.(kind := kind, categoryId := "", subcategoryId := "", toAccountId := "")
  }

  /** Choosing a category clears the subcategory; the other fields are kept. */
  function SelectCategory(form: TxForm, categoryId: string): (r: TxForm)
    ensures r.categoryId == categoryId && r.subcategoryId == ""
    ensures r.kind == form.kind && r.amount == form.amount && r.date == form.date
    ensures r.accountId == form.accountId && r.toAccountId == form.toAccountId && r.notes == form.notes
  {
    form.(categoryId := categoryId, subcategoryId := "")
  }

  /** The subcategories offered for the selected category, in order. */
  function AvailableSubcategories(subcategories: seq<Subcategory>, form: TxForm): (r: seq<Subcategory>)
    ensures Seqs.IsSubsequence(r, subcategories)
    ensures forall s :: multiset(r)[s] == if s.categoryId == form.categoryId then multiset(subcategories)[s] else 0
    ensures forall s :: s in r <==> s in subcategories && s.categoryId == form.categoryId
  {
    Seqs.Filter(subcategories, (s: Subcategory) => s.categoryId == form.categoryId)
  }

  /** The outcome of a submit: what was dispatched, if anything, and the form afterwards. */
  datatype TxSubmission = TxSubmission(payload: Option<TransactionInput>, form: TxForm)

  /** Submitting the transaction form. Nothing is dispatched while the
      amount, date or account is empty. Otherwise the payload carries the
      target only for transfers and the category and subcategory only for
      income and expense, each only when non-empty, and notes only when
      non-empty; the form then resets, keeping the account. `amount` is the
      numeric reading of the amount text. */
  function SubmitTransaction(form: TxForm, amount: int, today: string): (r: TxSubmission)
    ensures r.payload.None? <==> form.amount == "" || form.date == "" || form.accountId == ""
    ensures r.payload.None? ==> r.form == form
    ensures r.payload.Some? ==>
              var p := r.payload.value;
              && p.kind == form.kind && p.amount == amount
              && p.date == form.date && p.accountId == form.accountId
              && (p.toAccountId.Some? <==> form.kind == Transfer && form.toAccountId != "")
              && (p.toAccountId.Some? ==> p.toAccountId.value == form.toAccountId)
              && (p.categoryId.Some? <==> form.kind != Transfer && form.categoryId != "")
              && (p.categoryId.Some? ==> p.categoryId.value == form.categoryId)
              && (p.subcategoryId.Some? <==> form.kind != Transfer && form.subcategoryId != "")
              && (p.subcategoryId.Some? ==> p.subcategoryId.value == form.subcategoryId)
              && (p.notes.Some? <==> form.notes != "")
              && (p.notes.Some? ==> p.notes.value == form.notes)
    ensures r.payload.Some? ==> r.form == InitialForm(form.accountId, today)
  {
    if form.amount == "" || form.date == "" || form.accountId == "" then
      TxSubmission(None, form)
    else
      var payload := TransactionInput(
        form.kind,
        amount,
        form.accountId,
        if form.kind == Transfer then NonEmpty(form.toAccountId) else None,
        if form.kind != Transfer then NonEmpty(form.categoryId) else None,
        if form.kind != Transfer && form.subcategoryId != "" then Some(form.subcategoryId) else None,
        NonEmpty(form.notes),
        form.date);
      TxSubmission(Some(payload), InitialForm(form.accountId, today))
  }

  /** Right after a type change a submit carries no category, subcategory
      or target account, whatever was selected before. */
  lemma TypeChangeClearsReferences(form: TxForm, kind: TxType, amount: int, today: string)
    ensures var r := SubmitTransaction(SelectType(form, kind), amount, today);
            r.payload.Some? ==>
              r.payload.value.categoryId.None? && r.payload.value.subcategoryId.None?
              && r.payload.value.toAccountId.None?
  {
  }

  /** Right after a category change a submit carries no subcategory. */
  lemma CategoryChangeClearsSubcategory(form: TxForm, categoryId: string, amount: int, today: string)
    ensures var r := SubmitTransaction(SelectCategory(form, categoryId), amount, today);
            r.payload.Some? ==> r.payload.value.subcategoryId.None?
  {
  }

  /** The outcome of a name-only submit: the trimmed name dispatched, if
      any, and the name field afterwards. */
  datatype NameSubmission = NameSubmission(name: Option<string>, field: string)

  /** Submitting a name field: a blank name dispatches nothing and keeps the
      field; otherwise the trimmed name is dispatched and the field cleared. */
  function SubmitName(field: string): (r: NameSubmission)
    ensures r.name.None? <==> Text.IsBlank(field)
    ensures r.name.None? ==> r.field == field
    ensures r.name.Some? ==>
              && r.name.value == Text.Trim(field) && r.field == ""
              && |r.name.value| > 0
              && !Text.IsWhitespace(r.name.value[0])
              && !Text.IsWhitespace(r.name.value[|r.name.value| - 1])
  {
    var name := Text.Trim(field);
    if name == "" then NameSubmission(None, field) else NameSubmission(Some(name), "")
  }

  /** The category form: a non-blank name adds one category named by the
      trimmed name, coloured by its type; a blank one leaves the ledger as it
      was. */
  function SubmitCategoryForm(state: FinanceState, id: string, field: string, kind: CategoryType): (r: (FinanceState, string))
    ensures Text.IsBlank(field) ==> r == (state, field)
    ensures !Text.IsBlank(field) ==>
              && r.1 == ""
              && Ledger.AppendsOne(state.categories, r.0.categories,
                                   Category(id, Text.Trim(field), kind, if kind == Income then "#22c55e" else "#f97316"))
              && r.0.accounts == state.accounts && r.0.subcategories == state.subcategories
              && r.0.transactions == state.transactions && r.0.currency == state.currency
  {
    var s := SubmitName(field);
    match s.name
    case None => (state, s.field)
    case Some(name) => (Intents.CreateCategory(state, id, name, kind), s.field)
  }

  /** The account form: a non-blank name adds one empty INR account named by
      the trimmed name; a blank one leaves the ledger as it was. */
  function SubmitAccountForm(state: FinanceState, id: string, field: string): (r: (FinanceState, string))
    ensures Text.IsBlank(field) ==> r == (state, field)
    ensures !Text.IsBlank(field) ==>
              && r.1 == ""
              && |r.0.accounts| == |state.accounts| + 1
              && r.0.accounts[..|state.accounts|] == state.accounts
              && r.0.accounts[|state.accounts|] == Account(id, Text.Trim(field), "INR", 0)
              && r.0.categories == state.categories && r.0.subcategories == state.subcategories
              && r.0.transactions == state.transactions && r.0.currency == state.currency
  {
    var s := SubmitName(field);
    match s.name
    case None => (state, s.field)
    case Some(name) => (Intents.CreateAccount(state, id, name), s.field)
  }

  /** The subcategory form: both a parent category and a non-blank name are
      needed; then one subcategory with the trimmed name is added under the
      selected parent and the name field is cleared (the parent stays). */
  function SubmitSubcategoryForm(state: FinanceState, id: string, parentId: string, field: string): (r: (FinanceState, string))
    ensures parentId == "" || Text.IsBlank(field) ==> r == (state, field)
    ensures parentId != "" && !Text.IsBlank(field) ==>
              && r.1 == ""
              && |r.0.subcategories| == |state.subcategories| + 1
              && r.0.subcategories[..|state.subcategories|] == state.subcategories
              && r.0.subcategories[|state.subcategories|] == Subcategory(id, parentId, Text.Trim(field))
              && r.0.accounts == state.accounts && r.0.categories == state.categories
              && r.0.transactions == state.transactions && r.0.currency == state.currency
  {
    if parentId == "" then (state, field)
    else
      var s := SubmitName(field);
      match s.name
      case None => (state, s.field)
      case Some(name) => (Intents.CreateSubcategory(state, id, parentId, name), s.field)
  }

  /** The transaction form end to end: a blocked submit leaves the ledger
      alone; an accepted one records exactly one transaction, first in the
      history, under the given id and built from the normalised payload,
      applies its balance effect, and leaves categories, subcategories and
      currency alone. */
  function SubmitTransactionForm(state: FinanceState, id: string, form: TxForm, amount: int, today: string): (r: (FinanceState, TxForm))
    ensures form.amount == "" || form.date == "" || form.accountId == "" ==> r == (state, form)
    ensures !(form.amount == "" || form.date == "" || form.accountId == "") ==>
              && |r.0.transactions| == |state.transactions| + 1
              && r.0.transactions[1..] == state.transactions
              && r.0.transactions[0] == Intents.NewTransaction(id, SubmitTransaction(form, amount, today).payload.value)
              && r.0.transactions[0].id == id
              && r.0.transactions[0].accountId == form.accountId
              && r.0.transactions[0].amount == amount
              && |r.0.accounts| == |state.accounts|
              && (forall k :: 0 <= k < |state.accounts| ==>
                    r.0.accounts[k] == state.accounts[k].(balance := state.accounts[k].balance
                                                          + Ledger.Delta(state.accounts, r.0.transactions[0], k)))
              && r.0.categories == state.categories && r.0.subcategories == state.subcategories
              && r.0.currency == state.currency
              && r.1 == InitialForm(form.accountId, today)
  {
    var s := SubmitTransaction(form, amount, today);
    match s.payload
    case None => (state, s.form)
    case Some(p) => (Intents.RecordTransaction(state, id, p), s.form)
  }
}

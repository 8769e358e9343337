/** The transaction timeline: a type filter plus a free-text search over
    the names a transaction refers to, and the signed amount shown per row. */
module TransactionsTable {
  import opened Wrappers
  import opened FinanceTypes
  import Seqs
  import Text
  import Ledger

  datatype TypeFilter = All | Only(kind: TxType)

  /** The name of the category `id` refers to, or "" when it is absent or unresolved. */
  function CategoryLabel(categories: seq<Category>, id: Option<string>): string {
    match id
    case Some(c) => CategoryName(categories, c)
    case None => ""
  }

  /** The name of the subcategory `id` refers to, or "" when it is absent or unresolved. */
  function SubcategoryLabel(subcategories: seq<Subcategory>, id: Option<string>): string {
    match id
    case Some(s) => SubcategoryName(subcategories, s)
    case None => ""
  }

  /** The name of the transfer target, or "" when there is no non-empty
      target id or it does not resolve. */
  function TargetLabel(accounts: seq<Account>, tx: Transaction): string {
    match Ledger.TargetId(tx)
    case Some(t) => AccountName(accounts, t)
    case None => ""
  }

  /** The searched text: account, category, subcategory, notes and target
      names joined by single spaces. */
  function Haystack(state: FinanceState, tx: Transaction): string {
    AccountName(state.accounts, tx.accountId)
    + " " + CategoryLabel(state.categories, tx.categoryId)
    + " " + SubcategoryLabel(state.subcategories, tx.subcategoryId)
    + " " + tx.notes.GetOr("")
    + " " + TargetLabel(state.accounts, tx)
  }

  /** A transaction passes the type filter. */
  predicate TypeMatches(filter: TypeFilter, tx: Transaction) {
    filter.All? || tx.kind == filter.kind
  }

  /** The row predicate: the type must match, and a query that is not blank
      after trimming must occur, case-folded but untrimmed, in the
      case-folded haystack. */
  predicate Keep(state: FinanceState, filter: TypeFilter, query: string, tx: Transaction) {
    && TypeMatches(filter, tx)
    && (|Text.Trim(query)| == 0 || Text.Contains(Text.ToLower(Haystack(state, tx)), Text.ToLower(query)))
  }

  /** The rows shown: the transactions that pass `Keep`, in history order,
      as an order-preserving subsequence of the history. */
  function Filtered(state: FinanceState, filter: TypeFilter, query: string): (r: seq<Transaction>)
    ensures Seqs.IsSubsequence(r, state.transactions)
    ensures forall tx :: multiset(r)[tx] == if Keep(state, filter, query, tx) then multiset(state.transactions)[tx] else 0
    ensures forall tx :: tx in r <==> tx in state.transactions && Keep(state, filter, query, tx)
  {
    Seqs.Filter(state.transactions, tx => Keep(state, filter, query, tx))
  }

  /** With no type filter and a blank query every transaction is shown, in order. */
  lemma UnfilteredShowsAll(state: FinanceState, query: string)
    requires Text.IsBlank(query)
    ensures Filtered(state, All, query) == state.transactions
  {
    Seqs.FilterAll(state.transactions, tx => Keep(state, All, query, tx));
  }

  /** With a type filter only transactions of that type are shown. */
  lemma TypeFilterKeepsType(state: FinanceState, kind: TxType, query: string)
    ensures forall tx :: tx in Filtered(state, Only(kind), query) ==> tx.kind == kind
  {
  }

  /** With a non-blank query a transaction is shown exactly when its type
      matches and its case-folded haystack contains the case-folded query. */
  lemma SearchSemantics(state: FinanceState, filter: TypeFilter, query: string, tx: Transaction)
    requires !Text.IsBlank(query) && tx in state.transactions
    ensures (tx in Filtered(state, filter, query))
              <==> (TypeMatches(filter, tx) && Text.Contains(Text.ToLower(Haystack(state, tx)), Text.ToLower(query)))
  {
  }

  /** Searching for part of the source account's name finds the transaction. */
  lemma SearchFindsAccountName(state: FinanceState, filter: TypeFilter, query: string, tx: Transaction)
    requires tx in state.transactions && TypeMatches(filter, tx)
    requires Text.Contains(Text.ToLower(AccountName(state.accounts, tx.accountId)), Text.ToLower(query))
    ensures tx in Filtered(state, filter, query)
  {
    var name := AccountName(state.accounts, tx.accountId);
    var c := CategoryLabel(state.categories, tx.categoryId);
    var s := SubcategoryLabel(state.subcategories, tx.subcategoryId);
    var n := tx.notes.GetOr("");
    var t := TargetLabel(state.accounts, tx);
    var rest := " " + c + " " + s + " " + n + " " + t;
    Text.JoinHead(name, c, s, n, t);
    assert Haystack(state, tx) == name + rest;
    Text.ToLowerConcat(name, rest);
    Text.ContainsPrefixPart(Text.ToLower(name), Text.ToLower(rest), Text.ToLower(query));
    assert Keep(state, filter, query, tx);
  }

  /** Searching for part of the notes finds the transaction. */
  lemma SearchFindsNotes(state: FinanceState, filter: TypeFilter, query: string, tx: Transaction)
    requires tx in state.transactions && TypeMatches(filter, tx) && tx.notes.Some?
    requires Text.Contains(Text.ToLower(tx.notes.value), Text.ToLower(query))
    ensures tx in Filtered(state, filter, query)
  {
    var pre := AccountName(state.accounts, tx.accountId)
      + " " + CategoryLabel(state.categories, tx.categoryId)
      + " " + SubcategoryLabel(state.subcategories, tx.subcategoryId)
      + " ";
    var post := " " + TargetLabel(state.accounts, tx);
    var notes := tx.notes.value;
    assert Haystack(state, tx) == pre + notes + post;
    Text.ToLowerConcat(pre, notes);
    Text.ToLowerConcat(pre + notes, post);
    Text.ContainsInfix(Text.ToLower(pre), Text.ToLower(notes), Text.ToLower(post), Text.ToLower(query));
    assert Keep(state, filter, query, tx);
  }

  /** A transaction none of whose references resolve, whether absent,
      empty or naming nothing, is searched only by its notes. */
  lemma UnresolvedHaystack(state: FinanceState, tx: Transaction)
    requires !Resolves(state.accounts, tx.accountId)
    requires tx.categoryId.None?
             || forall k :: 0 <= k < |state.categories| ==> state.categories[k].id != tx.categoryId.value
    requires tx.subcategoryId.None?
             || forall k :: 0 <= k < |state.subcategories| ==> state.subcategories[k].id != tx.subcategoryId.value
    requires Ledger.TargetId(tx).None? || !Resolves(state.accounts, Ledger.TargetId(tx).value)
    ensures Haystack(state, tx) == "   " + tx.notes.GetOr("") + " "
  {
  }

  /** The amount shown in a row: negative for expenses, positive otherwise. */
  function DisplayAmount(tx: Transaction): int {
    if tx.kind == Expense then -tx.amount else tx.amount
  }

  /** For income and expense the shown amount is exactly the change the
      transaction made to its resolved source account; for a transfer it is
      the change made to a resolved target. */
  lemma DisplayAmountIsBalanceEffect(accounts: seq<Account>, tx: Transaction, k: nat)
    requires IsFirstMatch(accounts, k, tx.accountId)
    ensures !tx.kind.Transfer? ==> Ledger.Delta(accounts, tx, k) == DisplayAmount(tx)
    ensures tx.kind.Transfer? && Ledger.TargetId(tx).Some? ==>
              forall t :: IsFirstMatch(accounts, t, Ledger.TargetId(tx).value) && t != k ==>
                Ledger.Delta(accounts, tx, t) == DisplayAmount(tx)
  {
  }
}

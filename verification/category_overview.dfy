/** The category hierarchy view: each category id mapped to the category's
    name and type and the names of its subcategories. */
module CategoryOverview {
  import opened FinanceTypes
  import Seqs

  datatype Entry = Entry(name: string, kind: CategoryType, children: seq<string>)

  /** The subcategories whose parent id is `id`, in subcategory order, each
      as often as it occurs among the subcategories. */
  function ChildrenOf(subcategories: seq<Subcategory>, id: string): (r: seq<Subcategory>)
    ensures Seqs.IsSubsequence(r, subcategories)
    ensures forall s :: multiset(r)[s] == if s.categoryId == id then multiset(subcategories)[s] else 0
    ensures forall s :: s in r <==> s in subcategories && s.categoryId == id
  {
    Seqs.Filter(subcategories, (s: Subcategory) => s.categoryId == id)
  }

  function EntryFor(category: Category, subcategories: seq<Subcategory>): Entry {
    Entry(category.name, category.kind,
          Seqs.Map(ChildrenOf(subcategories, category.id), (s: Subcategory) => s.name))
  }

  /** `categories[k]` is the last category carrying its id. */
  predicate IsLastWithId(categories: seq<Category>, k: int) {
    && 0 <= k < |categories|
    && forall j :: k < j < |categories| ==> categories[j].id != categories[k].id
  }

  /** The `grouped` record, built by folding over the categories in order,
      each category setting the entry under its id; its keys are exactly
      the category ids. */
  function Group(categories: seq<Category>, subcategories: seq<Subcategory>): (r: map<string, Entry>)
    ensures r.Keys == set c | c in categories :: c.id
    decreases |categories|
  {
    if |categories| == 0 then map[]
    else
      var init := categories[..|categories| - 1];
      var last := categories[|categories| - 1];
      assert forall c :: c in categories <==> c in init || c == last;
      Group(init, subcategories)[last.id := EntryFor(last, subcategories)]
  }

  /** A later category with a duplicate id overwrites the earlier entry: the
      entry under an id is the one built from the last category carrying it. */
  lemma {:induction false} GroupLastWins(categories: seq<Category>, subcategories: seq<Subcategory>, k: int)
    requires IsLastWithId(categories, k)
    ensures Group(categories, subcategories)[categories[k].id] == EntryFor(categories[k], subcategories)
    decreases |categories|
  {
    var n := |categories| - 1;
    var init := categories[..n];
    GroupSnoc(categories, subcategories);
    if k < n {
      assert IsLastWithId(init, k) && init[k] == categories[k];
      GroupLastWins(init, subcategories, k);
    }
  }

  /** One unfolding of `Group`: the last category sets the entry under its id. */
  lemma GroupSnoc(categories: seq<Category>, subcategories: seq<Subcategory>)
    requires |categories| > 0
    ensures var n := |categories| - 1;
            Group(categories, subcategories)
              == Group(categories[..n], subcategories)[categories[n].id := EntryFor(categories[n], subcategories)]
  {
  }

  /** Every entry's children are the names of exactly the subcategories
      pointing at that entry's id, in subcategory order; no subcategory of
      another parent contributes. */
  lemma GroupChildren(categories: seq<Category>, subcategories: seq<Subcategory>, id: string)
    requires id in Group(categories, subcategories)
    ensures Group(categories, subcategories)[id].children
              == Seqs.Map(ChildrenOf(subcategories, id), (s: Subcategory) => s.name)
    ensures Seqs.IsSubsequence(ChildrenOf(subcategories, id), subcategories)
    ensures forall s :: multiset(ChildrenOf(subcategories, id))[s]
                          == if s.categoryId == id then multiset(subcategories)[s] else 0
  {
    var k := LastIndexWithId(categories, id);
    GroupLastWins(categories, subcategories, k);
  }

  /** The position of the last category carrying `id`. */
  lemma LastIndexWithId(categories: seq<Category>, id: string) returns (k: nat)
    requires exists c :: c in categories && c.id == id
    ensures IsLastWithId(categories, k) && categories[k].id == id
    decreases |categories|
  {
    var last := categories[|categories| - 1];
    if last.id == id {
      k := |categories| - 1;
    } else {
      var init := categories[..|categories| - 1];
      var c :| c in categories && c.id == id;
      assert c in init;
      k := LastIndexWithId(init, id);
    }
  }

  /** A subcategory whose parent id names no category is listed under no entry. */
  lemma OrphanNotListed(categories: seq<Category>, subcategories: seq<Subcategory>, s: Subcategory)
    requires s in subcategories
    requires forall c :: c in categories ==> c.id != s.categoryId
    ensures forall id :: id in Group(categories, subcategories) ==> s !in ChildrenOf(subcategories, id)
  {
  }

  /** With distinct ids every category has its own entry, carrying its name and type. */
  lemma DistinctIdsEachListed(categories: seq<Category>, subcategories: seq<Subcategory>)
    requires forall i, j :: 0 <= i < j < |categories| ==> categories[i].id != categories[j].id
    ensures forall k :: 0 <= k < |categories| ==>
              && categories[k].id in Group(categories, subcategories)
              && Group(categories, subcategories)[categories[k].id].name == categories[k].name
              && Group(categories, subcategories)[categories[k].id].kind == categories[k].kind
  {
    forall k | 0 <= k < |categories|
      ensures IsLastWithId(categories, k)
    {
    }
    forall k | 0 <= k < |categories|
      ensures Group(categories, subcategories)[categories[k].id] == EntryFor(categories[k], subcategories)
    {
      GroupLastWins(categories, subcategories, k);
    }
  }

  /** With no categories there is nothing to show. */
  lemma NoCategoriesNoEntries(subcategories: seq<Subcategory>)
    ensures Group([], subcategories) == map[]
  {
  }
}

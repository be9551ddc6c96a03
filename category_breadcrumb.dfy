/**
 * The storefront's category breadcrumb: "Products", then the category's ancestors from the root down,
 * then the category itself, with a ">" between neighbours. Ancestors are found by looking up each
 * `parent_category_id` in the list of all categories, until one is not found.
 */
module CategoryBreadcrumb {
  import opened Wrappers

  const StoreHref := "/store"
  const BaseTitle := "Products"

  datatype Category = Category(id: string, name: string, handle: Option<string>, parentId: Option<string>)

  /** One list entry: a linked title, or the ">" between two of them. */
  datatype Crumb = Item(title: string, href: string) | Separator

  /** A category's link: its page when it has a handle, the store otherwise. */
  function Href(handle: Option<string>): (r: string)
    ensures Truthy(handle) ==> r == "/categories/" + handle.value
    ensures !Truthy(handle) ==> r == StoreHref
  {
    if Truthy(handle) then "/categories/" + handle.value else StoreHref
  }

  function ItemOf(c: Category): Crumb {
    Item(c.name, Href(c.handle))
  }

  /** The first category whose id is `id`; a missing parent id matches none. */
  function Find(categories: seq<Category>, id: Option<string>): (r: Option<Category>)
    ensures r.Some? ==> r.value in categories && id == Some(r.value.id)
    ensures r.Some? ==>
      exists k :: 0 <= k < |categories| && categories[k] == r.value && forall j :: 0 <= j < k ==> categories[j].id != id.value
    ensures r.None? ==> id.None? || forall c :: c in categories ==> c.id != id.value
  {
    if id.None? || categories == [] then None
    else if categories[0].id == id.value then Some(categories[0])
    else Find(categories[1..], id)
  }

  /** The walk of parent lookups from `cur` stops within `fuel` steps: the chain has no cycle. */
  predicate Ends(categories: seq<Category>, cur: Option<Category>, fuel: nat)
    decreases fuel
  {
    cur.None? || (fuel > 0 && Ends(categories, Find(categories, cur.value.parentId), fuel - 1))
  }

  /** `cur` and the ancestors the walk finds from it, nearest first. */
  function Chain(categories: seq<Category>, cur: Option<Category>, fuel: nat): (r: seq<Category>)
    requires Ends(categories, cur, fuel)
    ensures |r| <= fuel
    ensures cur.None? <==> r == []
    ensures forall c :: c in r ==> c in categories || Some(c) == cur
    decreases fuel
  {
    if cur.None? then [] else [cur.value] + Chain(categories, Find(categories, cur.value.parentId), fuel - 1)
  }

  /** The entries for a chain listed nearest first: farthest first, each followed by a separator. */
  function Crumbs(chain: seq<Category>): (r: seq<Crumb>)
    ensures |r| == 2 * |chain|
  {
    if chain == [] then [] else Crumbs(chain[1..]) + [ItemOf(chain[0]), Separator]
  }

  /** The breadcrumb of `category`: the base entry, the ancestors root first, the category. */
  function Breadcrumbs(categories: seq<Category>, category: Category): (r: seq<Crumb>)
    requires Ends(categories, Find(categories, category.parentId), |categories|)
    ensures |r| == 3 + 2 * |Chain(categories, Find(categories, category.parentId), |categories|)|
    ensures r[0] == Item(BaseTitle, StoreHref) && r[1] == Separator && r[|r| - 1] == ItemOf(category)
  {
    [Item(BaseTitle, StoreHref), Separator] + Crumbs(Chain(categories, Find(categories, category.parentId), |categories|)) + [ItemOf(category)]
  }

  /** Items and separators alternate: even positions hold items, odd positions separators. */
  lemma {:induction false} CrumbsAlternate(chain: seq<Category>)
    ensures forall i :: 0 <= i < |Crumbs(chain)| ==> (Crumbs(chain)[i].Separator? <==> i % 2 == 1)
  {
    if chain != [] {
      CrumbsAlternate(chain[1..]);
    }
  }

  /** The farthest ancestor comes first: position `2j` holds the `j`-th ancestor counted from the root. */
  lemma {:induction false} CrumbsRootFirst(chain: seq<Category>)
    ensures forall j :: 0 <= j < |chain| ==> Crumbs(chain)[2 * j] == ItemOf(chain[|chain| - 1 - j])
  {
    if chain != [] {
      CrumbsRootFirst(chain[1..]);
      var rest := Crumbs(chain[1..]);
      forall j | 0 <= j < |chain| ensures Crumbs(chain)[2 * j] == ItemOf(chain[|chain| - 1 - j]) {
        if j < |chain| - 1 {
          assert Crumbs(chain)[2 * j] == rest[2 * j];
          assert chain[1..][|chain| - 2 - j] == chain[|chain| - 1 - j];
        }
      }
    }
  }

  /**
   * What is left to prepend while walking up from `current` with `fuel` steps left: the crumbs of the rest
   * of the chain, in front of `acc`, give the ancestors' crumbs and the category's item.
   */
  ghost predicate Remaining(categories: seq<Category>, category: Category, current: Option<Category>, fuel: nat, acc: seq<Crumb>) {
    Ends(categories, Find(categories, category.parentId), |categories|) &&
    Ends(categories, current, fuel) &&
    Crumbs(Chain(categories, current, fuel)) + acc ==
      Crumbs(Chain(categories, Find(categories, category.parentId), |categories|)) + [ItemOf(category)]
  }

  /** One step of the walk: `parent`'s item and a separator move from the rest of the chain into `acc`. */
  lemma RemainingStep(categories: seq<Category>, category: Category, parent: Category, fuel: nat, acc: seq<Crumb>)
    requires Remaining(categories, category, Some(parent), fuel, acc)
    ensures fuel > 0 && Remaining(categories, category, Find(categories, parent.parentId), fuel - 1, [ItemOf(parent)] + ([Separator] + acc))
  {
    var rest := Chain(categories, Find(categories, parent.parentId), fuel - 1);
    assert Chain(categories, Some(parent), fuel) == [parent] + rest;
    assert ([parent] + rest)[1..] == rest;
    assert Crumbs([parent] + rest) == Crumbs(rest) + [ItemOf(parent), Separator];
    assert Crumbs(rest) + ([ItemOf(parent)] + ([Separator] + acc)) == Crumbs([parent] + rest) + acc;
  }

  /** At the end of the walk `acc` holds the ancestors and the category; the base entry and a separator complete it. */
  lemma RemainingDone(categories: seq<Category>, category: Category, fuel: nat, acc: seq<Crumb>)
    requires Remaining(categories, category, None, fuel, acc)
    ensures [Item(BaseTitle, StoreHref)] + ([Separator] + acc) == Breadcrumbs(categories, category)
  {
    assert Crumbs(Chain(categories, None, fuel)) == [];
    assert [] + acc == acc;
  }

  /**
   * `generateBreadcrumbs`: starts from the category, puts each ancestor and a separator in front while
   * lookups succeed, then the base entry and its separator. It runs only on chains without a cycle.
   */
  method GenerateBreadcrumbs(categories: seq<Category>, category: Category) returns (breadcrumbs: seq<Crumb>)
    requires Ends(categories, Find(categories, category.parentId), |categories|)
    ensures breadcrumbs == Breadcrumbs(categories, category)
  {
    breadcrumbs := [ItemOf(category)];
    var current := Find(categories, category.parentId);
    ghost var fuel: nat := |categories|;
    assert [] + breadcrumbs == breadcrumbs;
    while current.Some?
      invariant Remaining(categories, category, current, fuel, breadcrumbs)
      decreases fuel
    {
      var parent := current.value;
      RemainingStep(categories, category, parent, fuel, breadcrumbs);
      breadcrumbs := [Separator] + breadcrumbs;
      breadcrumbs := [ItemOf(parent)] + breadcrumbs;
      current := Find(categories, parent.parentId);
      fuel := fuel - 1;
    }
    RemainingDone(categories, category, fuel, breadcrumbs);
    breadcrumbs := [Separator] + breadcrumbs;
    breadcrumbs := [Item(BaseTitle, StoreHref)] + breadcrumbs;
  }
}

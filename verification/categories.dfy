/**
  * `listCategories`: from the flat list of fetched categories, keep the root
  * categories, take their children as the main categories, and give each
  * main category its own children found in the flat list.
  */
module Categories {
  import opened Builtins
  import opened Seqs

  const DefaultLimit: int := 100

  datatype Category = Category(
    id: string,
    name: Option<string>,
    parentId: Option<string>,
    children: Option<seq<Category>>)

  /** `{ parentCategories, categories }` */
  datatype CategoryTree = CategoryTree(parents: seq<Category>, categories: seq<Category>)

  /**
    * The limit sent to the backend. `query?.limit || 100` is spread before
    * `...query`, so a limit present in the query always wins, even a falsy one.
    */
  function SentLimit(queryLimit: Option<int>): (r: int)
    ensures queryLimit.None? ==> r == DefaultLimit
    ensures queryLimit.Some? ==> r == queryLimit.value
  {
    var limit := if queryLimit.Some? && queryLimit.value != 0 then queryLimit.value else DefaultLimit;
    if queryLimit.Some? then queryLimit.value else limit
  }

  /** `!cat.parent_category_id` */
  predicate IsRoot(c: Category) {
    !Truthy(c.parentId)
  }

  /** `cat.parent_category_id === id` */
  predicate IsChildOf(c: Category, id: string) {
    c.parentId == Some(id)
  }

  /** `parentCategories.flatMap(parent => parent.category_children || [])` */
  function MainCategories(parents: seq<Category>): seq<Category> {
    Flatten(seq(|parents|, i requires 0 <= i < |parents| => parents[i].children.GetOr([])))
  }

  /** The fetched categories whose parent is `id`. */
  function ChildrenOf(all: seq<Category>, id: string): seq<Category> {
    Filter(all, (c: Category) => IsChildOf(c, id))
  }

  /** A main category with its children taken from the flat list, when it has any there. */
  function Reattach(main: Category, all: seq<Category>): (r: Category)
    ensures r.id == main.id && r.name == main.name && r.parentId == main.parentId
    ensures ChildrenOf(all, main.id) == [] ==> r == main
    ensures ChildrenOf(all, main.id) != [] ==> r.children == Some(ChildrenOf(all, main.id))
  {
    var children := ChildrenOf(all, main.id);
    if |children| > 0 then main.(children := Some(children)) else main
  }

  /** `listCategories` on the fetched flat list. */
  function ListCategories(all: seq<Category>): (r: CategoryTree)
    ensures forall c :: c in r.parents ==> c in all && IsRoot(c)
    ensures |r.categories| == |MainCategories(r.parents)|
    ensures forall i :: 0 <= i < |r.categories| ==> r.categories[i] == Reattach(MainCategories(r.parents)[i], all)
  {
    var parents := Filter(all, IsRoot);
    var mains := MainCategories(parents);
    CategoryTree(parents, seq(|mains|, i requires 0 <= i < |mains| => Reattach(mains[i], all)))
  }

  /** Every fetched root category is a parent category, and the roots keep their fetched order. */
  lemma ParentsAreAllRoots(a: seq<Category>, b: seq<Category>, c: Category)
    ensures c in a && IsRoot(c) ==> c in ListCategories(a).parents
    ensures ListCategories(a + b).parents == ListCategories(a).parents + ListCategories(b).parents
  {
    if c in a && IsRoot(c) {
      FilterComplete(a, IsRoot, c);
    }
    FilterAppend(a, b, IsRoot);
  }

  /**
    * The main categories are the parents' child lists one after the other, in
    * parent order, a parent without a list contributing nothing.
    */
  lemma {:induction false} MainCategoriesInParentOrder(parents: seq<Category>, more: Category)
    ensures MainCategories(parents + [more]) == MainCategories(parents) + more.children.GetOr([])
  {
    var lists := seq(|parents|, i requires 0 <= i < |parents| => parents[i].children.GetOr([]));
    var all := parents + [more];
    assert seq(|all|, i requires 0 <= i < |all| => all[i].children.GetOr([])) == lists + [more.children.GetOr([])];
    FlattenAppend(lists, [more.children.GetOr([])]);
    assert Flatten([more.children.GetOr([])]) == more.children.GetOr([]) + Flatten([]);
  }

  /** A category is a main category exactly when some parent lists it as a child. */
  lemma MainCategoryMembers(parents: seq<Category>, c: Category)
    ensures c in MainCategories(parents) <==>
              exists i :: 0 <= i < |parents| && c in parents[i].children.GetOr([])
  {
    var lists := seq(|parents|, i requires 0 <= i < |parents| => parents[i].children.GetOr([]));
    FlattenMembers(lists, c);
    if i :| 0 <= i < |parents| && c in parents[i].children.GetOr([]) {
      assert c in lists[i];
    }
  }

  /**
    * Every child attached to a main category is a fetched category whose
    * parent is that main category, and every such fetched category is attached.
    */
  lemma ReattachedChildrenExact(main: Category, all: seq<Category>, c: Category)
    requires ChildrenOf(all, main.id) != []
    ensures c in Reattach(main, all).children.value <==> c in all && c.parentId == Some(main.id)
  {
    if c in all && c.parentId == Some(main.id) {
      FilterComplete(all, (x: Category) => IsChildOf(x, main.id), c);
    }
  }
}

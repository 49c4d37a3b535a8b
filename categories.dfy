/** The categories service: collections of type `custom`, listed page by
    page, looked up by id, assembled into a tree and flattened back. */
module Categories {
  import opened Values
  import opened Strings
  import opened Locale
  import opened Pagination
  import opened Shop

  /** A collection as the Admin API returns it. */
  datatype CollectionNode = CollectionNode(id: string, title: string, handle: string, translations: seq<Keyed>)

  /** The collections part of the shop. */
  datatype CollectionStore = CollectionStore(
    listings: map<ListQuery, seq<Page<CollectionNode>>>,  // `collections(query:)`, by locale and filter
    count: nat,                                           // `collectionsCount.count ?? 0`
    nodes: map<NodeKey, CollectionNode>,                  // `nodes(ids:)`
    idByHandle: map<string, string>,                      // `collectionByHandle(handle).id`
    handleById: map<string, string>)                      // `collection(id).handle`

  /** The record `fetchCategories` builds from a collection node. */
  datatype Category = Category(id: string, name: string, handle: string, parentCategoryId: Option<string>, translations: seq<Keyed>)

  /** A category after `mapCategoryData`. */
  datatype MappedCategory = MappedCategory(id: string, labelText: string, parentId: string)

  /** A node of the category tree; the `children` key is present only
      when the category has children. */
  datatype CategoryNode = CategoryNode(id: string, labelText: string, children: Children)
  datatype Children = NoChildren | Children(nodes: seq<CategoryNode>)

  /** `{ id, labelText }`: a tree node without its children, and a by-ids result. */
  datatype CategoryItem = CategoryItem(id: string, labelText: string)

  const CustomCollections := "collection_type:custom"
  const TitleFilterPrefix := "collection_type:custom AND title:*"

  /** The `query` variable of the listing request: custom collections,
      and with a keyword only those whose title contains it. */
  function CategoryFilter(keyword: Option<string>): (q: string)
    ensures !Truthy(FromOptional(keyword)) <==> q == CustomCollections
    ensures Truthy(FromOptional(keyword)) ==>
      |q| == |TitleFilterPrefix| + |keyword.value| + 1 && q[..|TitleFilterPrefix|] == TitleFilterPrefix &&
      q[|TitleFilterPrefix|..|q| - 1] == keyword.value && q[|q| - 1] == '*'
  {
    if Truthy(FromOptional(keyword)) then TitleFilterPrefix + keyword.value + "*"
    else CustomCollections
  }

  /** Every collection is listed with no parent: Shopify collections are flat. */
  function CategoryRow(node: CollectionNode): (c: Category)
    ensures c.parentCategoryId.None? && c.name == node.title && c.translations == node.translations
    ensures '/' !in c.id && |c.id| <= |node.id| && node.id[|node.id| - |c.id|..] == c.id
  {
    Category(LastSegment(node.id), node.title, node.handle, None, node.translations)
  }

  /** The listing `fetchCategories` walks, as category records. */
  function CategoryPages(store: CollectionStore, cfg: Config, lang: Option<string>, keyword: Option<string>): seq<Page<Category>> {
    MapItems(ListingFor(store.listings, ListQuery(RequestLocale(lang, cfg), Some(CategoryFilter(keyword)))), CategoryRow)
  }

  /** Every page of a category listing holds records without a parent. */
  lemma NoParents(store: CollectionStore, cfg: Config, lang: Option<string>, keyword: Option<string>, k: nat)
    ensures var items := PageAt(CategoryPages(store, cfg, lang, keyword), k).items;
      forall i :: 0 <= i < |items| ==> items[i].parentCategoryId.None?
  {
  }

  /** Full scans of a category listing also only see records without a parent. */
  lemma {:induction false} ScanNoParents(pages: seq<Page<Category>>, k: nat)
    requires forall j, i :: 0 <= j < |pages| && 0 <= i < |pages[j].items| ==> pages[j].items[i].parentCategoryId.None?
    ensures var all := ScanFrom(pages, k); forall i :: 0 <= i < |all| ==> all[i].parentCategoryId.None?
    decreases |pages| - k
  {
    if k < |pages| && pages[k].hasNextPage {
      ScanNoParents(pages, k + 1);
      var all := ScanFrom(pages, k);
      assert all == pages[k].items + ScanFrom(pages, k + 1);
      forall i | 0 <= i < |all| ensures all[i].parentCategoryId.None? {
        if i >= |pages[k].items| {
          assert all[i] == ScanFrom(pages, k + 1)[i - |pages[k].items|];
        }
      }
    }
  }

  /** `mapCategoryData` for one record: the labelText follows the title
      translation rule and a missing parent becomes 'root'. */
  function MapCategory(c: Category, lang: Option<string>): (m: MappedCategory)
    ensures m.id == c.id
    ensures m.labelText == Localize(c.name, c.translations, "title", lang)
    ensures c.parentCategoryId.None? ==> m.parentId == "root"
    ensures c.parentCategoryId.Some? ==> m.parentId == c.parentCategoryId.value
  {
    MappedCategory(c.id, Localize(c.name, c.translations, "title", lang), c.parentCategoryId.GetOr("root"))
  }

  function MapCategoryData(cs: seq<Category>, lang: Option<string>): (ms: seq<MappedCategory>)
    ensures |ms| == |cs|
    ensures forall i :: 0 <= i < |cs| ==> ms[i] == MapCategory(cs[i], lang)
  {
    seq(|cs|, i requires 0 <= i < |cs| => MapCategory(cs[i], lang))
  }

  /** `checkIfEmpty`: the empty string is cast to `undefined` before the truthiness test. */
  function CheckIfEmpty(v: JsValue): (r: bool)
    ensures r <==> Truthy(v)
    ensures v == Undefined || v == Null || v == Num(0) || v == Str("") ==> !r
    ensures v.Str? && v.s != "" ==> r
  {
    var v' := if v == Str("") then Undefined else v;
    Truthy(v')
  }

  /** `categories.filter(c => c.parentId === parentId)`. */
  function WithParent(cats: seq<MappedCategory>, parentId: string): (r: seq<MappedCategory>)
    ensures |r| <= |cats|
    ensures forall i :: 0 <= i < |r| ==> r[i] in cats && r[i].parentId == parentId
    ensures forall c :: c in cats && c.parentId == parentId ==> c in r
    decreases |cats|
  {
    if cats == [] then []
    else
      var rest := WithParent(cats[1..], parentId);
      assert forall c :: c in cats[1..] ==> c in cats;
      assert forall c :: c in cats ==> c == cats[0] || c in cats[1..];
      if cats[0].parentId == parentId then [cats[0]] + rest else rest
  }

  /** The filter of a concatenation is the concatenation of the filters:
      together with `WithParentOne` this fixes the order and the
      multiplicity `filter` keeps. */
  lemma {:induction false} WithParentConcat(a: seq<MappedCategory>, b: seq<MappedCategory>, parentId: string)
    ensures WithParent(a + b, parentId) == WithParent(a, parentId) + WithParent(b, parentId)
    decreases |a|
  {
    if a == [] {
      assert a + b == b;
    } else {
      assert (a + b)[0] == a[0];
      assert (a + b)[1..] == a[1..] + b;
      WithParentConcat(a[1..], b, parentId);
    }
  }

  /** A single category is kept exactly when its parent is the one asked for. */
  lemma WithParentOne(c: MappedCategory, parentId: string)
    ensures WithParent([c], parentId) == if c.parentId == parentId then [c] else []
  {
    assert [c][1..] == [];
  }

  /** A termination measure for the tree recursion: every category whose
      parent has a positive rank has a smaller, still positive rank.
      Such a rank exists exactly when the parent links reachable from the
      start id contain no cycle. */
  ghost predicate Ranked(cats: seq<MappedCategory>, rank: string -> nat) {
    forall c :: c in cats && rank(c.parentId) > 0 ==> 0 < rank(c.id) < rank(c.parentId)
  }

  /** `nodes` carries the ids and labels of `level`, in order. */
  ghost predicate Shaped(nodes: seq<CategoryNode>, level: seq<MappedCategory>) {
    |nodes| == |level| && forall i :: 0 <= i < |nodes| ==> nodes[i].id == level[i].id && nodes[i].labelText == level[i].labelText
  }

  /** `buildCategoryTree(categories, parentId)`. */
  function BuildCategoryTree(cats: seq<MappedCategory>, parentId: string, ghost rank: string -> nat): (t: seq<CategoryNode>)
    requires Ranked(cats, rank) && rank(parentId) > 0
    ensures Shaped(t, WithParent(cats, parentId))
    ensures forall i :: 0 <= i < |t| ==>
      (t[i].children.Children? <==> |WithParent(cats, t[i].id)| > 0) &&
      (t[i].children.Children? ==> Shaped(t[i].children.nodes, WithParent(cats, t[i].id)))
    ensures forall i :: 0 <= i < |t| ==>
      0 < rank(t[i].id) < rank(parentId) &&
      t[i].children == (var kids := BuildCategoryTree(cats, t[i].id, rank); if |kids| > 0 then Children(kids) else NoChildren)
    decreases rank(parentId)
  {
    var top := WithParent(cats, parentId);
    seq(|top|, i requires 0 <= i < |top| =>
      var kids := BuildCategoryTree(cats, top[i].id, rank);
      CategoryNode(top[i].id, top[i].labelText, if |kids| > 0 then Children(kids) else NoChildren))
  }

  /** Pre-order listing of a tree with the `children` key dropped: the
      specification of `flattenCategories`. */
  function PreOrder(ts: seq<CategoryNode>): seq<CategoryItem>
    decreases ts
  {
    if ts == [] then []
    else
      var kids := if ts[0].children.Children? then PreOrder(ts[0].children.nodes) else [];
      [CategoryItem(ts[0].id, ts[0].labelText)] + kids + PreOrder(ts[1..])
  }

  lemma {:induction false} PreOrderConcat(a: seq<CategoryNode>, b: seq<CategoryNode>)
    ensures PreOrder(a + b) == PreOrder(a) + PreOrder(b)
    decreases a
  {
    if a != [] {
      var h := a[0];
      var kids := if h.children.Children? then PreOrder(h.children.nodes) else [];
      assert (a + b)[0] == h;
      assert (a + b)[1..] == a[1..] + b;
      PreOrderConcat(a[1..], b);
      calc {
        PreOrder(a + b);
        [CategoryItem(h.id, h.labelText)] + kids + PreOrder(a[1..] + b);
        [CategoryItem(h.id, h.labelText)] + kids + (PreOrder(a[1..]) + PreOrder(b));
        ([CategoryItem(h.id, h.labelText)] + kids + PreOrder(a[1..])) + PreOrder(b);
        PreOrder(a) + PreOrder(b);
      }
    } else {
      assert a + b == b;
    }
  }

  /** Where an item of a flattening comes from: a node of the forest, or
      the flattening of some node's children. */
  lemma {:induction false} PreOrderMember(ts: seq<CategoryNode>, x: CategoryItem) returns (i: nat)
    requires x in PreOrder(ts)
    ensures i < |ts|
    ensures x == CategoryItem(ts[i].id, ts[i].labelText) || (ts[i].children.Children? && x in PreOrder(ts[i].children.nodes))
    decreases ts
  {
    var kids := if ts[0].children.Children? then PreOrder(ts[0].children.nodes) else [];
    if x == CategoryItem(ts[0].id, ts[0].labelText) || x in kids {
      i := 0;
    } else {
      var j := PreOrderMember(ts[1..], x);
      assert ts[1..][j] == ts[j + 1];
      i := j + 1;
    }
  }

  /** Every node of a forest, and everything below it, is in its flattening. */
  lemma {:induction false} PreOrderContains(ts: seq<CategoryNode>, i: nat)
    requires i < |ts|
    ensures CategoryItem(ts[i].id, ts[i].labelText) in PreOrder(ts)
    ensures ts[i].children.Children? ==> forall x :: x in PreOrder(ts[i].children.nodes) ==> x in PreOrder(ts)
    decreases ts
  {
    if i > 0 {
      PreOrderContains(ts[1..], i - 1);
      assert ts[1..][i - 1] == ts[i];
    }
  }

  /** `c` is reached from `parentId` in the flattening `flat`: a listed
      category whose parent is `parentId` or the id of an item of `flat`. */
  ghost predicate Reached(cats: seq<MappedCategory>, parentId: string, flat: seq<CategoryItem>, c: MappedCategory) {
    c in cats && (c.parentId == parentId || exists y :: y in flat && y.id == c.parentId)
  }

  /** The flattening of a tree built from `parentId` is closed under parent
      links: every item is a listed category whose parent is `parentId` or
      the id of an item of the flattening, and every item lies strictly
      below `parentId` in the rank, which rules out parentless cycles. */
  lemma FlattenedAreReached(cats: seq<MappedCategory>, parentId: string, rank: string -> nat)
    requires Ranked(cats, rank) && rank(parentId) > 0
    ensures var flat := PreOrder(BuildCategoryTree(cats, parentId, rank));
      forall x :: x in flat ==> exists c :: Reached(cats, parentId, flat, c) && x == CategoryItem(c.id, c.labelText)
    ensures forall x :: x in PreOrder(BuildCategoryTree(cats, parentId, rank)) ==> 0 < rank(x.id) < rank(parentId)
  {
    var flat := PreOrder(BuildCategoryTree(cats, parentId, rank));
    forall x | x in flat ensures (exists c :: Reached(cats, parentId, flat, c) && x == CategoryItem(c.id, c.labelText)) && 0 < rank(x.id) < rank(parentId) {
      var c := FlattenedItemReached(cats, parentId, rank, x);
    }
  }

  /** The category an item of the flattening stands for. */
  lemma {:induction false} FlattenedItemReached(cats: seq<MappedCategory>, parentId: string, rank: string -> nat, x: CategoryItem)
    returns (c: MappedCategory)
    requires Ranked(cats, rank) && rank(parentId) > 0
    requires x in PreOrder(BuildCategoryTree(cats, parentId, rank))
    ensures Reached(cats, parentId, PreOrder(BuildCategoryTree(cats, parentId, rank)), c) && x == CategoryItem(c.id, c.labelText)
    ensures 0 < rank(c.id) < rank(parentId)
    decreases rank(parentId)
  {
    var t := BuildCategoryTree(cats, parentId, rank);
    var top := WithParent(cats, parentId);
    var flat := PreOrder(t);
    var i := PreOrderMember(t, x);
    if x == CategoryItem(t[i].id, t[i].labelText) {
      c := top[i];
      assert c in cats && c.parentId == parentId;
    } else {
      var sub := PreOrder(t[i].children.nodes);
      assert t[i].children.nodes == BuildCategoryTree(cats, t[i].id, rank);
      c := FlattenedItemReached(cats, t[i].id, rank, x);
      PreOrderContains(t, i);
      if c.parentId == t[i].id {
        assert CategoryItem(t[i].id, t[i].labelText) in flat;
      } else {
        var y :| y in sub && y.id == c.parentId;
        assert y in flat;
      }
    }
  }

  /** `ch` is a chain of parent links down from `parentId`: listed
      categories, the first a child of `parentId`, each next one a child of
      the one before. Its last category is reachable from `parentId`. */
  ghost predicate Chain(cats: seq<MappedCategory>, parentId: string, ch: seq<MappedCategory>) {
    |ch| > 0 && ch[0].parentId == parentId &&
    (forall k :: 0 <= k < |ch| ==> ch[k] in cats) &&
    (forall k :: 0 <= k < |ch| - 1 ==> ch[k + 1].parentId == ch[k].id)
  }

  /** `x` is the item of the last category of some chain down from `parentId`. */
  ghost predicate ItemOfReachable(cats: seq<MappedCategory>, parentId: string, x: CategoryItem) {
    exists ch: seq<MappedCategory> :: Chain(cats, parentId, ch) && x == CategoryItem(ch[|ch| - 1].id, ch[|ch| - 1].labelText)
  }

  /** A chain down from the id of a listed category `b` extends upwards by `b`. */
  lemma ChainThrough(cats: seq<MappedCategory>, b: MappedCategory, ch: seq<MappedCategory>)
    requires b in cats && Chain(cats, b.id, ch)
    ensures Chain(cats, b.parentId, [b] + ch) && ([b] + ch)[|ch|] == ch[|ch| - 1]
  {
    var longer := [b] + ch;
    forall k | 0 <= k < |longer| ensures longer[k] in cats {
      if k > 0 {
        assert longer[k] == ch[k - 1];
      }
    }
    forall k | 0 <= k < |longer| - 1 ensures longer[k + 1].parentId == longer[k].id {
      if k > 0 {
        assert longer[k + 1] == ch[k] && longer[k] == ch[k - 1];
      }
    }
  }

  /** The flattening of a tree built from `parentId` lists only categories
      reachable from `parentId` (membership: a category is listed again
      under every node that carries its parent id). */
  lemma FlattenedAreReachable(cats: seq<MappedCategory>, parentId: string, rank: string -> nat)
    requires Ranked(cats, rank) && rank(parentId) > 0
    ensures forall x :: x in PreOrder(BuildCategoryTree(cats, parentId, rank)) ==> ItemOfReachable(cats, parentId, x)
  {
    forall x | x in PreOrder(BuildCategoryTree(cats, parentId, rank)) ensures ItemOfReachable(cats, parentId, x) {
      var ch := FlattenedItemChain(cats, parentId, rank, x);
    }
  }

  /** The chain down to the category an item of the flattening stands for. */
  lemma {:induction false} FlattenedItemChain(cats: seq<MappedCategory>, parentId: string, rank: string -> nat, x: CategoryItem)
    returns (ch: seq<MappedCategory>)
    requires Ranked(cats, rank) && rank(parentId) > 0
    requires x in PreOrder(BuildCategoryTree(cats, parentId, rank))
    ensures Chain(cats, parentId, ch) && x == CategoryItem(ch[|ch| - 1].id, ch[|ch| - 1].labelText)
    decreases rank(parentId)
  {
    var b, below := TopLevelSource(cats, parentId, rank, x);
    if below {
      var sub := FlattenedItemChain(cats, b.id, rank, x);
      ChainThrough(cats, b, sub);
      ch := [b] + sub;
    } else {
      ch := [b];
    }
  }

  /** An item of the flattening is a top-level category `b` itself, or
      lies in the flattening of the tree built from `b`'s id. */
  lemma TopLevelSource(cats: seq<MappedCategory>, parentId: string, rank: string -> nat, x: CategoryItem)
    returns (b: MappedCategory, below: bool)
    requires Ranked(cats, rank) && rank(parentId) > 0
    requires x in PreOrder(BuildCategoryTree(cats, parentId, rank))
    ensures b in cats && b.parentId == parentId && 0 < rank(b.id) < rank(parentId)
    ensures !below ==> x == CategoryItem(b.id, b.labelText)
    ensures below ==> x in PreOrder(BuildCategoryTree(cats, b.id, rank))
  {
    var t := BuildCategoryTree(cats, parentId, rank);
    var top := WithParent(cats, parentId);
    var i := PreOrderMember(t, x);
    b := top[i];
    assert b in cats && b.parentId == parentId;
    assert t[i].id == b.id && t[i].labelText == b.labelText;
    below := x != CategoryItem(t[i].id, t[i].labelText);
    if below {
      assert t[i].children.nodes == BuildCategoryTree(cats, b.id, rank);
    }
  }

  /** The converse: the last category of every chain down from `parentId` is listed. */
  lemma ReachableAreFlattened(cats: seq<MappedCategory>, parentId: string, rank: string -> nat)
    requires Ranked(cats, rank) && rank(parentId) > 0
    ensures forall ch: seq<MappedCategory> :: Chain(cats, parentId, ch) ==>
      CategoryItem(ch[|ch| - 1].id, ch[|ch| - 1].labelText) in PreOrder(BuildCategoryTree(cats, parentId, rank))
  {
    forall ch: seq<MappedCategory> | Chain(cats, parentId, ch)
      ensures CategoryItem(ch[|ch| - 1].id, ch[|ch| - 1].labelText) in PreOrder(BuildCategoryTree(cats, parentId, rank))
    {
      ChainEndFlattened(cats, parentId, rank, ch);
    }
  }

  lemma {:induction false} ChainEndFlattened(cats: seq<MappedCategory>, parentId: string, rank: string -> nat, ch: seq<MappedCategory>)
    requires Ranked(cats, rank) && rank(parentId) > 0
    requires Chain(cats, parentId, ch)
    ensures CategoryItem(ch[|ch| - 1].id, ch[|ch| - 1].labelText) in PreOrder(BuildCategoryTree(cats, parentId, rank))
    decreases |ch|
  {
    var flat := PreOrder(BuildCategoryTree(cats, parentId, rank));
    var c := ch[|ch| - 1];
    assert c in cats;
    if |ch| > 1 {
      var init := ch[..|ch| - 1];
      ChainInit(cats, parentId, ch);
      ChainEndFlattened(cats, parentId, rank, init);
      assert CategoryItem(init[|init| - 1].id, init[|init| - 1].labelText) in flat;
    }
    assert Reached(cats, parentId, flat, c);
    ReachedIsFlattened(cats, parentId, rank, c);
  }

  /** A chain without its last category is still a chain, ending at that
      category's parent. */
  lemma ChainInit(cats: seq<MappedCategory>, parentId: string, ch: seq<MappedCategory>)
    requires Chain(cats, parentId, ch) && |ch| > 1
    ensures var init := ch[..|ch| - 1];
      Chain(cats, parentId, init) && init[|init| - 1].id == ch[|ch| - 1].parentId
  {
    var init := ch[..|ch| - 1];
    forall k | 0 <= k < |init| ensures init[k] in cats {
      assert init[k] == ch[k];
    }
    forall k | 0 <= k < |init| - 1 ensures init[k + 1].parentId == init[k].id {
      assert init[k + 1] == ch[k + 1] && init[k] == ch[k];
    }
    assert init[|init| - 1] == ch[|ch| - 2];
  }

  /** The other half of the closure: every category whose parent is
      `parentId` or the id of an item of the flattening is in it. */
  lemma {:induction false} ReachedAreFlattened(cats: seq<MappedCategory>, parentId: string, rank: string -> nat)
    requires Ranked(cats, rank) && rank(parentId) > 0
    ensures var flat := PreOrder(BuildCategoryTree(cats, parentId, rank));
      forall c :: Reached(cats, parentId, flat, c) ==> CategoryItem(c.id, c.labelText) in flat
  {
    var flat := PreOrder(BuildCategoryTree(cats, parentId, rank));
    forall c | Reached(cats, parentId, flat, c) ensures CategoryItem(c.id, c.labelText) in flat {
      ReachedIsFlattened(cats, parentId, rank, c);
    }
  }

  lemma {:induction false} ReachedIsFlattened(cats: seq<MappedCategory>, parentId: string, rank: string -> nat, c: MappedCategory)
    requires Ranked(cats, rank) && rank(parentId) > 0
    requires Reached(cats, parentId, PreOrder(BuildCategoryTree(cats, parentId, rank)), c)
    ensures CategoryItem(c.id, c.labelText) in PreOrder(BuildCategoryTree(cats, parentId, rank))
  {
    var t := BuildCategoryTree(cats, parentId, rank);
    var flat := PreOrder(t);
    var top := WithParent(cats, parentId);
    if c.parentId == parentId {
      var k :| 0 <= k < |top| && top[k] == c;
      PreOrderContains(t, k);
    } else {
      var y :| y in flat && y.id == c.parentId;
      ParentInFlattening(cats, parentId, rank, y, c);
    }
  }

  /** A category whose parent is the id of an item of the flattening is
      itself in the flattening: it hangs below that node. */
  lemma {:induction false} ParentInFlattening(cats: seq<MappedCategory>, parentId: string, rank: string -> nat, y: CategoryItem, c: MappedCategory)
    requires Ranked(cats, rank) && rank(parentId) > 0
    requires y in PreOrder(BuildCategoryTree(cats, parentId, rank))
    requires c in cats && c.parentId == y.id
    ensures CategoryItem(c.id, c.labelText) in PreOrder(BuildCategoryTree(cats, parentId, rank))
    decreases rank(parentId)
  {
    var t := BuildCategoryTree(cats, parentId, rank);
    var i := PreOrderMember(t, y);
    PreOrderContains(t, i);
    var kids := BuildCategoryTree(cats, t[i].id, rank);
    if y == CategoryItem(t[i].id, t[i].labelText) {
      var below := WithParent(cats, t[i].id);
      var k :| 0 <= k < |below| && below[k] == c;
      PreOrderContains(kids, k);
    } else {
      ParentInFlattening(cats, t[i].id, rank, y, c);
    }
  }

  /** Three categories where the id "X" is listed twice, with "Y" below "X". */
  const RepeatedIds := [MappedCategory("X", "a", "root"), MappedCategory("X", "b", "root"), MappedCategory("Y", "c", "X")]

  /** A rank for that list: the parent links have no cycle. */
  function RepeatedRank(s: string): nat {
    if s == "root" then 3 else if s == "X" then 2 else 1
  }

  lemma RepeatedIdsRanked()
    ensures Ranked(RepeatedIds, RepeatedRank)
  {
    var cats := RepeatedIds;
    forall c | c in cats ensures c == cats[0] || c == cats[1] || c == cats[2] {
    }
    assert RepeatedRank("root") == 3 && RepeatedRank("X") == 2 && RepeatedRank("Y") == 1;
  }

  /** The list split into its three categories, for filtering one at a time. */
  lemma RepeatedIdsSplit(parentId: string)
    ensures WithParent(RepeatedIds, parentId) ==
      WithParent([RepeatedIds[0]], parentId) + WithParent([RepeatedIds[1]], parentId) + WithParent([RepeatedIds[2]], parentId)
  {
    var cats := RepeatedIds;
    assert cats == [cats[0], cats[1]] + [cats[2]] && [cats[0], cats[1]] == [cats[0]] + [cats[1]];
    WithParentConcat([cats[0], cats[1]], [cats[2]], parentId);
    WithParentConcat([cats[0]], [cats[1]], parentId);
  }

  lemma RepeatedIdsBelowRoot()
    ensures WithParent(RepeatedIds, "root") == [RepeatedIds[0], RepeatedIds[1]]
  {
    var cats := RepeatedIds;
    RepeatedIdsSplit("root");
    WithParentOne(cats[0], "root");
    WithParentOne(cats[1], "root");
    WithParentOne(cats[2], "root");
  }

  lemma RepeatedIdsWithParentX()
    ensures WithParent(RepeatedIds, "X") == [RepeatedIds[2]]
  {
    var cats := RepeatedIds;
    RepeatedIdsSplit("X");
    WithParentOne(cats[0], "X");
    WithParentOne(cats[1], "X");
    WithParentOne(cats[2], "X");
  }

  lemma RepeatedIdsWithParentY()
    ensures WithParent(RepeatedIds, "Y") == []
  {
    WithParentNone(RepeatedIds, "Y");
  }

  /** Below "X" hangs the one category "Y". */
  lemma RepeatedIdsBelowX()
    requires Ranked(RepeatedIds, RepeatedRank)
    ensures BuildCategoryTree(RepeatedIds, "X", RepeatedRank) == [CategoryNode("Y", "c", NoChildren)]
  {
    RepeatedIdsWithParentX();
    RepeatedIdsWithParentY();
    var y := BuildCategoryTree(RepeatedIds, "X", RepeatedRank);
    assert |BuildCategoryTree(RepeatedIds, "Y", RepeatedRank)| == 0;
    assert y[0] == CategoryNode("Y", "c", NoChildren);
  }

  /** Both categories with the id "X" carry the subtree below "X". */
  lemma RepeatedIdsTree()
    requires Ranked(RepeatedIds, RepeatedRank)
    ensures var y := [CategoryNode("Y", "c", NoChildren)];
      BuildCategoryTree(RepeatedIds, "root", RepeatedRank) == [CategoryNode("X", "a", Children(y)), CategoryNode("X", "b", Children(y))]
  {
    RepeatedIdsBelowRoot();
    RepeatedIdsBelowX();
    var t := BuildCategoryTree(RepeatedIds, "root", RepeatedRank);
    assert t[0] == CategoryNode("X", "a", Children([CategoryNode("Y", "c", NoChildren)]));
    assert t[1] == CategoryNode("X", "b", Children([CategoryNode("Y", "c", NoChildren)]));
  }

  /** With an id listed twice, the subtree below it is built twice: the
      three categories give a tree of four nodes. */
  lemma RepeatedIdCountedTwice()
    ensures Ranked(RepeatedIds, RepeatedRank)
    ensures CountCategories(BuildCategoryTree(RepeatedIds, "root", RepeatedRank)) == 4 > |RepeatedIds|
  {
    RepeatedIdsRanked();
    RepeatedIdsTree();
    var y := [CategoryNode("Y", "c", NoChildren)];
    var t := [CategoryNode("X", "a", Children(y)), CategoryNode("X", "b", Children(y))];
    assert t[1..][1..] == [] && y[1..] == [];
    assert CountCategories(y) == 1;
    assert CountCategories(t[1..]) == 2;
  }

  /** `flattenCategories`: a reduce that pushes each node and then, when it
      has a `children` key, the flattened children. */
  method FlattenCategories(ts: seq<CategoryNode>) returns (result: seq<CategoryItem>)
    ensures result == PreOrder(ts)
    decreases ts
  {
    result := [];
    var i := 0;
    while i < |ts|
      invariant 0 <= i <= |ts|
      invariant result == PreOrder(ts[..i])
    {
      var n := ts[i];
      var kids: seq<CategoryItem> := [];
      if n.children.Children? {
        kids := FlattenCategories(n.children.nodes);
      }
      PreOrderStep(ts, i);
      result := result + ([CategoryItem(n.id, n.labelText)] + kids);
      i := i + 1;
    }
    assert ts[..|ts|] == ts;
  }

  /** One more node of a forest adds that node and then its flattened children. */
  lemma PreOrderStep(ts: seq<CategoryNode>, i: nat)
    requires i < |ts|
    ensures var n := ts[i];
      PreOrder(ts[..i + 1]) == PreOrder(ts[..i]) + ([CategoryItem(n.id, n.labelText)] + (if n.children.Children? then PreOrder(n.children.nodes) else []))
  {
    var n := ts[i];
    assert ts[..i + 1] == ts[..i] + [n];
    PreOrderConcat(ts[..i], [n]);
    assert [n][1..] == [];
  }

  /** `countCategories`: one per node plus the count of its children. */
  function CountCategories(ts: seq<CategoryNode>): (c: nat)
    ensures c >= |ts|
    decreases ts
  {
    if ts == [] then 0
    else (1 + if ts[0].children.Children? then CountCategories(ts[0].children.nodes) else 0) + CountCategories(ts[1..])
  }

  /** The count of a tree is the length of its flattening. */
  lemma {:induction false} CountIsFlattenedLength(ts: seq<CategoryNode>)
    ensures CountCategories(ts) == |PreOrder(ts)|
    decreases ts
  {
    if ts != [] {
      if ts[0].children.Children? {
        CountIsFlattenedLength(ts[0].children.nodes);
      }
      CountIsFlattenedLength(ts[1..]);
    }
  }

  /** The categories as childless tree nodes, in list order. */
  function Leaves(cats: seq<MappedCategory>): (t: seq<CategoryNode>)
    ensures Shaped(t, cats)
    ensures forall i :: 0 <= i < |t| ==> t[i].children.NoChildren?
  {
    seq(|cats|, i requires 0 <= i < |cats| => CategoryNode(cats[i].id, cats[i].labelText, NoChildren))
  }

  /** The categories reduced to `{ id, labelText }`, in list order. */
  function Items(cats: seq<MappedCategory>): (r: seq<CategoryItem>)
    ensures |r| == |cats|
    ensures forall i :: 0 <= i < |cats| ==> r[i] == CategoryItem(cats[i].id, cats[i].labelText)
  {
    seq(|cats|, i requires 0 <= i < |cats| => CategoryItem(cats[i].id, cats[i].labelText))
  }

  lemma {:induction false} LeavesPreOrder(cats: seq<MappedCategory>)
    ensures PreOrder(Leaves(cats)) == Items(cats)
    decreases |cats|
  {
    if cats != [] {
      LeavesPreOrder(cats[1..]);
      assert Leaves(cats)[1..] == Leaves(cats[1..]);
      assert Items(cats) == [Items(cats)[0]] + Items(cats[1..]);
    }
  }

  lemma LeavesFlatten(cats: seq<MappedCategory>)
    ensures PreOrder(Leaves(cats)) == Items(cats) && CountCategories(Leaves(cats)) == |cats|
  {
    LeavesPreOrder(cats);
    CountIsFlattenedLength(Leaves(cats));
  }

  predicate AllRootParents(cats: seq<MappedCategory>) {
    forall i :: 0 <= i < |cats| ==> cats[i].parentId == "root"
  }

  predicate HasRootId(cats: seq<MappedCategory>) {
    exists i :: 0 <= i < |cats| && cats[i].id == "root"
  }

  /** The rank that makes a flat list buildable from 'root'. */
  function RootRank(s: string): nat {
    if s == "root" then 2 else 1
  }

  /** The rank that makes a flat list buildable from an id other than 'root'. */
  function OtherRank(s: string): nat {
    if s == "root" then 0 else 1
  }

  /** A flat list (every parent 'root') built from 'root' is the list itself
      as childless nodes, provided no category has the id 'root'. */
  lemma FlatTreeFromRoot(cats: seq<MappedCategory>)
    requires AllRootParents(cats) && !HasRootId(cats)
    ensures Ranked(cats, RootRank)
    ensures BuildCategoryTree(cats, "root", RootRank) == Leaves(cats)
  {
    var t := BuildCategoryTree(cats, "root", RootRank);
    WithParentAll(cats, "root");
    forall i | 0 <= i < |t| ensures t[i] == Leaves(cats)[i] {
      WithParentNone(cats, t[i].id);
    }
  }

  /** A flat list built from any other id is empty. */
  lemma FlatTreeFromOther(cats: seq<MappedCategory>, parentId: string)
    requires AllRootParents(cats) && parentId != "root"
    ensures Ranked(cats, OtherRank)
    ensures BuildCategoryTree(cats, parentId, OtherRank) == []
  {
    WithParentNone(cats, parentId);
  }

  lemma {:induction false} WithParentAll(cats: seq<MappedCategory>, p: string)
    requires forall i :: 0 <= i < |cats| ==> cats[i].parentId == p
    ensures WithParent(cats, p) == cats
    decreases |cats|
  {
    if cats != [] {
      WithParentAll(cats[1..], p);
    }
  }

  lemma {:induction false} WithParentNone(cats: seq<MappedCategory>, p: string)
    requires forall i :: 0 <= i < |cats| ==> cats[i].parentId != p
    ensures WithParent(cats, p) == []
    decreases |cats|
  {
    if cats != [] {
      WithParentNone(cats[1..], p);
    }
  }

  /** A flat list built from 'root' recurses for ever when some category has
      the id 'root': its children are the whole list again, so no rank can
      bound the recursion. */
  lemma RootIdRecurses(cats: seq<MappedCategory>, rank: string -> nat)
    requires AllRootParents(cats) && HasRootId(cats)
    ensures !(Ranked(cats, rank) && rank("root") > 0)
  {
    var i :| 0 <= i < |cats| && cats[i].id == "root";
    if Ranked(cats, rank) && rank("root") > 0 {
      assert false;
    }
  }

  /** The tree a flat list of categories gives from `root`, or the stack
      overflow of the unbounded recursion. */
  method BuildFlatTree(cats: seq<MappedCategory>, root: string) returns (r: Result<seq<CategoryNode>>)
    requires AllRootParents(cats)
    ensures r.Failure? <==> root == "root" && HasRootId(cats)
    ensures r.Failure? ==> r.error == StackOverflow
    ensures r.Success? ==> r.value == if root == "root" then Leaves(cats) else []
  {
    if root == "root" {
      if HasRootId(cats) {
        return Failure(StackOverflow);
      }
      FlatTreeFromRoot(cats);
      r := Success(BuildCategoryTree(cats, root, RootRank));
    } else {
      FlatTreeFromOther(cats, root);
      r := Success(BuildCategoryTree(cats, root, OtherRank));
    }
  }

  /** Mapping records without a parent gives categories whose parent is 'root'. */
  lemma MappedAreRootChildren(cs: seq<Category>, lang: Option<string>)
    requires forall i :: 0 <= i < |cs| ==> cs[i].parentCategoryId.None?
    ensures AllRootParents(MapCategoryData(cs, lang))
  {
  }

  /** What `categoriesGet` answers on a listing: `null` data below page 1;
      the stack overflow when the tree is built from 'root' and some
      category has the id 'root'; otherwise the flattened page from 'root'
      (nothing from another parent), `total` by the keyword rule and the
      out-of-range rule. */
  ghost predicate ListedCategories(pages: seq<Page<Category>>, count: nat, parentId: Option<string>, keyword: Option<string>,
                                   lang: Option<string>, page: Option<int>, r: Result<ListResult<CategoryItem>>)
  {
    var target := page.GetOr(1);
    var n := FetchCount(pages, target);
    var last := PageAt(pages, if n > 0 then n - 1 else 0);
    var mapped := MapCategoryData(last.items, lang);
    var root := if CheckIfEmpty(FromOptional(parentId)) then parentId.value else "root";
    var items := if root == "root" then Items(mapped) else [];
    (target < 1 ==> r == Failure(TypeError("categoryData is null"))) &&
    (target >= 1 && root == "root" && HasRootId(mapped) ==> r == Failure(StackOverflow)) &&
    (r.Failure? ==> target < 1 || (root == "root" && HasRootId(mapped))) &&
    (r.Success? ==>
      r.value.total == (if Truthy(FromOptional(keyword)) then |items| else count) &&
      r.value.endCursor == last.endCursor &&
      (n < target ==> r.value.items == [] && !r.value.hasNext) &&
      (n >= target ==> r.value.items == items && r.value.hasNext == last.hasNextPage))
  }

  /** `categoriesGet`. */
  method CategoriesGet(store: CollectionStore, cfg: Config, parentId: Option<string>, keyword: Option<string>,
                       lang: Option<string>, page: Option<int>) returns (r: Result<ListResult<CategoryItem>>)
    ensures ListedCategories(CategoryPages(store, cfg, lang, keyword), store.count, parentId, keyword, lang, page, r)
  {
    AllPagesNoParents(store, cfg, lang, keyword);
    r := ListCategories(CategoryPages(store, cfg, lang, keyword), store.count, parentId, keyword, lang, page);
  }

  /** The body of `categoriesGet` over a listing of records without parents. */
  method ListCategories(pages: seq<Page<Category>>, count: nat, parentId: Option<string>, keyword: Option<string>,
                        lang: Option<string>, page: Option<int>) returns (r: Result<ListResult<CategoryItem>>)
    requires forall j, i :: 0 <= j < |pages| && 0 <= i < |pages[j].items| ==> pages[j].items[i].parentCategoryId.None?
    ensures ListedCategories(pages, count, parentId, keyword, lang, page, r)
  {
    var selfPaginate := CheckIfEmpty(FromOptional(parentId));
    var target := page.GetOr(1);
    var w := Paginate(pages, count, target);
    if w.last.None? {
      return Failure(TypeError("categoryData is null"));
    }
    var categoryData := w.last.value;
    ghost var last := PageAt(pages, w.actualPage - 1);
    assert categoryData.data == last.items && categoryData.total == count;
    assert w.afterCursor == last.endCursor && w.hasNextPage == last.hasNextPage;
    PageNoParents(pages, w.actualPage - 1);
    var root := if selfPaginate then parentId.value else "root";
    var flat := FlatCategories(categoryData.data, lang, root);
    if flat.Failure? {
      return Failure(flat.error);
    }
    var categories := flat.value;
    var total := if Truthy(FromOptional(keyword)) then |categories| else categoryData.total;
    r := Success(Settle(categories, total, w, target));
  }

  lemma PageNoParents(pages: seq<Page<Category>>, k: nat)
    requires forall j, i :: 0 <= j < |pages| && 0 <= i < |pages[j].items| ==> pages[j].items[i].parentCategoryId.None?
    ensures var items := PageAt(pages, k).items; forall i :: 0 <= i < |items| ==> items[i].parentCategoryId.None?
  {
  }

  /** The middle of `categoriesGet`: map one page of records, build the
      tree from `root` and flatten it. */
  method FlatCategories(data: seq<Category>, lang: Option<string>, root: string) returns (r: Result<seq<CategoryItem>>)
    requires forall i :: 0 <= i < |data| ==> data[i].parentCategoryId.None?
    ensures var mapped := MapCategoryData(data, lang);
      (r.Failure? <==> root == "root" && HasRootId(mapped)) &&
      (r.Failure? ==> r.error == StackOverflow) &&
      (r.Success? ==> r.value == if root == "root" then Items(mapped) else [])
  {
    var mappedData := MapCategoryData(data, lang);
    MappedAreRootChildren(data, lang);
    var tree := BuildFlatTree(mappedData, root);
    if tree.Failure? {
      return Failure(tree.error);
    }
    var categories := FlattenCategories(tree.value);
    LeavesFlatten(mappedData);
    r := Success(categories);
  }

  lemma AllPagesNoParents(store: CollectionStore, cfg: Config, lang: Option<string>, keyword: Option<string>)
    ensures var pages := CategoryPages(store, cfg, lang, keyword);
      forall j, i :: 0 <= j < |pages| && 0 <= i < |pages[j].items| ==> pages[j].items[i].parentCategoryId.None?
  {
  }

  /** The tree `categoryTreeGet` returns: `{ categorytree, total }`. */
  datatype CategoryTree = CategoryTree(categorytree: seq<CategoryNode>, total: nat)

  /** `categoryTreeGet`: every page of the unfiltered listing, concatenated,
      mapped and built into a tree from `parentId` ('root' when absent). */
  method CategoryTreeGet(store: CollectionStore, cfg: Config, parentId: Option<string>, lang: Option<string>)
    returns (r: Result<CategoryTree>)
    ensures var all := MapCategoryData(ScanFrom(CategoryPages(store, cfg, lang, None), 0), lang);
      var root := parentId.GetOr("root");
      (r.Failure? <==> root == "root" && HasRootId(all)) &&
      (r.Failure? ==> r.error == StackOverflow) &&
      (r.Success? ==>
        r.value.categorytree == (if root == "root" then Leaves(all) else []) &&
        r.value.total == (if root == "root" then |all| else 0))
  {
    var pages := CategoryPages(store, cfg, lang, None);
    var allCategories := CollectAll(pages);
    AllPagesNoParents(store, cfg, lang, None);
    ScanNoParents(pages, 0);
    var mappedCategories := MapCategoryData(allCategories, lang);
    MappedAreRootChildren(allCategories, lang);
    var root := parentId.GetOr("root");
    var categoryTree := BuildFlatTree(mappedCategories, root);
    if categoryTree.Failure? {
      return Failure(categoryTree.error);
    }
    LeavesFlatten(mappedCategories);
    var total := CountCategories(categoryTree.value);
    r := Success(CategoryTree(categoryTree.value, total));
  }

  /** `fetchCategoriesByIds`: no request for an absent or empty id list;
      otherwise the collections found, as `{ id, labelText }`. */
  function FetchCategoriesByIds(store: CollectionStore, cfg: Config, ids: Option<seq<string>>, lang: Option<string>)
    : (r: ByIds<CategoryItem>)
    ensures r.total == |r.items|
    ensures ids.None? || ids.value == [] ==> r == ByIds([], 0)
    ensures ids.Some? ==> |r.items| <= |ids.value|
    ensures forall i :: 0 <= i < |r.items| ==> '/' !in r.items[i].id
    ensures ids.Some? ==> forall k :: 0 <= k < |r.items| ==> ItemOfKnownId(store, cfg, lang, ids.value, r.items[k])
    ensures ids.Some? ==> forall j :: 0 <= j < |ids.value| && CollectionKey(cfg, lang, ids.value[j]) in store.nodes ==>
      ByIdsItem(store.nodes[CollectionKey(cfg, lang, ids.value[j])], lang) in r.items
    ensures ids.Some? ==> var found := ResolveNodes(store.nodes, RequestLocale(lang, cfg), Gids("Collection", ids.value));
      |r.items| == |found| && forall k :: 0 <= k < |found| ==> r.items[k] == ByIdsItem(found[k], lang)
  {
    if ids.None? || ids.value == [] then ByIds([], 0)
    else
      var locale := RequestLocale(lang, cfg);
      var nodes := ResolveNodes(store.nodes, locale, Gids("Collection", ids.value));
      var mapped := seq(|nodes|, i requires 0 <= i < |nodes| => ByIdsItem(nodes[i], lang));
      KnownIdItems(store, cfg, lang, ids.value, mapped);
      ByIds(mapped, |mapped|)
  }

  /** The answer for a concatenation of id lists is the two answers
      concatenated, so request order is kept and each id contributes on its own. */
  lemma ByIdsConcat(store: CollectionStore, cfg: Config, a: seq<string>, b: seq<string>, lang: Option<string>)
    ensures var ra := FetchCategoriesByIds(store, cfg, Some(a), lang); var rb := FetchCategoriesByIds(store, cfg, Some(b), lang);
      FetchCategoriesByIds(store, cfg, Some(a + b), lang) == ByIds(ra.items + rb.items, ra.total + rb.total)
  {
    var locale := RequestLocale(lang, cfg);
    GidsConcat("Collection", a, b);
    ResolveNodesConcat(store.nodes, locale, Gids("Collection", a), Gids("Collection", b));
    var na := ResolveNodes(store.nodes, locale, Gids("Collection", a));
    var nb := ResolveNodes(store.nodes, locale, Gids("Collection", b));
    var ra := FetchCategoriesByIds(store, cfg, Some(a), lang);
    var rb := FetchCategoriesByIds(store, cfg, Some(b), lang);
    var r := FetchCategoriesByIds(store, cfg, Some(a + b), lang);
    MappedConcat(n => ByIdsItem(n, lang), na, nb, ra.items, rb.items, r.items);
  }

  /** One id gives its mapped node when the shop knows it and nothing
      otherwise: an unknown id is dropped and not counted in `total`. */
  lemma ByIdsOne(store: CollectionStore, cfg: Config, id: string, lang: Option<string>)
    ensures FetchCategoriesByIds(store, cfg, Some([id]), lang) ==
      if CollectionKey(cfg, lang, id) in store.nodes then ByIds([ByIdsItem(store.nodes[CollectionKey(cfg, lang, id)], lang)], 1) else ByIds([], 0)
  {
    assert Gids("Collection", [id]) == [Gid("Collection", id)];
    ResolveNodesOne(store.nodes, RequestLocale(lang, cfg), Gid("Collection", id));
  }

  /** The node the by-ids request asks for: the collection's global id in the request locale. */
  function CollectionKey(cfg: Config, lang: Option<string>, id: string): NodeKey {
    NodeKey(RequestLocale(lang, cfg), Gid("Collection", id))
  }

  /** `c` is the mapped collection of one of the requested ids the shop knows. */
  ghost predicate ItemOfKnownId(store: CollectionStore, cfg: Config, lang: Option<string>, ids: seq<string>, c: CategoryItem) {
    exists j :: 0 <= j < |ids| && CollectionKey(cfg, lang, ids[j]) in store.nodes && c == ByIdsItem(store.nodes[CollectionKey(cfg, lang, ids[j])], lang)
  }

  /** Mapping the nodes found keeps exactly the known ids, mapped. */
  lemma KnownIdItems(store: CollectionStore, cfg: Config, lang: Option<string>, ids: seq<string>, mapped: seq<CategoryItem>)
    requires var found := ResolveNodes(store.nodes, RequestLocale(lang, cfg), Gids("Collection", ids));
      |mapped| == |found| && forall k :: 0 <= k < |found| ==> mapped[k] == ByIdsItem(found[k], lang)
    ensures forall k :: 0 <= k < |mapped| ==> ItemOfKnownId(store, cfg, lang, ids, mapped[k])
    ensures forall j :: 0 <= j < |ids| && CollectionKey(cfg, lang, ids[j]) in store.nodes ==>
      ByIdsItem(store.nodes[CollectionKey(cfg, lang, ids[j])], lang) in mapped
  {
    var locale := RequestLocale(lang, cfg);
    var found := ResolveNodes(store.nodes, locale, Gids("Collection", ids));
    ResolvedKnownIds(store.nodes, locale, "Collection", ids);
    forall k | 0 <= k < |mapped| ensures ItemOfKnownId(store, cfg, lang, ids, mapped[k]) {
      assert NodeOfKnownId(store.nodes, locale, "Collection", ids, found[k]);
      var j :| 0 <= j < |ids| && NodeKey(locale, Gid("Collection", ids[j])) in store.nodes && found[k] == store.nodes[NodeKey(locale, Gid("Collection", ids[j]))];
      assert CollectionKey(cfg, lang, ids[j]) == NodeKey(locale, Gid("Collection", ids[j]));
    }
    forall j | 0 <= j < |ids| && CollectionKey(cfg, lang, ids[j]) in store.nodes
      ensures ByIdsItem(store.nodes[CollectionKey(cfg, lang, ids[j])], lang) in mapped
    {
      var n := store.nodes[CollectionKey(cfg, lang, ids[j])];
      assert n in found;
      var k :| 0 <= k < |found| && found[k] == n;
      assert mapped[k] == ByIdsItem(n, lang);
    }
  }

  /** The by-ids mapping of one collection: decoded id and localized title. */
  function ByIdsItem(node: CollectionNode, lang: Option<string>): (c: CategoryItem)
    ensures '/' !in c.id && |c.id| <= |node.id| && node.id[|node.id| - |c.id|..] == c.id
    ensures c.labelText == Localize(node.title, node.translations, "title", lang)
  {
    CategoryItem(LastSegment(node.id), Localize(node.title, node.translations, "title", lang))
  }

  /** Without ids the result does not depend on the shop: no request is made. */
  lemma ByIdsWithoutIds(s1: CollectionStore, s2: CollectionStore, cfg: Config, ids: Option<seq<string>>, lang: Option<string>)
    requires ids.None? || ids.value == []
    ensures FetchCategoriesByIds(s1, cfg, ids, lang) == FetchCategoriesByIds(s2, cfg, ids, lang) == ByIds([], 0)
  {
  }

  /** Asking a shop that knows every id, under its own global id, gives
      the ids back in request order, each with its localized title. */
  lemma ByIdsRoundTrip(store: CollectionStore, cfg: Config, ids: seq<string>, lang: Option<string>)
    requires ids != []
    requires forall i :: 0 <= i < |ids| ==> '/' !in ids[i]
    requires forall i :: 0 <= i < |ids| ==>
      CollectionKey(cfg, lang, ids[i]) in store.nodes && store.nodes[CollectionKey(cfg, lang, ids[i])].id == Gid("Collection", ids[i])
    ensures var r := FetchCategoriesByIds(store, cfg, Some(ids), lang);
      |r.items| == |ids| && forall i :: 0 <= i < |ids| ==>
        var node := store.nodes[CollectionKey(cfg, lang, ids[i])];
        r.items[i].id == ids[i] && r.items[i].labelText == Localize(node.title, node.translations, "title", lang)
  {
    ResolveAll(store.nodes, RequestLocale(lang, cfg), Gids("Collection", ids));
    forall i | 0 <= i < |ids| ensures LastSegment(Gid("Collection", ids[i])) == ids[i] {
      GidDecodes("Collection", ids[i]);
    }
  }

  /** `getCategoryIdByHandle`. */
  function GetCategoryIdByHandle(store: CollectionStore, handle: string): (id: Option<string>)
    ensures id.Some? <==> handle in store.idByHandle && store.idByHandle[handle] != ""
    ensures id.Some? ==> '/' !in id.value
    ensures id.Some? ==> id.value == LastSegment(store.idByHandle[handle])
  {
    IdByHandle(store.idByHandle, handle)
  }

  /** `getCategoryHandleById`. */
  function GetCategoryHandleById(store: CollectionStore, id: string): (handle: Option<string>)
    ensures handle.Some? <==> Gid("Collection", id) in store.handleById && store.handleById[Gid("Collection", id)] != ""
    ensures handle.Some? ==> handle.value == store.handleById[Gid("Collection", id)]
  {
    HandleById(store.handleById, Gid("Collection", id))
  }
}

/** The products service: products listed page by page in a collection or
    by title, filtered locally by keyword, and looked up by id or handle. */
module Products {
  import opened Values
  import opened Strings
  import opened Locale
  import opened Pagination
  import opened Shop

  /** A product as the Admin API returns it; `images` are the `src` of its
      image edges in order, `description` is empty when absent. */
  datatype ProductNode = ProductNode(id: string, title: string, description: string, images: seq<string>, translations: seq<Keyed>)

  /** The products part of the shop. */
  datatype ProductStore = ProductStore(
    listings: map<ListQuery, seq<Page<ProductNode>>>,  // `products(query:)`, by locale and filter
    count: nat,                                        // `productsCount.count ?? 0`
    nodes: map<NodeKey, ProductNode>,                  // `nodes(ids:)`
    idByHandle: map<string, string>,                   // `productByHandle(handle).id`
    handleById: map<string, string>)                   // `node(id).handle`

  /** A product after mapping: `{ id, label, extract, image, thumbnail }`. */
  datatype ProductItem = ProductItem(id: string, labelText: string, extract: Option<string>, image: Option<string>, thumbnail: Option<string>)

  const CollectionPrefix := "collection_id:"
  const TitlePrefix := "title:*"

  /** The filter expression of the listing request: the collection when
      one is given, else the title keyword, else no `query` variable. */
  function ProductFilter(categoryId: Option<string>, keyword: Option<string>): (q: Option<string>)
    ensures q.None? <==> !Truthy(FromOptional(categoryId)) && !Truthy(FromOptional(keyword))
  {
    if Truthy(FromOptional(categoryId)) then Some(CollectionPrefix + categoryId.value)
    else if Truthy(FromOptional(keyword)) then Some(TitlePrefix + keyword.value + "*")
    else None
  }

  /** What a product filter expression selects by. */
  datatype Criterion = ByCollection(categoryId: string) | ByTitle(keyword: string) | Unfiltered

  /** Reads a filter expression back. */
  function FilterCriterion(q: Option<string>): Criterion {
    if q.None? then Unfiltered
    else if StartsWith(q.value, CollectionPrefix) then ByCollection(q.value[|CollectionPrefix|..])
    else if StartsWith(q.value, TitlePrefix) && |q.value| > |TitlePrefix| then ByTitle(q.value[|TitlePrefix|..|q.value| - 1])
    else Unfiltered
  }

  /** The filter expression is unambiguous: the collection wins over the
      keyword, and each can be read back from the expression. */
  lemma FilterRoundTrip(categoryId: Option<string>, keyword: Option<string>)
    ensures FilterCriterion(ProductFilter(categoryId, keyword)) ==
      if Truthy(FromOptional(categoryId)) then ByCollection(categoryId.value)
      else if Truthy(FromOptional(keyword)) then ByTitle(keyword.value)
      else Unfiltered
  {
    var q := ProductFilter(categoryId, keyword);
    if Truthy(FromOptional(categoryId)) {
      assert q.value[..|CollectionPrefix|] == CollectionPrefix;
      assert q.value[|CollectionPrefix|..] == categoryId.value;
    } else if Truthy(FromOptional(keyword)) {
      assert q.value[..|TitlePrefix|] == TitlePrefix;
      assert q.value[0] == 't';
      assert !StartsWith(q.value, CollectionPrefix) by {
        assert CollectionPrefix[0] == 'c';
      }
      assert q.value[|TitlePrefix|..|q.value| - 1] == keyword.value;
    }
  }

  /** The mapping of one product node, shared by the listing and by-ids paths. */
  function MapProduct(node: ProductNode, lang: Option<string>): (p: ProductItem)
    ensures '/' !in p.id && |p.id| <= |node.id| && node.id[|node.id| - |p.id|..] == p.id
    ensures p.labelText == Localize(node.title, node.translations, "title", lang)
    ensures p.extract.Some? <==> node.description != ""
    ensures p.extract.Some? ==> p.extract.value == node.description
    ensures p.image == p.thumbnail
    ensures p.image.Some? <==> node.images != []
    ensures p.image.Some? ==> p.image.value == node.images[0]
  {
    var image := if node.images != [] then Some(node.images[0]) else None;
    ProductItem(LastSegment(node.id), Localize(node.title, node.translations, "title", lang),
                if node.description != "" then Some(node.description) else None,
                image, image)
  }

  /** `mapProductData`. */
  function MapProductData(nodes: seq<ProductNode>, lang: Option<string>): (ps: seq<ProductItem>)
    ensures |ps| == |nodes|
    ensures forall i :: 0 <= i < |nodes| ==> ps[i] == MapProduct(nodes[i], lang)
  {
    seq(|nodes|, i requires 0 <= i < |nodes| => MapProduct(nodes[i], lang))
  }

  /** A product whose label contains the keyword, ignoring ASCII case;
      the empty keyword matches every product with a label. */
  predicate MatchesKeyword(p: ProductItem, keyword: string): (m: bool)
    ensures m ==> p.labelText != ""
    ensures keyword == "" ==> (m <==> p.labelText != "")
  {
    assert OccursAt(ToLower(p.labelText), ToLower(""), 0);
    p.labelText != "" && Contains(ToLower(p.labelText), ToLower(keyword))
  }

  /** Matching does not depend on the case of the keyword. */
  lemma MatchIgnoresKeywordCase(p: ProductItem, keyword: string)
    ensures MatchesKeyword(p, keyword) <==> MatchesKeyword(p, ToLower(keyword))
  {
    ToLowerIdempotent(keyword);
  }

  /** `products.filter(p => p.label && p.label.toLowerCase().includes(keyword.toLowerCase()))`. */
  function KeywordFilter(ps: seq<ProductItem>, keyword: string): (r: seq<ProductItem>)
    ensures |r| <= |ps|
    ensures forall i :: 0 <= i < |r| ==> r[i] in ps && MatchesKeyword(r[i], keyword)
    ensures forall p :: p in ps && MatchesKeyword(p, keyword) ==> p in r
    decreases |ps|
  {
    if ps == [] then []
    else
      var rest := KeywordFilter(ps[1..], keyword);
      assert forall p :: p in ps[1..] ==> p in ps;
      assert forall p :: p in ps ==> p == ps[0] || p in ps[1..];
      if MatchesKeyword(ps[0], keyword) then [ps[0]] + rest else rest
  }

  /** Filtering a concatenation concatenates the filters: the order and
      every repetition of the page are kept. */
  lemma {:induction false} KeywordFilterConcat(a: seq<ProductItem>, b: seq<ProductItem>, keyword: string)
    ensures KeywordFilter(a + b, keyword) == KeywordFilter(a, keyword) + KeywordFilter(b, keyword)
    decreases |a|
  {
    if a == [] {
      assert a + b == b;
    } else {
      assert (a + b)[0] == a[0];
      assert (a + b)[1..] == a[1..] + b;
      KeywordFilterConcat(a[1..], b, keyword);
    }
  }

  /** One product is kept exactly when it matches. */
  lemma KeywordFilterOne(p: ProductItem, keyword: string)
    ensures KeywordFilter([p], keyword) == if MatchesKeyword(p, keyword) then [p] else []
  {
    assert [p][1..] == [];
  }

  /** `a` is `b` with some elements left out, the others in order. */
  ghost predicate Subsequence<T>(a: seq<T>, b: seq<T>)
    decreases |b|
  {
    if a == [] then true
    else if b == [] then false
    else (a[0] == b[0] && Subsequence(a[1..], b[1..])) || Subsequence(a, b[1..])
  }

  /** The local filter keeps the mapped page's order. */
  lemma {:induction false} KeywordFilterKeepsOrder(ps: seq<ProductItem>, keyword: string)
    ensures Subsequence(KeywordFilter(ps, keyword), ps)
    decreases |ps|
  {
    if ps != [] {
      KeywordFilterKeepsOrder(ps[1..], keyword);
      var r := KeywordFilter(ps, keyword);
      if MatchesKeyword(ps[0], keyword) {
        assert r[0] == ps[0] && r[1..] == KeywordFilter(ps[1..], keyword);
      }
    }
  }

  /** The listing `fetchProducts` walks. */
  function ProductPages(store: ProductStore, cfg: Config, lang: Option<string>, categoryId: Option<string>, keyword: Option<string>)
    : seq<Page<ProductNode>>
  {
    ListingFor(store.listings, ListQuery(RequestLocale(lang, cfg), ProductFilter(categoryId, keyword)))
  }

  /** `productsGet`: one page of products, filtered by keyword inside a
      collection, with the total rule and the out-of-range rule. */
  method ProductsGet(store: ProductStore, cfg: Config, categoryId: Option<string>, keyword: Option<string>,
                     lang: Option<string>, page: Option<int>) returns (r: Result<ListResult<ProductItem>>)
    ensures var pages := ProductPages(store, cfg, lang, categoryId, keyword);
      var target := page.GetOr(1);
      var n := FetchCount(pages, target);
      var last := PageAt(pages, if n > 0 then n - 1 else 0);
      var mapped := MapProductData(last.items, lang);
      var byCategory := Truthy(FromOptional(categoryId));
      var byKeyword := Truthy(FromOptional(keyword));
      var products := if byCategory && byKeyword then KeywordFilter(mapped, keyword.value) else mapped;
      (r.Failure? <==> target < 1) &&
      (r.Failure? ==> r.error == TypeError("productData is null")) &&
      (r.Success? ==>
        r.value.total == (if byKeyword || byCategory then |products| else store.count) &&
        r.value.endCursor == last.endCursor &&
        (n < target ==> r.value.items == [] && !r.value.hasNext) &&
        (n >= target ==> r.value.items == products && r.value.hasNext == last.hasNextPage))
  {
    var target := page.GetOr(1);
    var w := Paginate(ProductPages(store, cfg, lang, categoryId, keyword), store.count, target);
    if w.last.None? {
      return Failure(TypeError("productData is null"));
    }
    var productData := w.last.value;
    var total := productData.total;
    var products := MapProductData(productData.data, lang);
    if Truthy(FromOptional(categoryId)) && Truthy(FromOptional(keyword)) {
      products := KeywordFilter(products, keyword.value);
    }
    var resultTotal := if Truthy(FromOptional(keyword)) || Truthy(FromOptional(categoryId)) then |products| else total;
    r := Success(Settle(products, resultTotal, w, target));
  }

  /** `productsProductIdsGet`: no request for an absent or empty id list;
      otherwise the products found, mapped. */
  function ProductsProductIdsGet(store: ProductStore, cfg: Config, ids: Option<seq<string>>, lang: Option<string>)
    : (r: ByIds<ProductItem>)
    ensures r.total == |r.items|
    ensures ids.None? || ids.value == [] ==> r == ByIds([], 0)
    ensures ids.Some? ==> |r.items| <= |ids.value|
    ensures ids.Some? ==> forall k :: 0 <= k < |r.items| ==> ItemOfKnownId(store, cfg, lang, ids.value, r.items[k])
    ensures ids.Some? ==> forall j :: 0 <= j < |ids.value| && ProductKey(cfg, lang, ids.value[j]) in store.nodes ==>
      MapProduct(store.nodes[ProductKey(cfg, lang, ids.value[j])], lang) in r.items
    ensures ids.Some? ==> var found := ResolveNodes(store.nodes, RequestLocale(lang, cfg), Gids("Product", ids.value));
      |r.items| == |found| && forall k :: 0 <= k < |found| ==> r.items[k] == MapProduct(found[k], lang)
  {
    if ids.None? || ids.value == [] then ByIds([], 0)
    else
      var locale := RequestLocale(lang, cfg);
      var products := MapProductData(ResolveNodes(store.nodes, locale, Gids("Product", ids.value)), lang);
      KnownIdItems(store, cfg, lang, ids.value, products);
      ByIds(products, |products|)
  }

  /** The answer for a concatenation of id lists is the two answers
      concatenated, so request order is kept and each id contributes on its own. */
  lemma ProductsByIdsConcat(store: ProductStore, cfg: Config, a: seq<string>, b: seq<string>, lang: Option<string>)
    ensures var ra := ProductsProductIdsGet(store, cfg, Some(a), lang); var rb := ProductsProductIdsGet(store, cfg, Some(b), lang);
      ProductsProductIdsGet(store, cfg, Some(a + b), lang) == ByIds(ra.items + rb.items, ra.total + rb.total)
  {
    var locale := RequestLocale(lang, cfg);
    GidsConcat("Product", a, b);
    ResolveNodesConcat(store.nodes, locale, Gids("Product", a), Gids("Product", b));
    var na := ResolveNodes(store.nodes, locale, Gids("Product", a));
    var nb := ResolveNodes(store.nodes, locale, Gids("Product", b));
    var ra := ProductsProductIdsGet(store, cfg, Some(a), lang);
    var rb := ProductsProductIdsGet(store, cfg, Some(b), lang);
    var r := ProductsProductIdsGet(store, cfg, Some(a + b), lang);
    MappedConcat(n => MapProduct(n, lang), na, nb, ra.items, rb.items, r.items);
  }

  /** One id gives its mapped node when the shop knows it and nothing
      otherwise: an unknown id is dropped and not counted in `total`. */
  lemma ProductsByIdsOne(store: ProductStore, cfg: Config, id: string, lang: Option<string>)
    ensures ProductsProductIdsGet(store, cfg, Some([id]), lang) ==
      if ProductKey(cfg, lang, id) in store.nodes then ByIds([MapProduct(store.nodes[ProductKey(cfg, lang, id)], lang)], 1) else ByIds([], 0)
  {
    assert Gids("Product", [id]) == [Gid("Product", id)];
    ResolveNodesOne(store.nodes, RequestLocale(lang, cfg), Gid("Product", id));
  }

  /** The node the by-ids request asks for: the product's global id in the request locale. */
  function ProductKey(cfg: Config, lang: Option<string>, id: string): NodeKey {
    NodeKey(RequestLocale(lang, cfg), Gid("Product", id))
  }

  /** `c` is the mapped product of one of the requested ids the shop knows. */
  ghost predicate ItemOfKnownId(store: ProductStore, cfg: Config, lang: Option<string>, ids: seq<string>, c: ProductItem) {
    exists j :: 0 <= j < |ids| && ProductKey(cfg, lang, ids[j]) in store.nodes && c == MapProduct(store.nodes[ProductKey(cfg, lang, ids[j])], lang)
  }

  /** Mapping the nodes found keeps exactly the known ids, mapped. */
  lemma KnownIdItems(store: ProductStore, cfg: Config, lang: Option<string>, ids: seq<string>, mapped: seq<ProductItem>)
    requires var found := ResolveNodes(store.nodes, RequestLocale(lang, cfg), Gids("Product", ids));
      |mapped| == |found| && forall k :: 0 <= k < |found| ==> mapped[k] == MapProduct(found[k], lang)
    ensures forall k :: 0 <= k < |mapped| ==> ItemOfKnownId(store, cfg, lang, ids, mapped[k])
    ensures forall j :: 0 <= j < |ids| && ProductKey(cfg, lang, ids[j]) in store.nodes ==>
      MapProduct(store.nodes[ProductKey(cfg, lang, ids[j])], lang) in mapped
  {
    var locale := RequestLocale(lang, cfg);
    var found := ResolveNodes(store.nodes, locale, Gids("Product", ids));
    ResolvedKnownIds(store.nodes, locale, "Product", ids);
    forall k | 0 <= k < |mapped| ensures ItemOfKnownId(store, cfg, lang, ids, mapped[k]) {
      assert NodeOfKnownId(store.nodes, locale, "Product", ids, found[k]);
      var j :| 0 <= j < |ids| && NodeKey(locale, Gid("Product", ids[j])) in store.nodes && found[k] == store.nodes[NodeKey(locale, Gid("Product", ids[j]))];
      assert ProductKey(cfg, lang, ids[j]) == NodeKey(locale, Gid("Product", ids[j]));
    }
    forall j | 0 <= j < |ids| && ProductKey(cfg, lang, ids[j]) in store.nodes
      ensures MapProduct(store.nodes[ProductKey(cfg, lang, ids[j])], lang) in mapped
    {
      var n := store.nodes[ProductKey(cfg, lang, ids[j])];
      assert n in found;
      var k :| 0 <= k < |found| && found[k] == n;
      assert mapped[k] == MapProduct(n, lang);
    }
  }

  /** Without ids the result does not depend on the shop: no request is made. */
  lemma ProductsByIdsWithoutIds(s1: ProductStore, s2: ProductStore, cfg: Config, ids: Option<seq<string>>, lang: Option<string>)
    requires ids.None? || ids.value == []
    ensures ProductsProductIdsGet(s1, cfg, ids, lang) == ProductsProductIdsGet(s2, cfg, ids, lang) == ByIds([], 0)
  {
  }

  /** Asking a shop that knows every id, under its own global id, gives
      the ids back in request order, each the mapped product with its
      localized title. */
  lemma ProductsByIdsRoundTrip(store: ProductStore, cfg: Config, ids: seq<string>, lang: Option<string>)
    requires ids != []
    requires forall i :: 0 <= i < |ids| ==> '/' !in ids[i]
    requires forall i :: 0 <= i < |ids| ==>
      ProductKey(cfg, lang, ids[i]) in store.nodes && store.nodes[ProductKey(cfg, lang, ids[i])].id == Gid("Product", ids[i])
    ensures var r := ProductsProductIdsGet(store, cfg, Some(ids), lang);
      |r.items| == |ids| && forall i :: 0 <= i < |ids| ==>
        var node := store.nodes[ProductKey(cfg, lang, ids[i])];
        r.items[i] == MapProduct(node, lang) && r.items[i].id == ids[i] &&
        r.items[i].labelText == Localize(node.title, node.translations, "title", lang)
  {
    ResolveAll(store.nodes, RequestLocale(lang, cfg), Gids("Product", ids));
    forall i | 0 <= i < |ids| ensures LastSegment(Gid("Product", ids[i])) == ids[i] {
      GidDecodes("Product", ids[i]);
    }
  }

  /** `getProductIdByHandle`. */
  function GetProductIdByHandle(store: ProductStore, handle: string): (id: Option<string>)
    ensures id.Some? <==> handle in store.idByHandle && store.idByHandle[handle] != ""
    ensures id.Some? ==> '/' !in id.value
    ensures id.Some? ==> id.value == LastSegment(store.idByHandle[handle])
  {
    IdByHandle(store.idByHandle, handle)
  }

  /** `getProductHandleById`. */
  function GetProductHandleById(store: ProductStore, id: string): (handle: Option<string>)
    ensures handle.Some? <==> Gid("Product", id) in store.handleById && store.handleById[Gid("Product", id)] != ""
    ensures handle.Some? ==> handle.value == store.handleById[Gid("Product", id)]
  {
    HandleById(store.handleById, Gid("Product", id))
  }
}

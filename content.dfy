/** The content service: shop pages listed page by page, looked up by id
    or by handle, and created, updated and deleted from the page structure
    the bridge receives. */
module Content {
  import opened Values
  import opened Strings
  import opened Locale
  import opened Pagination
  import opened Shop

  /** A page as the listing and by-ids queries return it. */
  datatype PageNode = PageNode(id: string, title: string, handle: string, translations: seq<Keyed>)

  /** A page as the handle scan returns it: `{ id, handle }`. */
  datatype PageRef = PageRef(id: string, handle: string)

  /** The pages part of the shop. */
  datatype ContentStore = ContentStore(
    listings: map<ListQuery, seq<Page<PageNode>>>,  // `pages(query:)`, by locale and filter
    count: nat,                                     // `pagesCount.count ?? 0`
    nodes: map<NodeKey, PageNode>,                  // `nodes(ids:)`
    handlePages: seq<Page<PageRef>>,                // `pages` without locale or filter, `{ id handle }` only
    handleById: map<string, string>)                // `page(id).handle`

  /** A page after `mapContentData`: `{ id, label, extract }`. */
  datatype ContentItem = ContentItem(id: string, labelText: string, extract: Option<string>)

  /** The optional `query` variable of the listing request. */
  function ContentFilter(keyword: Option<string>): (q: Option<string>)
    ensures q.None? <==> !Truthy(FromOptional(keyword))
    ensures q.Some? ==>
      |q.value| == |keyword.value| + 8 && q.value[..7] == "title:*" &&
      q.value[7..|q.value| - 1] == keyword.value && q.value[|q.value| - 1] == '*'
  {
    if Truthy(FromOptional(keyword)) then Some("title:*" + keyword.value + "*") else None
  }

  /** `contentPage.id?.split('/').pop() || contentPage.id`. */
  function ContentId(raw: string): (id: string)
    ensures '/' in raw && raw[|raw| - 1] != '/' ==> '/' !in id && id != "" && |id| < |raw| && raw[|raw| - |id| - 1] == '/' && raw[|raw| - |id|..] == id
    ensures '/' !in raw ==> id == raw
    ensures raw != "" && raw[|raw| - 1] == '/' ==> id == raw
  {
    var seg := LastSegment(raw);
    if seg != "" then seg else raw
  }

  /** `mapContentData` for one page. The title and the handle are each
      resolved from the first translation with their own key. */
  function MapContent(p: PageNode, lang: Option<string>): (c: ContentItem)
    ensures c.id == ContentId(p.id)
    ensures c.labelText == Localize(p.title, p.translations, "title", lang)
    ensures var handle := Localize(p.handle, p.translations, "handle", lang);
      (c.extract.Some? <==> handle != "") && (c.extract.Some? ==> c.extract.value == "/" + handle)
  {
    var handle := Localize(p.handle, p.translations, "handle", lang);
    ContentItem(ContentId(p.id), Localize(p.title, p.translations, "title", lang),
                if handle != "" then Some("/" + handle) else None)
  }

  function MapContentData(ps: seq<PageNode>, lang: Option<string>): (cs: seq<ContentItem>)
    ensures |cs| == |ps|
    ensures forall i :: 0 <= i < |ps| ==> cs[i] == MapContent(ps[i], lang)
  {
    seq(|ps|, i requires 0 <= i < |ps| => MapContent(ps[i], lang))
  }

  /** A page with a title translation but no handle translation is shown
      with the translated title and keeps its default handle. */
  lemma TitleTranslatedHandleKept(p: PageNode, lang: Option<string>, i: nat)
    requires Translates(lang) && p.handle != ""
    requires IsFirst(p.translations, "title", i) && p.translations[i].value != ""
    requires forall j :: 0 <= j < |p.translations| ==> p.translations[j].key != "handle"
    ensures MapContent(p, lang).labelText == p.translations[i].value
    ensures MapContent(p, lang).extract == Some("/" + p.handle)
  {
  }

  /** The listing `fetchContentPages` walks. */
  function ContentPages(store: ContentStore, cfg: Config, lang: Option<string>, keyword: Option<string>): seq<Page<PageNode>> {
    ListingFor(store.listings, ListQuery(RequestLocale(lang, cfg), ContentFilter(keyword)))
  }

  /** `contentGet`: one page of content, with the total rule and the
      out-of-range rule. */
  method ContentGet(store: ContentStore, cfg: Config, keyword: Option<string>, lang: Option<string>, page: Option<int>)
    returns (r: Result<ListResult<ContentItem>>)
    ensures var pages := ContentPages(store, cfg, lang, keyword);
      var target := page.GetOr(1);
      var n := FetchCount(pages, target);
      var last := PageAt(pages, if n > 0 then n - 1 else 0);
      var mapped := MapContentData(last.items, lang);
      (r.Failure? <==> target < 1) &&
      (r.Failure? ==> r.error == TypeError("contentData is null")) &&
      (r.Success? ==>
        r.value.total == (if Truthy(FromOptional(keyword)) then |mapped| else store.count) &&
        r.value.endCursor == last.endCursor &&
        (n < target ==> r.value.items == [] && !r.value.hasNext) &&
        (n >= target ==> r.value.items == mapped && r.value.hasNext == last.hasNextPage))
  {
    var target := page.GetOr(1);
    var w := Paginate(ContentPages(store, cfg, lang, keyword), store.count, target);
    if w.last.None? {
      return Failure(TypeError("contentData is null"));
    }
    var contentData := w.last.value;
    var mappedData := MapContentData(contentData.data, lang);
    var total := if Truthy(FromOptional(keyword)) then |mappedData| else contentData.total;
    r := Success(Settle(mappedData, total, w, target));
  }

  /** `fetchContentPagesByIds`: no request for an absent or empty id list;
      otherwise the pages found, mapped. */
  function FetchContentPagesByIds(store: ContentStore, cfg: Config, ids: Option<seq<string>>, lang: Option<string>)
    : (r: ByIds<ContentItem>)
    ensures r.total == |r.items|
    ensures ids.None? || ids.value == [] ==> r == ByIds([], 0)
    ensures ids.Some? ==> |r.items| <= |ids.value|
    ensures ids.Some? ==> forall k :: 0 <= k < |r.items| ==> ItemOfKnownId(store, cfg, lang, ids.value, r.items[k])
    ensures ids.Some? ==> forall j :: 0 <= j < |ids.value| && PageKey(cfg, lang, ids.value[j]) in store.nodes ==>
      MapContent(store.nodes[PageKey(cfg, lang, ids.value[j])], lang) in r.items
    ensures ids.Some? ==> var found := ResolveNodes(store.nodes, RequestLocale(lang, cfg), Gids("Page", ids.value));
      |r.items| == |found| && forall k :: 0 <= k < |found| ==> r.items[k] == MapContent(found[k], lang)
  {
    if ids.None? || ids.value == [] then ByIds([], 0)
    else
      var locale := RequestLocale(lang, cfg);
      var mapped := MapContentData(ResolveNodes(store.nodes, locale, Gids("Page", ids.value)), lang);
      KnownIdItems(store, cfg, lang, ids.value, mapped);
      ByIds(mapped, |mapped|)
  }

  /** The answer for a concatenation of id lists is the two answers
      concatenated, so request order is kept and each id contributes on its own. */
  lemma ContentByIdsConcat(store: ContentStore, cfg: Config, a: seq<string>, b: seq<string>, lang: Option<string>)
    ensures var ra := FetchContentPagesByIds(store, cfg, Some(a), lang); var rb := FetchContentPagesByIds(store, cfg, Some(b), lang);
      FetchContentPagesByIds(store, cfg, Some(a + b), lang) == ByIds(ra.items + rb.items, ra.total + rb.total)
  {
    var locale := RequestLocale(lang, cfg);
    GidsConcat("Page", a, b);
    ResolveNodesConcat(store.nodes, locale, Gids("Page", a), Gids("Page", b));
    var na := ResolveNodes(store.nodes, locale, Gids("Page", a));
    var nb := ResolveNodes(store.nodes, locale, Gids("Page", b));
    var ra := FetchContentPagesByIds(store, cfg, Some(a), lang);
    var rb := FetchContentPagesByIds(store, cfg, Some(b), lang);
    var r := FetchContentPagesByIds(store, cfg, Some(a + b), lang);
    MappedConcat(n => MapContent(n, lang), na, nb, ra.items, rb.items, r.items);
  }

  /** One id gives its mapped node when the shop knows it and nothing
      otherwise: an unknown id is dropped and not counted in `total`. */
  lemma ContentByIdsOne(store: ContentStore, cfg: Config, id: string, lang: Option<string>)
    ensures FetchContentPagesByIds(store, cfg, Some([id]), lang) ==
      if PageKey(cfg, lang, id) in store.nodes then ByIds([MapContent(store.nodes[PageKey(cfg, lang, id)], lang)], 1) else ByIds([], 0)
  {
    assert Gids("Page", [id]) == [Gid("Page", id)];
    ResolveNodesOne(store.nodes, RequestLocale(lang, cfg), Gid("Page", id));
  }

  /** The node the by-ids request asks for: the page's global id in the request locale. */
  function PageKey(cfg: Config, lang: Option<string>, id: string): NodeKey {
    NodeKey(RequestLocale(lang, cfg), Gid("Page", id))
  }

  /** `c` is the mapped page of one of the requested ids the shop knows. */
  ghost predicate ItemOfKnownId(store: ContentStore, cfg: Config, lang: Option<string>, ids: seq<string>, c: ContentItem) {
    exists j :: 0 <= j < |ids| && PageKey(cfg, lang, ids[j]) in store.nodes && c == MapContent(store.nodes[PageKey(cfg, lang, ids[j])], lang)
  }

  /** Mapping the nodes found keeps exactly the known ids, mapped. */
  lemma KnownIdItems(store: ContentStore, cfg: Config, lang: Option<string>, ids: seq<string>, mapped: seq<ContentItem>)
    requires var found := ResolveNodes(store.nodes, RequestLocale(lang, cfg), Gids("Page", ids));
      |mapped| == |found| && forall k :: 0 <= k < |found| ==> mapped[k] == MapContent(found[k], lang)
    ensures forall k :: 0 <= k < |mapped| ==> ItemOfKnownId(store, cfg, lang, ids, mapped[k])
    ensures forall j :: 0 <= j < |ids| && PageKey(cfg, lang, ids[j]) in store.nodes ==>
      MapContent(store.nodes[PageKey(cfg, lang, ids[j])], lang) in mapped
  {
    var locale := RequestLocale(lang, cfg);
    var found := ResolveNodes(store.nodes, locale, Gids("Page", ids));
    ResolvedKnownIds(store.nodes, locale, "Page", ids);
    forall k | 0 <= k < |mapped| ensures ItemOfKnownId(store, cfg, lang, ids, mapped[k]) {
      assert NodeOfKnownId(store.nodes, locale, "Page", ids, found[k]);
      var j :| 0 <= j < |ids| && NodeKey(locale, Gid("Page", ids[j])) in store.nodes && found[k] == store.nodes[NodeKey(locale, Gid("Page", ids[j]))];
      assert PageKey(cfg, lang, ids[j]) == NodeKey(locale, Gid("Page", ids[j]));
    }
    forall j | 0 <= j < |ids| && PageKey(cfg, lang, ids[j]) in store.nodes
      ensures MapContent(store.nodes[PageKey(cfg, lang, ids[j])], lang) in mapped
    {
      var n := store.nodes[PageKey(cfg, lang, ids[j])];
      assert n in found;
      var k :| 0 <= k < |found| && found[k] == n;
      assert mapped[k] == MapContent(n, lang);
    }
  }

  /** Without ids the result does not depend on the shop: no request is made. */
  lemma ContentByIdsWithoutIds(s1: ContentStore, s2: ContentStore, cfg: Config, ids: Option<seq<string>>, lang: Option<string>)
    requires ids.None? || ids.value == []
    ensures FetchContentPagesByIds(s1, cfg, ids, lang) == FetchContentPagesByIds(s2, cfg, ids, lang) == ByIds([], 0)
  {
  }

  /** A shop that knows every requested page gives one item per id, in
      request order. */
  lemma ContentByIdsComplete(store: ContentStore, cfg: Config, ids: seq<string>, lang: Option<string>)
    requires ids != []
    requires forall i :: 0 <= i < |ids| ==> PageKey(cfg, lang, ids[i]) in store.nodes
    ensures var r := FetchContentPagesByIds(store, cfg, Some(ids), lang);
      |r.items| == |ids| &&
      forall i :: 0 <= i < |ids| ==> r.items[i] == MapContent(store.nodes[PageKey(cfg, lang, ids[i])], lang)
  {
    ResolveAll(store.nodes, RequestLocale(lang, cfg), Gids("Page", ids));
  }

  // ----- Handle lookup -----

  /** The edge `edges.find(e => e.node?.handle === handle)` stops at, `|refs|` when none matches. */
  function FirstWithHandle(refs: seq<PageRef>, handle: string): (i: nat)
    ensures i <= |refs|
    ensures i < |refs| ==> refs[i].handle == handle
    ensures forall j :: 0 <= j < i ==> refs[j].handle != handle
    decreases |refs|
  {
    if refs == [] then 0
    else if refs[0].handle == handle then 0
    else 1 + FirstWithHandle(refs[1..], handle)
  }

  lemma {:induction false} FirstWithHandleConcat(a: seq<PageRef>, b: seq<PageRef>, handle: string)
    ensures FirstWithHandle(a + b, handle) ==
      if FirstWithHandle(a, handle) < |a| then FirstWithHandle(a, handle) else |a| + FirstWithHandle(b, handle)
    decreases |a|
  {
    if a != [] {
      assert (a + b)[0] == a[0];
      assert (a + b)[1..] == a[1..] + b;
      if a[0].handle != handle {
        FirstWithHandleConcat(a[1..], b, handle);
      }
    } else {
      assert a + b == b;
    }
  }

  /** The id a matching edge yields: `pageId ? pageId.split('/').pop() : null`. */
  function DecodeMatch(ref: PageRef): (id: Option<string>)
    ensures id.Some? <==> ref.id != ""
    ensures id.Some? ==> '/' !in id.value && |id.value| <= |ref.id| && ref.id[|ref.id| - |id.value|..] == id.value
  {
    if ref.id != "" then Some(LastSegment(ref.id)) else None
  }

  /** The id of the first page with the handle in a flat list of pages. */
  function FirstIdWithHandle(refs: seq<PageRef>, handle: string): Option<string> {
    var i := FirstWithHandle(refs, handle);
    if i < |refs| then DecodeMatch(refs[i]) else None
  }

  /** The page-by-page search of `getContentIdByHandle`, from page `k` on. */
  function SearchFrom(pages: seq<Page<PageRef>>, handle: string, k: nat): Option<string>
    decreases |pages| - k
  {
    if k >= |pages| then None
    else
      var refs := pages[k].items;
      var i := FirstWithHandle(refs, handle);
      if i < |refs| then DecodeMatch(refs[i])
      else if pages[k].hasNextPage then SearchFrom(pages, handle, k + 1)
      else None
  }

  /** Searching page by page finds what searching the full scan finds: the
      first page with the handle in cursor order. */
  lemma {:induction false} SearchIsFirstInScan(pages: seq<Page<PageRef>>, handle: string, k: nat)
    ensures SearchFrom(pages, handle, k) == FirstIdWithHandle(ScanFrom(pages, k), handle)
    decreases |pages| - k
  {
    if k < |pages| {
      var refs := pages[k].items;
      var rest := if pages[k].hasNextPage then ScanFrom(pages, k + 1) else [];
      assert ScanFrom(pages, k) == refs + rest;
      FirstWithHandleConcat(refs, rest, handle);
      var i := FirstWithHandle(refs, handle);
      if i < |refs| {
        assert (refs + rest)[i] == refs[i];
      } else if pages[k].hasNextPage {
        SearchIsFirstInScan(pages, handle, k + 1);
        var j := FirstWithHandle(rest, handle);
        if j < |rest| {
          assert (refs + rest)[|refs| + j] == rest[j];
        }
      } else {
        assert FirstWithHandle(refs + rest, handle) == |refs + rest|;
      }
    }
  }

  /** `getContentIdByHandle`: walk the pages while there is a next page and
      return the decoded id of the first page with the handle. */
  method GetContentIdByHandle(store: ContentStore, handle: string) returns (id: Option<string>)
    ensures id == FirstIdWithHandle(ScanFrom(store.handlePages, 0), handle)
    ensures id.Some? ==> '/' !in id.value
  {
    var pages := store.handlePages;
    SearchIsFirstInScan(pages, handle, 0);
    var k := 0;
    var hasNextPage := true;
    while hasNextPage
      invariant hasNextPage ==> k <= |pages|
      invariant SearchFrom(pages, handle, 0) == if hasNextPage then SearchFrom(pages, handle, k) else None
      decreases if hasNextPage then |pages| + 1 - k else 0
    {
      var edges := PageAt(pages, k).items;
      var i := FirstWithHandle(edges, handle);
      if i < |edges| {
        var pageId := edges[i].id;
        return if pageId != "" then Some(LastSegment(pageId)) else None;
      }
      hasNextPage := PageAt(pages, k).hasNextPage;
      k := k + 1;
    }
    return None;
  }

  /** `getContentHandleById`. */
  function GetContentHandleById(store: ContentStore, id: string): (handle: Option<string>)
    ensures handle.Some? <==> Gid("Page", id) in store.handleById && store.handleById[Gid("Page", id)] != ""
    ensures handle.Some? ==> handle.value == store.handleById[Gid("Page", id)]
  {
    HandleById(store.handleById, Gid("Page", id))
  }

  // ----- Input shaping -----

  /** A loosely typed field of the bridge's page structure. A localized
      field is an object whose entries map a locale (`key`) to a value. */
  datatype Field = Missing | Null | Text(s: string) | Flag(b: bool) | Object(entries: seq<Keyed>)

  predicate FieldTruthy(f: Field) {
    match f
    case Missing => false
    case Null => false
    case Text(s) => s != ""
    case Flag(b) => b
    case Object(_) => true
  }

  /** The page structure the bridge receives. */
  datatype BridgePage = BridgePage(labelField: Field, pageUid: Field, handle: Field, path: Field, released: Field, template: Field)

  /** A localized field reduced to one value: `f[DEFAULT_LANG] || Object.values(f)[0]`. */
  function ResolveLocalized(f: Field, defaultLang: string): (r: Field)
    ensures !f.Object? ==> r == f
    ensures r.Missing? || r.Null? || r.Text? || r.Flag?
    ensures f.Object? ==>
      var v := FirstValue(f.entries, defaultLang);
      (v.Some? ==> r == Text(v.value)) &&
      (v.None? && f.entries != [] ==> r == Text(f.entries[0].value)) &&
      (v.None? && f.entries == [] ==> r == Missing)
  {
    if f.Object? then
      var v := FirstValue(f.entries, defaultLang);
      if v.Some? then Text(v.value)
      else if f.entries != [] then Text(f.entries[0].value)
      else Missing
    else f
  }

  /** The page input of the create and update mutations. */
  datatype ShopifyPageInput = ShopifyPageInput(title: Field, handle: Field, isPublished: bool, templateSuffix: Field)

  /** `shopifyPageFromBridge`. */
  function ShopifyPageFromBridge(bp: BridgePage, cfg: Config): (sp: ShopifyPageInput)
    ensures sp.title == ResolveLocalized(bp.labelField, cfg.defaultLang)
    ensures sp.handle == ResolveLocalized(if FieldTruthy(bp.pageUid) then bp.pageUid else bp.handle, cfg.defaultLang)
    ensures !sp.title.Object? && !sp.handle.Object?
    ensures sp.isPublished <==> bp.released.Missing? || FieldTruthy(bp.released)
    ensures FieldTruthy(sp.templateSuffix)
    ensures FieldTruthy(bp.template) ==> sp.templateSuffix == bp.template
    ensures !FieldTruthy(bp.template) ==> sp.templateSuffix == Text("content")
  {
    var title := ResolveLocalized(bp.labelField, cfg.defaultLang);
    var handle := ResolveLocalized(if FieldTruthy(bp.pageUid) then bp.pageUid else bp.handle, cfg.defaultLang);
    var isPublished := if !bp.released.Missing? then FieldTruthy(bp.released) else true;
    var templateSuffix := if FieldTruthy(bp.template) then bp.template else Text("content");
    ShopifyPageInput(title, handle, isPublished, templateSuffix)
  }

  /** One entry of `translationsRegister`. */
  datatype TranslationInput = TranslationInput(locale: string, key: string, value: string, translatableContentDigest: string)

  /** The translations of one localized field: every locale but the
      default one, in entry order, each carrying the field's digest. */
  function FieldTranslations(f: Field, key: string, digest: Option<string>, defaultLang: string): (ts: seq<TranslationInput>)
    ensures !(digest.Some? && digest.value != "" && f.Object?) ==> ts == []
    ensures forall i :: 0 <= i < |ts| ==>
      ts[i].key == key && ts[i].locale != defaultLang && ts[i].translatableContentDigest == digest.value &&
      Keyed(ts[i].locale, ts[i].value) in f.entries
    ensures digest.Some? && digest.value != "" && f.Object? ==>
      forall e :: e in f.entries && e.key != defaultLang ==> TranslationInput(e.key, key, e.value, digest.value) in ts
  {
    if digest.Some? && digest.value != "" && f.Object? then OtherLocales(f.entries, key, digest.value, defaultLang)
    else []
  }

  /** `Object.entries(f).filter(([locale]) => locale !== DEFAULT_LANG).map(...)`. */
  function OtherLocales(entries: seq<Keyed>, key: string, digest: string, defaultLang: string): (ts: seq<TranslationInput>)
    ensures |ts| <= |entries|
    ensures forall i :: 0 <= i < |ts| ==>
      ts[i].key == key && ts[i].locale != defaultLang && ts[i].translatableContentDigest == digest &&
      Keyed(ts[i].locale, ts[i].value) in entries
    ensures forall e :: e in entries && e.key != defaultLang ==> TranslationInput(e.key, key, e.value, digest) in ts
    decreases |entries|
  {
    if entries == [] then []
    else
      var rest := OtherLocales(entries[1..], key, digest, defaultLang);
      assert forall e :: e in entries[1..] ==> e in entries;
      assert forall e :: e in entries ==> e == entries[0] || e in entries[1..];
      var e := entries[0];
      if e.key != defaultLang then [TranslationInput(e.key, key, e.value, digest)] + rest else rest
  }
  /** The translations of a concatenation of entries concatenate: entry
      order and every repeated locale are kept. */
  lemma {:induction false} OtherLocalesConcat(a: seq<Keyed>, b: seq<Keyed>, key: string, digest: string, defaultLang: string)
    ensures OtherLocales(a + b, key, digest, defaultLang) == OtherLocales(a, key, digest, defaultLang) + OtherLocales(b, key, digest, defaultLang)
    decreases |a|
  {
    if a == [] {
      assert a + b == b;
    } else {
      assert (a + b)[0] == a[0];
      assert (a + b)[1..] == a[1..] + b;
      OtherLocalesConcat(a[1..], b, key, digest, defaultLang);
    }
  }

  /** One entry gives one translation unless it is the default locale. */
  lemma OtherLocalesOne(e: Keyed, key: string, digest: string, defaultLang: string)
    ensures OtherLocales([e], key, digest, defaultLang) ==
      if e.key != defaultLang then [TranslationInput(e.key, key, e.value, digest)] else []
  {
    assert [e][1..] == [];
  }


  /** `createTranslations`: the title translations from `label`, then the
      handle translations from `path`. */
  function CreateTranslations(bp: BridgePage, titleDigest: Option<string>, handleDigest: Option<string>, cfg: Config)
    : (ts: seq<TranslationInput>)
    ensures forall i :: 0 <= i < |ts| ==> ts[i].locale != cfg.defaultLang
    ensures forall i, j :: 0 <= i < j < |ts| && ts[j].key == "title" ==> ts[i].key == "title"
    ensures forall i :: 0 <= i < |ts| && ts[i].key == "title" ==> Some(ts[i].translatableContentDigest) == titleDigest
    ensures forall i :: 0 <= i < |ts| && ts[i].key == "handle" ==> Some(ts[i].translatableContentDigest) == handleDigest
    ensures forall i :: 0 <= i < |ts| ==> ts[i].key == "title" || ts[i].key == "handle"
  {
    FieldTranslations(bp.labelField, "title", titleDigest, cfg.defaultLang) +
    FieldTranslations(bp.path, "handle", handleDigest, cfg.defaultLang)
  }

  /** Every non-default locale of a localized label is translated once a
      title digest exists, and likewise for the path and the handle digest. */
  lemma TranslationsComplete(bp: BridgePage, titleDigest: Option<string>, handleDigest: Option<string>, cfg: Config, e: Keyed)
    requires e.key != cfg.defaultLang
    ensures var ts := CreateTranslations(bp, titleDigest, handleDigest, cfg);
      (titleDigest.Some? && titleDigest.value != "" && bp.labelField.Object? && e in bp.labelField.entries ==>
        TranslationInput(e.key, "title", e.value, titleDigest.value) in ts) &&
      (handleDigest.Some? && handleDigest.value != "" && bp.path.Object? && e in bp.path.entries ==>
        TranslationInput(e.key, "handle", e.value, handleDigest.value) in ts)
  {
  }

  // ----- Mutations -----

  /** The responses the shop gives to the content mutations. */
  datatype MutationResult = MutationResult(pageId: Option<string>, userErrors: seq<string>)
  datatype DeleteResult = DeleteResult(deletedPageId: string, userErrors: seq<string>)

  datatype ContentMutations = ContentMutations(
    create: ShopifyPageInput -> MutationResult,                   // `pageCreate`
    update: (string, ShopifyPageInput) -> MutationResult,         // `pageUpdate`
    delete: string -> DeleteResult,                               // `pageDelete`
    translatableContent: string -> seq<Keyed>)                    // `translatableResource`: key and digest

  /** The requests a mutation sends, in order. */
  datatype Call =
    | PageCreate(page: ShopifyPageInput)
    | PageUpdate(id: string, page: ShopifyPageInput)
    | PageDelete(id: string)
    | FetchDigests(resourceId: string)
    | RegisterTranslations(resourceId: string, translations: seq<TranslationInput>)

  /** A mutation's result and the requests it sent. */
  datatype Outcome<T> = Outcome(result: Result<T>, calls: seq<Call>)

  /** `registerTranslations`: no request for an absent or empty list. */
  function RegisterCalls(resourceId: string, translations: Option<seq<TranslationInput>>): (calls: seq<Call>)
    ensures calls == [] <==> translations.None? || translations.value == []
    ensures calls != [] ==> calls == [RegisterTranslations(resourceId, translations.value)]
  {
    if translations.None? || translations.value == [] then [] else [RegisterTranslations(resourceId, translations.value)]
  }

  /** `fetchTranslationDigests` followed by `createTranslations` and
      `registerTranslations` for one resource. */
  function TranslationCalls(bp: BridgePage, resourceId: string, m: ContentMutations, cfg: Config): (calls: seq<Call>)
    ensures var content := m.translatableContent(resourceId);
      var ts := CreateTranslations(bp, FirstValue(content, "title"), FirstValue(content, "handle"), cfg);
      calls == [FetchDigests(resourceId)] + RegisterCalls(resourceId, Some(ts))
  {
    var content := m.translatableContent(resourceId);
    var titleDigest := FirstValue(content, "title");
    var handleDigest := FirstValue(content, "handle");
    var ts := CreateTranslations(bp, titleDigest, handleDigest, cfg);
    [FetchDigests(resourceId)] + RegisterCalls(resourceId, Some(ts))
  }

  /** `contentPost`: create the page, then register its translations; the
      result is the decoded id of the new page. */
  function ContentPost(bp: BridgePage, m: ContentMutations, cfg: Config): (o: Outcome<string>)
    ensures var sp := ShopifyPageFromBridge(bp, cfg); var res := m.create(sp);
      |o.calls| >= 1 && o.calls[0] == PageCreate(sp) &&
      (res.pageId.None? ==> o == Outcome(Failure(MutationFailed("pageCreate", res.userErrors)), [PageCreate(sp)])) &&
      (res.pageId.Some? ==>
        o.result == Success(LastSegment(res.pageId.value)) &&
        o.calls == [PageCreate(sp)] + TranslationCalls(bp, res.pageId.value, m, cfg))
  {
    var sp := ShopifyPageFromBridge(bp, cfg);
    var res := m.create(sp);
    if res.pageId.None? then Outcome(Failure(MutationFailed("pageCreate", res.userErrors)), [PageCreate(sp)])
    else
      var resourceId := res.pageId.value;
      Outcome(Success(LastSegment(resourceId)), [PageCreate(sp)] + TranslationCalls(bp, resourceId, m, cfg))
  }

  /** A created page whose global id is `gid://shopify/Page/<id>` is reported as `<id>`. */
  lemma PostReturnsNumericId(bp: BridgePage, m: ContentMutations, cfg: Config, id: string)
    requires '/' !in id
    requires m.create(ShopifyPageFromBridge(bp, cfg)).pageId == Some(Gid("Page", id))
    ensures ContentPost(bp, m, cfg).result == Success(id)
  {
    GidDecodes("Page", id);
  }

  /** The request body of an update: a JSON object, or anything else. */
  datatype RequestBody = Scalar(v: JsValue) | Json(page: BridgePage)

  const BodyRequired := "Request body is required and must be an object for updating a content page."

  /** `contentContentIdPut`: reject a body that is not an object before any
      request; otherwise update the page and register its translations
      under the page's global id. */
  function ContentContentIdPut(contentId: string, body: RequestBody, m: ContentMutations, cfg: Config): (o: Outcome<()>)
    ensures body.Scalar? ==> o == Outcome(Failure(ParameterValidationError(BodyRequired)), [])
    ensures body.Json? ==>
      var pageId := Gid("Page", contentId); var sp := ShopifyPageFromBridge(body.page, cfg); var res := m.update(pageId, sp);
      |o.calls| >= 1 && o.calls[0] == PageUpdate(pageId, sp) &&
      (res.pageId.None? ==> o == Outcome(Failure(MutationFailed("pageUpdate", res.userErrors)), [PageUpdate(pageId, sp)])) &&
      (res.pageId.Some? ==>
        o.result == Success(()) && o.calls == [PageUpdate(pageId, sp)] + TranslationCalls(body.page, pageId, m, cfg))
  {
    if body.Scalar? then Outcome(Failure(ParameterValidationError(BodyRequired)), [])
    else
      var sp := ShopifyPageFromBridge(body.page, cfg);
      var pageId := Gid("Page", contentId);
      var res := m.update(pageId, sp);
      if res.pageId.None? then Outcome(Failure(MutationFailed("pageUpdate", res.userErrors)), [PageUpdate(pageId, sp)])
      else Outcome(Success(()), [PageUpdate(pageId, sp)] + TranslationCalls(body.page, pageId, m, cfg))
  }

  /** `contentContentIdDelete`: fails when the shop reports no deleted id. */
  function ContentContentIdDelete(contentId: string, m: ContentMutations): (o: Outcome<()>)
    ensures o.calls == [PageDelete(Gid("Page", contentId))]
    ensures var res := m.delete(Gid("Page", contentId));
      (o.result.Failure? <==> res.deletedPageId == "") &&
      (o.result.Failure? ==> o.result.error == MutationFailed("pageDelete", res.userErrors))
  {
    var pageId := Gid("Page", contentId);
    var res := m.delete(pageId);
    if res.deletedPageId == "" then Outcome(Failure(MutationFailed("pageDelete", res.userErrors)), [PageDelete(pageId)])
    else Outcome(Success(()), [PageDelete(pageId)])
  }

  /** A failed create never registers translations: translations are only
      sent for a page the shop confirmed. */
  lemma NoTranslationsAfterFailedPost(bp: BridgePage, m: ContentMutations, cfg: Config)
    ensures ContentPost(bp, m, cfg).result.Failure? ==>
      forall c :: c in ContentPost(bp, m, cfg).calls ==> !c.RegisterTranslations? && !c.FetchDigests?
  {
    var o := ContentPost(bp, m, cfg);
    if o.result.Failure? {
      assert o.calls == [PageCreate(ShopifyPageFromBridge(bp, cfg))];
    }
  }

  /** Likewise for a rejected or failed update. */
  lemma NoTranslationsAfterFailedPut(contentId: string, body: RequestBody, m: ContentMutations, cfg: Config)
    ensures ContentContentIdPut(contentId, body, m, cfg).result.Failure? ==>
      forall c :: c in ContentContentIdPut(contentId, body, m, cfg).calls ==> !c.RegisterTranslations? && !c.FetchDigests?
  {
    var o := ContentContentIdPut(contentId, body, m, cfg);
    if o.result.Failure? && body.Json? {
      assert o.calls == [PageUpdate(Gid("Page", contentId), ShopifyPageFromBridge(body.page, cfg))];
    }
  }
}

# Shopify bridge services in Dafny

This project models the service layer of a bridge between a content
management system and a Shopify shop. The shop's four services are
covered:

- **Categories**: custom collections, listed page by page, looked up by id
  or handle, built into a tree and flattened back.
- **Content**: shop pages, listed, looked up, created, updated and deleted.
- **Products**: listed in a collection or by title, filtered locally by
  keyword.
- **Mapping**: turns a storefront URL into an identifier and back.

Every request to the Admin API is replaced by plain data. A listing is the
finite sequence of pages a cursor walk visits, each page with its items,
`endCursor` and `hasNextPage`. A count is a number. A lookup by handle or
by id is a map. The response to a mutation is a function of its input.
`DEFAULT_LANG` and the storefront language map are an explicit `Config`.

Modules:

- `Values`: `Option`, `Result`, the errors the services raise, and JavaScript truthiness.
- `Strings`: `split('/')`, `pop()`, ASCII lower-casing and `includes`.
- `Locale`: the request locale and the translation rule all mappers share.
- `Pagination`: the page walk, the out-of-range rule and full scans.
- `Shop`: listings, by-ids node lookup and the single-field lookups.
- `Categories`, `Content`, `Products`, `Mapping`: one module per service.

The pagination loop (`Pagination.Paginate`) is a method with a `while` loop
and its invariants. It is proved against `FetchCount`, the number of
fetches a walk makes. The three listing services call it. The loops of
`categoryTreeGet` and `getContentIdByHandle` and the `reduce` of
`flattenCategories` are also methods. Each is proved equal to a function:
`ScanFrom`, `FirstIdWithHandle` over the scan, and `PreOrder`. The rest of
the model and the lemmas are stated in terms of those functions.

The recursion of `buildCategoryTree` terminates only on parent links
without cycles. `BuildCategoryTree` therefore takes a ghost rank that
decreases along parent links. The services only ever see categories whose
parent is `'root'`. For these, `BuildFlatTree` decides the one case that
recurses for ever: building from `'root'` when some category has the id
`'root'`. It reports that case as the stack overflow the source would hit.

## Model

| member | source | states |
|---|---|---|
| Locale.RequestLocale | src/service/CategoriesService.js:106 | the `locale` variable is `lang` when truthy, else `DEFAULT_LANG` |
| Locale.Translates | src/service/CategoriesService.js:27 | translations are consulted exactly when `lang` is present, non-empty and not 'default' |
| Locale.FirstIndexOf | src/service/CategoriesService.js:28 | the index `find` stops at: the first entry with the key, or the length when none has it |
| Locale.FirstValue | src/service/ContentService.js:196-197 | the value of the first entry with the key; none when that value is empty or no entry has the key |
| Locale.Localize | src/service/CategoriesService.js:25-32 | the default unless translations apply; then the first entry with the key if its value is non-empty, else the default |
| Locale.LaterEntriesIgnored | src/service/CategoriesService.js:28-31 | once an entry with the key exists, entries appended after it never change the result, whatever the first entry's value |
| Locale.LocalizeSource | src/service/CategoriesService.js:25-32 | the label is always either the default or the value of some entry with the key |
| Strings.Split | src/service/CategoriesService.js:168 | `split('/')` gives '/'-free segments that join back to the input |
| Strings.SplitJoin | src/service/MappingService.js:29 | splitting a join of '/'-free segments gives those segments back |
| Strings.LastSegment | src/service/CategoriesService.js:168 | `pop()` of the split is '/'-free, a suffix, and preceded by '/' unless it is the whole string |
| Strings.DecodeAppended | src/service/ProductsService.js:206 | decoding `prefix/id` gives back the '/'-free `id` |
| Strings.ToLower | src/service/ProductsService.js:145-146 | length kept, each character lowered, no upper-case letter left |
| Strings.ToLowerIdempotent | src/service/ProductsService.js:145-146 | lowering twice is lowering once |
| Strings.Contains | src/service/ProductsService.js:146 | `includes` holds exactly when the substring occurs at some index |
| Pagination.PageAt | src/service/ProductsService.js:85-87 | past the stored pages a fetch returns no items, a `null` cursor and no next page |
| Pagination.LastFetchFrom | src/service/CategoriesService.js:204-212 | a walk from fetch `current` ends at the target or at the first page without a next page |
| Pagination.FetchCount | src/service/CategoriesService.js:196-215 | no fetch below page 1; otherwise between 1 and the target, all pages before the last have a next page, and stopping early means the last has none |
| Pagination.FetchCountIs | src/service/CategoriesService.js:204-212 | these conditions determine the fetch count uniquely |
| Pagination.Paginate | src/service/CategoriesService.js:196-215 | `actualPage` is the fetch count; the state is that of the last page fetched, or the initial `null`s; stopping before the target means no next page (the same loop is at src/service/ProductsService.js:113-129 and src/service/ContentService.js:235-253) |
| Pagination.MapItems | src/service/CategoriesService.js:125-131 | mapping the nodes of every page keeps the page structure and cursors |
| Pagination.Settle | src/service/CategoriesService.js:239-243 | out of range: no items and no next page; otherwise the items and the walk's `hasNextPage`; `total` and cursor kept either way |
| Pagination.ScanSplits | src/service/CategoriesService.js:270-275 | the full scan is the items of the pages a walk passes through, followed by the scan from there |
| Pagination.WalkPageInScan | src/service/CategoriesService.js:270-275 | the page a paginated walk ends on is a contiguous slice of the full scan |
| Shop.ListingFor | src/service/ProductsService.js:85 | an unknown query yields no pages |
| Shop.GidDecodes | src/service/CategoriesService.js:152 | decoding `gid://shopify/<kind>/<id>` gives back the id |
| Shop.ResolveNodes | src/service/CategoriesService.js:156-159 | `filter(Boolean)` keeps only nodes of requested ids the shop knows, and every such node; never more than requested, all when all are known |
| Shop.ResolveNodesConcat | src/service/CategoriesService.js:156-159 | resolving concatenated id lists concatenates the results, so request order and each id's contribution are kept |
| Shop.ResolveNodesOne | src/service/CategoriesService.js:156-159 | one id gives its node when the shop knows it and nothing otherwise |
| Shop.ResolveAll | src/service/CategoriesService.js:156-159 | with every id known, the nodes come back one per id in request order |
| Shop.ResolvedKnownIds | src/service/CategoriesService.js:157-159 | each node found is the node of a requested id the shop knows, and every such id has its node among those found |
| Shop.FieldOrNull | src/service/CategoriesService.js:306 | an or-null read: present exactly when the field is present and non-empty |
| Shop.IdByHandle | src/service/CategoriesService.js:292-294 | an id exactly when the handle lookup gives a non-empty global id; the id is that global id decoded, so it is '/'-free |
| Shop.HandleById | src/service/CategoriesService.js:306 | a handle exactly when the global id has a non-empty handle, and then that handle |
| Shop.HandleRoundTrip | src/service/CategoriesService.js:289-307 | on agreeing indexes, the id of the handle of an id is that id |
| Categories.CategoryFilter | src/service/CategoriesService.js:107 | `collection_type:custom`, with a keyword narrowed to titles containing it |
| Categories.CategoryRow | src/service/CategoriesService.js:125-131 | decoded id, title as name, translations kept, no parent |
| Categories.NoParents | src/service/CategoriesService.js:129 | every fetched page holds records without a parent |
| Categories.ScanNoParents | src/service/CategoriesService.js:270-275 | the full scan also holds only records without a parent |
| Categories.AllPagesNoParents | src/service/CategoriesService.js:129 | every record of every page of a category listing has no parent |
| Categories.MapCategory | src/service/CategoriesService.js:23-38 | id kept, label by the translation rule, parent `parent_category_id ?? 'root'` |
| Categories.MapCategoryData | src/service/CategoriesService.js:23-38 | one mapped category per record, in order |
| Categories.MappedAreRootChildren | src/service/CategoriesService.js:36 | records without a parent map to categories whose parent is 'root' |
| Categories.CheckIfEmpty | src/service/CategoriesService.js:46-51 | false for `''`, `undefined`, `null`, `0`; true for a non-empty string; JavaScript truthiness over the values modelled |
| Categories.WithParent | src/service/CategoriesService.js:69 | `filter` keeps only categories with that parent, and every category with it |
| Categories.WithParentConcat | src/service/CategoriesService.js:69 | filtering a concatenation concatenates the filters, so the list order and each repetition are kept |
| Categories.WithParentOne | src/service/CategoriesService.js:69 | one category is kept exactly when its parent is the one asked for |
| Categories.BuildCategoryTree | src/service/CategoriesService.js:67-74 | the top level is the children of `parentId` in list order; each node carries a `children` key exactly when the tree built from its own id is non-empty, and then that tree is its `children` |
| Categories.FlattenedAreReached | src/service/CategoriesService.js:67-74 | every item of the flattened tree is a listed category whose parent is `parentId` or the id of an item of the flattening, and ranks strictly below `parentId` |
| Categories.ReachedAreFlattened | src/service/CategoriesService.js:67-74 | the flattening is closed under parent links: every listed category whose parent is `parentId`, or the id of an item of the flattening, is in it |
| Categories.FlattenedAreReachable | src/service/CategoriesService.js:67-74 | every item of the flattened tree is the last category of a chain of parent links down from `parentId` |
| Categories.ReachableAreFlattened | src/service/CategoriesService.js:67-74 | the last category of every chain of parent links down from `parentId` is in the flattened tree |
| Categories.RepeatedIdCountedTwice | src/service/CategoriesService.js:67-74 | with the id "X" listed twice and "Y" below "X", three categories build a tree of four nodes, so the count can exceed the length of the list when ids repeat |
| Categories.PreOrderConcat | src/service/CategoriesService.js:82-90 | flattening distributes over concatenation of forests |
| Categories.FlattenCategories | src/service/CategoriesService.js:82-90 | the result is the pre-order listing with `children` dropped |
| Categories.CountIsFlattenedLength | src/service/CategoriesService.js:58 | `countCategories` is the length of the flattening |
| Categories.CountCategories | src/service/CategoriesService.js:58 | at least one per top-level node |
| Categories.Leaves | src/service/CategoriesService.js:72 | the categories as childless nodes in order |
| Categories.Items | src/service/CategoriesService.js:84 | the categories reduced to id and label, in order |
| Categories.LeavesFlatten | src/service/CategoriesService.js:58 | a childless forest flattens to its items, and its count is its length |
| Categories.WithParentAll | src/service/CategoriesService.js:69 | filtering on the common parent keeps the whole list |
| Categories.WithParentNone | src/service/CategoriesService.js:69 | filtering on a parent nobody has gives nothing |
| Categories.FlatTreeFromRoot | src/service/CategoriesService.js:67-74 | a list whose parents are all 'root', without the id 'root', builds from 'root' into itself as leaves |
| Categories.FlatTreeFromOther | src/service/CategoriesService.js:67-74 | such a list built from any other id is empty |
| Categories.RootIdRecurses | src/service/CategoriesService.js:67-74 | with a category whose id is 'root', no rank bounds the recursion from 'root' |
| Categories.BuildFlatTree | src/service/CategoriesService.js:67-74 | overflow exactly when building from 'root' with an id 'root'; otherwise leaves from 'root' and nothing from other ids |
| Categories.CategoriesGet | src/service/CategoriesService.js:227-244 | `null` data below page 1; overflow case; otherwise the flattened page from 'root' (empty from any other parent), `total` by the keyword rule, the out-of-range rule |
| Categories.ListCategories | src/service/CategoriesService.js:230-243 | over any listing whose records have no parent: `null` data below page 1, the overflow case, otherwise the flattened page with `total` by the keyword rule and the out-of-range rule |
| Categories.FlatCategories | src/service/CategoriesService.js:232-235 | one page of records without parents flattens to its items from 'root' and to nothing from another parent, or overflows exactly when building from 'root' with an id 'root' |
| Pagination.CollectAll | src/service/CategoriesService.js:266-275 | the loop collects exactly the full scan: every page up to and including the first without a next page |
| Categories.CategoryTreeGet | src/service/CategoriesService.js:265-282 | the tree of all scanned categories from `parentId` (default 'root') and its count, or the overflow |
| Categories.FetchCategoriesByIds | src/service/CategoriesService.js:148-174 | no ids: empty with total 0; otherwise each item is the mapped collection of a requested id the shop knows, every such id gives its mapped collection, '/'-free ids; the items are the resolved nodes mapped one by one in request order, total their number |
| Categories.ByIdsConcat | src/service/CategoriesService.js:148-174 | the answer for concatenated id lists is the two answers concatenated, totals added |
| Categories.ByIdsOne | src/service/CategoriesService.js:148-174 | one id gives its mapped collection with total 1 when the shop knows it, and an empty answer with total 0 otherwise |
| Categories.ByIdsItem | src/service/CategoriesService.js:159-171 | the decoded id and the title by the translation rule |
| Categories.ByIdsWithoutIds | src/service/CategoriesService.js:149 | without ids the result does not depend on the shop |
| Categories.ByIdsRoundTrip | src/service/CategoriesService.js:148-174 | a shop knowing every id returns those ids in request order, each with its title by the translation rule |
| Categories.GetCategoryIdByHandle | src/service/CategoriesService.js:289-295 | an id exactly when the handle is known with a non-empty id; the id is the global id's last segment, so '/'-free |
| Categories.GetCategoryHandleById | src/service/CategoriesService.js:302-307 | a handle exactly when the collection's global id has a non-empty handle, and then that handle |
| Content.ContentFilter | src/service/ContentService.js:133 | a `title:*<keyword>*` query exactly when the keyword is truthy |
| Content.ContentId | src/service/ContentService.js:45 | the last segment when non-empty, else the raw id |
| Content.MapContent | src/service/ContentService.js:29-49 | id decoded, title and handle each by the translation rule, extract `'/' + handle` exactly when the handle is non-empty |
| Content.MapContentData | src/service/ContentService.js:29-49 | one item per page, in order |
| Content.TitleTranslatedHandleKept | src/service/ContentService.js:31-43 | a title translation without a handle translation gives the translated label and the default handle |
| Content.ContentGet | src/service/ContentService.js:264-276 | `null` data exactly below page 1; `total` by the keyword rule; the out-of-range rule |
| Content.FetchContentPagesByIds | src/service/ContentService.js:168-180 | no ids: empty with total 0; otherwise each item is the mapped page of a requested id the shop knows, every such id gives its mapped page; the items are the resolved pages mapped one by one in request order, total their number |
| Content.ContentByIdsConcat | src/service/ContentService.js:168-180 | the answer for concatenated id lists is the two answers concatenated, totals added |
| Content.ContentByIdsOne | src/service/ContentService.js:168-180 | one id gives its mapped page with total 1 when the shop knows it, and an empty answer with total 0 otherwise |
| Content.ContentByIdsWithoutIds | src/service/ContentService.js:169 | without ids the result does not depend on the shop |
| Content.ContentByIdsComplete | src/service/ContentService.js:168-180 | a shop knowing every id returns one mapped page per id in order |
| Content.FirstWithHandle | src/service/ContentService.js:392 | `find` stops at the first edge with the handle, or the end |
| Content.FirstWithHandleConcat | src/service/ContentService.js:386-402 | searching a concatenation searches the first part, then the second |
| Content.DecodeMatch | src/service/ContentService.js:395-396 | an id exactly when the matched page has a non-empty id; then its '/'-free last segment |
| Content.SearchIsFirstInScan | src/service/ContentService.js:386-402 | the page-by-page search finds the first match in the full scan |
| Content.GetContentIdByHandle | src/service/ContentService.js:382-405 | the decoded id of the first page with the handle in cursor order, `null` when none |
| Content.GetContentHandleById | src/service/ContentService.js:413-417 | a handle exactly when the page's global id has a non-empty handle, and then that handle |
| Content.ResolveLocalized | src/service/ContentService.js:65-67 | an object becomes its `DEFAULT_LANG` value, else its first value; other values pass through |
| Content.ShopifyPageFromBridge | src/service/ContentService.js:63-80 | title and handle (`pageUid` first) resolved; `isPublished` is `!!released` or true when undefined; `templateSuffix` always present, `template` or 'content' |
| Content.OtherLocales | src/service/ContentService.js:93-100 | exactly the non-default locales, each carrying the digest |
| Content.OtherLocalesConcat | src/service/ContentService.js:93-100 | the translations of concatenated entries concatenate, keeping entry order and repetitions |
| Content.OtherLocalesOne | src/service/ContentService.js:93-100 | one entry gives one translation unless its locale is the default |
| Content.FieldTranslations | src/service/ContentService.js:91-113 | nothing without a truthy digest and an object field; otherwise every non-default locale, each with the digest |
| Content.CreateTranslations | src/service/ContentService.js:90-116 | title entries precede handle entries, each with its own digest, none for the default locale |
| Content.TranslationsComplete | src/service/ContentService.js:90-116 | every non-default locale of the label and the path is translated once its digest exists |
| Content.RegisterCalls | src/service/ContentService.js:208-213 | no request exactly for an absent or empty list |
| Content.TranslationCalls | src/service/ContentService.js:188-213 | fetch the digests, then register the translations built from them |
| Content.ContentPost | src/service/ContentService.js:296-317 | create; no page: failure after the one request; otherwise the decoded id and the translation requests |
| Content.PostReturnsNumericId | src/service/ContentService.js:316 | a created `gid://shopify/Page/<id>` is reported as `<id>` |
| Content.ContentContentIdPut | src/service/ContentService.js:328-353 | a body that is not an object fails before any request; a failed update sends nothing more; otherwise translations under the page's global id |
| Content.ContentContentIdDelete | src/service/ContentService.js:362-374 | one delete request; failure exactly when no id is reported deleted |
| Content.NoTranslationsAfterFailedPost | src/service/ContentService.js:304-314 | a failed create never fetches digests or registers translations |
| Content.NoTranslationsAfterFailedPut | src/service/ContentService.js:329-352 | a rejected body or a failed update never fetches digests or registers translations |
| Products.ProductFilter | src/service/ProductsService.js:56-62 | no `query` exactly when neither a collection nor a keyword is given |
| Products.FilterRoundTrip | src/service/ProductsService.js:56-62 | the collection wins over the keyword, and either can be read back from the expression |
| Products.MapProduct | src/service/ProductsService.js:23-43 | id decoded, label by the translation rule, extract the non-empty description, image and thumbnail both the first image |
| Products.MapProductData | src/service/ProductsService.js:23-43 | one product per node, in order |
| Products.MatchesKeyword | src/service/ProductsService.js:146 | only a product with a label matches; the empty keyword matches every labelled product |
| Products.MatchIgnoresKeywordCase | src/service/ProductsService.js:145-146 | matching does not depend on the keyword's case |
| Products.KeywordFilter | src/service/ProductsService.js:146 | keeps exactly the products whose non-empty label contains the keyword, ignoring case |
| Products.KeywordFilterKeepsOrder | src/service/ProductsService.js:146 | the filtered list is a subsequence of the page |
| Products.KeywordFilterConcat | src/service/ProductsService.js:146 | filtering a concatenation concatenates the filters, keeping order and repetitions |
| Products.KeywordFilterOne | src/service/ProductsService.js:146 | one product is kept exactly when it matches |
| Products.ProductsGet | src/service/ProductsService.js:139-156 | `null` data exactly below page 1; local filter only with both collection and keyword; `total` the local count with either, else the server count; the out-of-range rule |
| Products.ProductsProductIdsGet | src/service/ProductsService.js:164-193 | no ids: empty with total 0; otherwise each item is the mapped product of a requested id the shop knows, every such id gives its mapped product; the items are the resolved products mapped one by one in request order, total their number |
| Products.ProductsByIdsConcat | src/service/ProductsService.js:164-193 | the answer for concatenated id lists is the two answers concatenated, totals added |
| Products.ProductsByIdsOne | src/service/ProductsService.js:164-193 | one id gives its mapped product with total 1 when the shop knows it, and an empty answer with total 0 otherwise |
| Products.ProductsByIdsWithoutIds | src/service/ProductsService.js:165 | without ids the result does not depend on the shop |
| Products.ProductsByIdsRoundTrip | src/service/ProductsService.js:164-193 | a shop knowing every id returns those ids in request order, each the mapped product with its title by the translation rule |
| Products.GetProductIdByHandle | src/service/ProductsService.js:200-207 | an id exactly when the handle is known with a non-empty id; the id is the global id's last segment, so '/'-free |
| Products.GetProductHandleById | src/service/ProductsService.js:215-221 | a handle exactly when the product's global id has a non-empty handle, and then that handle |
| Mapping.JoinPath3 | src/service/MappingService.js:29 | `/a/b/c` and `/a/b/c/` are the splits `["",a,b,c]` and `["",a,b,c,""]` joined |
| Mapping.JoinPath2 | src/service/MappingService.js:36 | `/b/c` and `/b/c/` are the splits `["",b,c]` and `["",b,c,""]` joined |
| Mapping.Match3 | src/service/MappingService.js:29-33 | a match has three non-empty '/'-free groups and the path is `/a/b/c` with an optional trailing '/' |
| Mapping.Match2 | src/service/MappingService.js:36-40 | a match has two such groups, the path is `/b/c` with an optional trailing '/', and the language is `DEFAULT_LANG` |
| Mapping.MatchPath | src/service/MappingService.js:29-41 | the first pattern wins when it matches; a match is a three-segment path, or a two-segment path the first pattern missed, in `DEFAULT_LANG` |
| Mapping.Match3Complete | src/service/MappingService.js:29-33 | every path `/a/b/c`, with or without trailing '/', matches with those groups |
| Mapping.Match2Complete | src/service/MappingService.js:36-40 | every path `/b/c`, with or without trailing '/', falls back to the second pattern |
| Mapping.TypeOf | src/service/MappingService.js:22-27 | products→product, collections→category, pages→content; any other section passes through |
| Mapping.OrNull | src/service/MappingService.js:47-53 | an absent id is `null`, a present one its string |
| Mapping.PathOf | src/service/MappingService.js:20 | an `http://` or `https://` URL is reduced to its path, anything else is used as it is |
| Mapping.ResolveId | src/service/MappingService.js:45-55 | the three types resolve the handle through their service; any other keeps the handle |
| Mapping.LookupUrlGet | src/service/MappingService.js:16-59 | no match: everything `undefined`; otherwise the mapped type, the language and the resolved id |
| Mapping.AbsoluteUrl | src/service/MappingService.js:20 | an absolute URL looks up as its path |
| Mapping.UnknownSectionKeepsHandle | src/service/MappingService.js:43-58 | under an unknown section the handle is the id, unresolved |
| Mapping.MappedLang | src/service/MappingService.js:73 | `languageMap[lang]` when non-empty, else `lang` |
| Mapping.UrlLang | src/service/MappingService.js:69-72 | `lang` or `DEFAULT_LANG`, lower-cased: same length and no upper-case letter left |
| Mapping.LangPrefix | src/service/MappingService.js:72-75 | empty exactly when the lower-cased language is `DEFAULT_LANG`, else '/' and the mapped language |
| Mapping.SectionOf | src/service/MappingService.js:77-90 | a section exactly for the three types, and it maps back to the type |
| Mapping.HandleFor | src/service/MappingService.js:79-87 | `product`, `category` and `content` ask the products, collections and pages service for the handle of the id's global id, a missing or empty handle giving `null`; any other type has no handle; a reported handle is non-empty |
| Mapping.HandleText | src/service/MappingService.js:80 | a handle prints as itself and a missing one as "null" |
| Mapping.StorefrontUrlGet | src/service/MappingService.js:69-94 | no URL exactly for an unknown type; otherwise prefix, section and handle (`null` printed as such) |
| Mapping.StorefrontLookup | src/service/MappingService.js:16-94 | looking up an element's URL gives its type, the language its prefix names, and the id the handle resolves to |
| Mapping.ProductUrlRoundTrip | src/service/MappingService.js:16-94 | on agreeing indexes a product's URL looks up to its id |
| Mapping.CategoryUrlRoundTrip | src/service/MappingService.js:16-94 | on agreeing indexes a category's URL looks up to its id |

## Left out

- Network I/O, `async`/`await`, the HTTP client and logging. Every request is a lookup in plain data, and the order of awaited calls is not modelled except as the call log of the content mutations.
- Cursor resolution: the `k`-th fetch of a walk is taken to return page `k` of the listing. The model does not check that the `after` cursor selects it.
- The `null` end cursor and the empty-string cursor: `endCursor || null` makes them one value, and the model keeps `Option<string>` as given.
- Responses whose `edges` or `nodes` hold `null` entries, other than the `filter(Boolean)` of the by-ids requests, which is modelled.
- `new URL(url).pathname` is the function parameter `pathname`. WHATWG URL parsing is not modelled.
- `toLowerCase` and `includes` are modelled on ASCII letters only, not full Unicode case mapping.
- Object-as-map quirks of JavaScript: inherited keys of `typeMap` and `languageMap` such as `constructor`, the ordering of integer-like keys in `Object.entries`, and duplicate keys. Localized fields and the language map are modelled as entry lists and maps.
- Values of the wrong JavaScript type: a `null` `lang` in `storefrontUrlGet` (a crash in the source), a `null` `parentId` passed explicitly to `categoryTreeGet` (the default then does not apply), numeric or array request bodies beyond "not an object", a `null` bridge page in `contentPost`, and a created page without an `id`.
- `Categories.CategoriesGet`: without a `parentId` the code passes `undefined`, the default `'root'` applies, and the tree is still built; the model follows the code. With a `parentId` other than `'root'` the flat listing yields no categories. Both follow from every collection being listed with no parent.
- `Categories.BuildCategoryTree`: proved only for parent links that admit a decreasing rank, which is exactly the acyclic case. The service-level methods decide the one divergent case they can meet instead.
- `Categories.BuildCategoryTree`: the law that flattening the tree built from `p` lists each category reachable from `p` exactly once, and that `countCategories(buildTree(L, 'root')) <= |L|`, holds only when ids are distinct. With ids repeated it fails in the source as in the model: `[X/a/root, X/b/root, Y/c/X]` builds a tree of four nodes (src/service/CategoriesService.js:69-71 builds the subtree below `X` once per category with that id; `Categories.RepeatedIdCountedTwice` proves the count). The model proves the membership half for every ranked list: an item is in the flattening exactly when it is the last category of a chain of parent links down from `p` (`FlattenedAreReachable`, `ReachableAreFlattened`); the exactly-once and count bound for distinct ids are not proved.
- `Mapping.LookupUrlGet` uses the scan function `FirstIdWithHandle` for content pages, because a function cannot call a method. `Content.GetContentIdByHandle` is proved to compute exactly that scan.
- `Pagination.Paginate`: every fetch reports the same count. The source asks for the count on every fetch in all three services (src/service/CategoriesService.js:133, src/service/ContentService.js:153, and the products query); categories and content also ask once before the walk (src/service/CategoriesService.js:202, src/service/ContentService.js:241), but that value is never used: the answer takes `total` from the last fetch. The model takes the count as a fixed `count` of the shop.
- `Pagination.Paginate`, `Pagination.CollectAll`, `Content.GetContentIdByHandle`: a listing is a finite sequence of pages, so every walk ends. The source's `while (hasNextPage)` loops (src/service/CategoriesService.js:270, src/service/ContentService.js:386) never end against a backend that keeps reporting `hasNextPage: true`; the model does not capture that divergence.
- `extract` of a product is `${description}` in the source. The model keeps the string without the template-literal conversion, which is the identity on strings.
- Error messages: the `Error` values name the failure (`TypeError`, `StackOverflow`, `ParameterValidationError`, the failed mutation with its user errors). The JSON text of thrown messages is not modelled.

/** The mapping service: a storefront URL is read back into the
    identifier of the category, product or content page it shows, and an
    identifier is turned into its storefront URL. */
module Mapping {
  import opened Values
  import opened Strings
  import opened Locale
  import opened Pagination
  import opened Shop
  import Categories
  import Products
  import Content

  /** The three parts of the shop the lookups consult. */
  datatype Backends = Backends(categories: Categories.CollectionStore, products: Products.ProductStore, content: Content.ContentStore)

  /** What `[^\/]+` matches: a non-empty run of characters other than '/'. */
  predicate Segment(s: string) {
    s != "" && '/' !in s
  }

  function Path3(a: string, b: string, c: string): string {
    "/" + a + "/" + b + "/" + c
  }

  function Path2(b: string, c: string): string {
    "/" + b + "/" + c
  }

  /** A path of the form `/a/b/c` is the split `["", a, b, c]` joined. */
  lemma JoinPath3(a: string, b: string, c: string)
    ensures Join(["", a, b, c]) == Path3(a, b, c)
    ensures Join(["", a, b, c, ""]) == Path3(a, b, c) + "/"
  {
    assert ["", a, b, c][1..] == [a, b, c] && [a, b, c][1..] == [b, c] && [b, c][1..] == [c];
    assert Join([b, c]) == b + "/" + c;
    assert Join([a, b, c]) == a + "/" + (b + "/" + c);
    assert Join(["", a, b, c]) == "" + "/" + (a + "/" + (b + "/" + c));
    assert ["", a, b, c, ""][1..] == [a, b, c, ""] && [a, b, c, ""][1..] == [b, c, ""];
    assert [b, c, ""][1..] == [c, ""] && [c, ""][1..] == [""];
    assert Join([c, ""]) == c + "/" + "";
    assert Join([b, c, ""]) == b + "/" + (c + "/" + "");
    assert Join([a, b, c, ""]) == a + "/" + (b + "/" + (c + "/" + ""));
    assert Join(["", a, b, c, ""]) == "" + "/" + (a + "/" + (b + "/" + (c + "/" + "")));
  }

  /** A path of the form `/b/c` is the split `["", b, c]` joined. */
  lemma JoinPath2(b: string, c: string)
    ensures Join(["", b, c]) == Path2(b, c)
    ensures Join(["", b, c, ""]) == Path2(b, c) + "/"
  {
    assert ["", b, c][1..] == [b, c] && [b, c][1..] == [c];
    assert Join([b, c]) == b + "/" + c;
    assert Join(["", b, c]) == "" + "/" + (b + "/" + c);
    assert ["", b, c, ""][1..] == [b, c, ""] && [b, c, ""][1..] == [c, ""] && [c, ""][1..] == [""];
    assert Join([c, ""]) == c + "/" + "";
    assert Join([b, c, ""]) == b + "/" + (c + "/" + "");
    assert Join(["", b, c, ""]) == "" + "/" + (b + "/" + (c + "/" + ""));
  }

  /** The parts a URL path is read into: language, shop section and handle. */
  datatype Route = Route(lang: string, section: string, handle: string)

  /** `path.match(/^\/([^\/]+)\/([^\/]+)\/([^\/]+)\/?$/)`, with the language
      taken from the first group. */
  function Match3(path: string): (r: Option<Route>)
    ensures r.Some? ==>
      var Route(a, b, c) := r.value;
      Segment(a) && Segment(b) && Segment(c) && (path == Path3(a, b, c) || path == Path3(a, b, c) + "/")
  {
    var segs := Split(path);
    if (|segs| == 4 || (|segs| == 5 && segs[4] == "")) && segs[0] == "" &&
       Segment(segs[1]) && Segment(segs[2]) && Segment(segs[3])
    then
      JoinPath3(segs[1], segs[2], segs[3]);
      assert |segs| == 4 ==> segs == ["", segs[1], segs[2], segs[3]];
      assert |segs| == 5 ==> segs == ["", segs[1], segs[2], segs[3], ""];
      Some(Route(segs[1], segs[2], segs[3]))
    else None
  }

  /** The fallback `path.match(/^\/([^\/]+)\/([^\/]+)\/?$/)` for paths
      without a language prefix; the language is `DEFAULT_LANG`. */
  function Match2(path: string, defaultLang: string): (r: Option<Route>)
    ensures r.Some? ==>
      var Route(l, b, c) := r.value;
      l == defaultLang && Segment(b) && Segment(c) && (path == Path2(b, c) || path == Path2(b, c) + "/")
  {
    var segs := Split(path);
    if (|segs| == 3 || (|segs| == 4 && segs[3] == "")) && segs[0] == "" && Segment(segs[1]) && Segment(segs[2])
    then
      JoinPath2(segs[1], segs[2]);
      assert |segs| == 3 ==> segs == ["", segs[1], segs[2]];
      assert |segs| == 4 ==> segs == ["", segs[1], segs[2], ""];
      Some(Route(defaultLang, segs[1], segs[2]))
    else None
  }

  /** The first pattern that matches decides. */
  function MatchPath(path: string, cfg: Config): (r: Option<Route>)
    ensures Match3(path).Some? ==> r == Match3(path)
    ensures r.Some? ==>
      var Route(l, b, c) := r.value;
      Segment(b) && Segment(c) &&
      ((Segment(l) && (path == Path3(l, b, c) || path == Path3(l, b, c) + "/")) ||
       (Match3(path).None? && l == cfg.defaultLang && (path == Path2(b, c) || path == Path2(b, c) + "/")))
  {
    var m := Match3(path);
    if m.Some? then m else Match2(path, cfg.defaultLang)
  }

  /** Every path of the first form, with or without a trailing '/', is
      read into its three segments. */
  lemma Match3Complete(a: string, b: string, c: string, cfg: Config)
    requires Segment(a) && Segment(b) && Segment(c)
    ensures MatchPath(Path3(a, b, c), cfg) == Some(Route(a, b, c))
    ensures MatchPath(Path3(a, b, c) + "/", cfg) == Some(Route(a, b, c))
  {
    JoinPath3(a, b, c);
    assert SlashFree(["", a, b, c]) && SlashFree(["", a, b, c, ""]);
    SplitJoin(["", a, b, c]);
    SplitJoin(["", a, b, c, ""]);
  }

  /** Every path of the second form, with or without a trailing '/', is
      read into its section and handle, in the default language. */
  lemma Match2Complete(b: string, c: string, cfg: Config)
    requires Segment(b) && Segment(c)
    ensures MatchPath(Path2(b, c), cfg) == Some(Route(cfg.defaultLang, b, c))
    ensures MatchPath(Path2(b, c) + "/", cfg) == Some(Route(cfg.defaultLang, b, c))
  {
    JoinPath2(b, c);
    assert SlashFree(["", b, c]) && SlashFree(["", b, c, ""]);
    SplitJoin(["", b, c]);
    SplitJoin(["", b, c, ""]);
  }

  /** `typeMap[shopType] || shopType`. */
  function TypeOf(section: string): (kind: string)
    ensures section == "products" ==> kind == "product"
    ensures section == "collections" ==> kind == "category"
    ensures section == "pages" ==> kind == "content"
    ensures section !in {"products", "collections", "pages"} ==> kind == section
  {
    if section == "products" then "product"
    else if section == "collections" then "category"
    else if section == "pages" then "content"
    else section
  }

  /** `Option` as the JS value a lookup resolves to: a string or `null`. */
  function OrNull(o: Option<string>): (v: JsValue)
    ensures o.None? <==> v == Null
    ensures o.Some? ==> v == Str(o.value)
  {
    if o.Some? then Str(o.value) else Null
  }

  /** The `switch (type)` of the lookup: the three known types ask their
      service for the id of the handle; any other type keeps the handle. */
  function ResolveId(kind: string, handle: string, b: Backends): (id: JsValue)
    ensures kind == "category" ==> id == OrNull(Categories.GetCategoryIdByHandle(b.categories, handle))
    ensures kind == "product" ==> id == OrNull(Products.GetProductIdByHandle(b.products, handle))
    ensures kind == "content" ==> id == OrNull(Content.FirstIdWithHandle(ScanFrom(b.content.handlePages, 0), handle))
    ensures kind !in {"category", "product", "content"} ==> id == Str(handle)
  {
    if kind == "category" then OrNull(Categories.GetCategoryIdByHandle(b.categories, handle))
    else if kind == "product" then OrNull(Products.GetProductIdByHandle(b.products, handle))
    else if kind == "content" then OrNull(Content.FirstIdWithHandle(ScanFrom(b.content.handlePages, 0), handle))
    else Str(handle)
  }

  /** What `lookupUrlGet` returns: `{ id, type, lang }`; `None` is `undefined`. */
  datatype Identifier = Identifier(id: JsValue, kind: Option<string>, lang: Option<string>)

  /** An absolute `http(s)` URL is reduced to its path by `pathname`
      (`new URL(url).pathname`); anything else is a path already. */
  function PathOf(url: string, pathname: string -> string): (path: string)
    ensures StartsWith(url, "http://") || StartsWith(url, "https://") ==> path == pathname(url)
    ensures !StartsWith(url, "http://") && !StartsWith(url, "https://") ==> path == url
  {
    if StartsWith(url, "http://") || StartsWith(url, "https://") then pathname(url) else url
  }

  /** `lookupUrlGet`: a URL that matches neither pattern gives `undefined`
      for all three fields. */
  function LookupUrlGet(url: string, cfg: Config, pathname: string -> string, b: Backends): (r: Identifier)
    ensures MatchPath(PathOf(url, pathname), cfg).None? ==> r == Identifier(Undefined, None, None)
    ensures MatchPath(PathOf(url, pathname), cfg).Some? ==>
      var Route(l, section, handle) := MatchPath(PathOf(url, pathname), cfg).value;
      r.kind == Some(TypeOf(section)) && r.lang == Some(l) && r.id == ResolveId(TypeOf(section), handle, b)
  {
    var m := MatchPath(PathOf(url, pathname), cfg);
    if m.None? then Identifier(Undefined, None, None)
    else Identifier(ResolveId(TypeOf(m.value.section), m.value.handle, b), Some(TypeOf(m.value.section)), Some(m.value.lang))
  }

  /** An absolute URL gives the same identifier as its path. */
  lemma AbsoluteUrl(url: string, cfg: Config, pathname: string -> string, b: Backends)
    requires StartsWith(url, "http://") || StartsWith(url, "https://")
    requires !StartsWith(pathname(url), "http://") && !StartsWith(pathname(url), "https://")
    ensures LookupUrlGet(url, cfg, pathname, b) == LookupUrlGet(pathname(url), cfg, pathname, b)
  {
  }

  /** A handle under an unknown section is returned as the id, unresolved. */
  lemma UnknownSectionKeepsHandle(a: string, section: string, handle: string, cfg: Config, pathname: string -> string, b: Backends)
    requires Segment(a) && Segment(section) && Segment(handle)
    requires TypeOf(section) !in {"category", "product", "content"}
    ensures LookupUrlGet(Path3(a, section, handle), cfg, pathname, b) == Identifier(Str(handle), Some(section), Some(a))
    ensures LookupUrlGet(Path2(section, handle), cfg, pathname, b) == Identifier(Str(handle), Some(section), Some(cfg.defaultLang))
  {
    Match3Complete(a, section, handle, cfg);
    LookupOfPath(Path3(a, section, handle), Route(a, section, handle), cfg, pathname, b);
    Match2Complete(section, handle, cfg);
    LookupOfPath(Path2(section, handle), Route(cfg.defaultLang, section, handle), cfg, pathname, b);
  }

  /** The language of a storefront URL: `lang` or `DEFAULT_LANG`, lower-cased. */
  function UrlLang(lang: Option<string>, cfg: Config): (l: string)
    ensures |l| == |lang.GetOr(cfg.defaultLang)|
    ensures ToLower(l) == l
    ensures lang.Some? ==> l == ToLower(lang.value)
    ensures lang.None? ==> l == ToLower(cfg.defaultLang)
  {
    ToLowerIdempotent(lang.GetOr(cfg.defaultLang));
    ToLower(lang.GetOr(cfg.defaultLang))
  }

  /** `languageMap[lang] || lang`. */
  function MappedLang(l: string, cfg: Config): (m: string)
    ensures l in cfg.languageMap && cfg.languageMap[l] != "" ==> m == cfg.languageMap[l]
    ensures !(l in cfg.languageMap && cfg.languageMap[l] != "") ==> m == l
  {
    if l in cfg.languageMap && cfg.languageMap[l] != "" then cfg.languageMap[l] else l
  }

  /** The language prefix: empty exactly when the lower-cased language is
      `DEFAULT_LANG`, otherwise '/' and the mapped language. */
  function LangPrefix(lang: Option<string>, cfg: Config): (p: string)
    ensures p == "" <==> UrlLang(lang, cfg) == cfg.defaultLang
    ensures p != "" ==> p == "/" + MappedLang(UrlLang(lang, cfg), cfg)
  {
    var l := UrlLang(lang, cfg);
    if l == cfg.defaultLang then "" else "/" + MappedLang(l, cfg)
  }

  /** The storefront section of a type; other types have none. */
  function SectionOf(kind: string): (section: Option<string>)
    ensures section.Some? <==> kind in {"product", "category", "content"}
    ensures section.Some? ==> TypeOf(section.value) == kind
  {
    if kind == "product" then Some("products")
    else if kind == "category" then Some("collections")
    else if kind == "content" then Some("pages")
    else None
  }

  /** The handle the service of a type reports for an id. */
  function HandleFor(kind: string, id: string, b: Backends): (h: Option<string>)
    ensures h.Some? ==> h.value != ""
    ensures kind == "product" ==> h == FieldOrNull(b.products.handleById, Gid("Product", id))
    ensures kind == "category" ==> h == FieldOrNull(b.categories.handleById, Gid("Collection", id))
    ensures kind == "content" ==> h == FieldOrNull(b.content.handleById, Gid("Page", id))
    ensures kind !in {"product", "category", "content"} ==> h.None?
  {
    if kind == "product" then Products.GetProductHandleById(b.products, id)
    else if kind == "category" then Categories.GetCategoryHandleById(b.categories, id)
    else if kind == "content" then Content.GetContentHandleById(b.content, id)
    else None
  }

  /** A handle in a template literal: `null` prints as "null". */
  function HandleText(h: Option<string>): (t: string)
    ensures h.Some? ==> t == h.value
    ensures h.None? ==> t == "null"
  {
    if h.Some? then h.value else "null"
  }

  /** `storefrontUrlGet`: the URL of an element; `None` (`url` undefined)
      for a type that is not one of the three. */
  function StorefrontUrlGet(kind: string, id: string, lang: Option<string>, cfg: Config, b: Backends): (url: Option<string>)
    ensures url.None? <==> SectionOf(kind).None?
    ensures url.Some? ==> url.value == LangPrefix(lang, cfg) + "/" + SectionOf(kind).value + "/" + HandleText(HandleFor(kind, id, b))
  {
    var section := SectionOf(kind);
    if section.None? then None
    else Some(LangPrefix(lang, cfg) + "/" + section.value + "/" + HandleText(HandleFor(kind, id, b)))
  }

  /** A relative path is looked up as itself. */
  lemma LookupOfPath(path: string, r: Route, cfg: Config, pathname: string -> string, b: Backends)
    requires path != [] && path[0] == '/'
    requires MatchPath(path, cfg) == Some(r)
    ensures LookupUrlGet(path, cfg, pathname, b) == Identifier(ResolveId(TypeOf(r.section), r.handle, b), Some(TypeOf(r.section)), Some(r.lang))
  {
    assert !StartsWith(path, "http://") && !StartsWith(path, "https://") by {
      assert "http://"[0] == 'h' && "https://"[0] == 'h';
    }
  }

  /** The two shapes a storefront URL takes. */
  lemma UrlShapes(m: string, section: string, h: string)
    ensures "" + "/" + section + "/" + h == Path2(section, h)
    ensures ("/" + m) + "/" + section + "/" + h == Path3(m, section, h)
  {
  }

  /** Looking up the URL of an element gives back its type, the language
      its prefix names (the mapped one, or `DEFAULT_LANG` without prefix),
      and what the type's service resolves the handle to. */
  lemma StorefrontLookup(kind: string, id: string, lang: Option<string>, cfg: Config, pathname: string -> string, b: Backends)
    requires SectionOf(kind).Some?
    requires HandleFor(kind, id, b).Some? && '/' !in HandleFor(kind, id, b).value
    requires UrlLang(lang, cfg) != cfg.defaultLang ==> Segment(MappedLang(UrlLang(lang, cfg), cfg))
    ensures var url := StorefrontUrlGet(kind, id, lang, cfg, b).value;
      var l := UrlLang(lang, cfg);
      var h := HandleFor(kind, id, b).value;
      LookupUrlGet(url, cfg, pathname, b) ==
        Identifier(ResolveId(kind, h, b), Some(kind), Some(if l == cfg.defaultLang then cfg.defaultLang else MappedLang(l, cfg)))
  {
    var url := StorefrontUrlGet(kind, id, lang, cfg, b).value;
    var section := SectionOf(kind).value;
    var h := HandleFor(kind, id, b).value;
    var l := UrlLang(lang, cfg);
    var m := MappedLang(l, cfg);
    var prefix := LangPrefix(lang, cfg);
    assert url == prefix + "/" + section + "/" + h;
    UrlShapes(m, section, h);
    if l == cfg.defaultLang {
      assert url == Path2(section, h);
      Match2Complete(section, h, cfg);
      LookupOfPath(url, Route(cfg.defaultLang, section, h), cfg, pathname, b);
    } else {
      assert url == Path3(m, section, h);
      Match3Complete(m, section, h, cfg);
      LookupOfPath(url, Route(m, section, h), cfg, pathname, b);
    }
  }

  /** On a shop whose handle and id indexes agree for a product, its
      storefront URL looks up to its id. */
  lemma ProductUrlRoundTrip(id: string, lang: Option<string>, cfg: Config, pathname: string -> string, b: Backends)
    requires '/' !in id
    requires var g := Gid("Product", id);
      g in b.products.handleById && Segment(b.products.handleById[g]) &&
      b.products.handleById[g] in b.products.idByHandle && b.products.idByHandle[b.products.handleById[g]] == g
    requires UrlLang(lang, cfg) != cfg.defaultLang ==> Segment(MappedLang(UrlLang(lang, cfg), cfg))
    ensures LookupUrlGet(StorefrontUrlGet("product", id, lang, cfg, b).value, cfg, pathname, b).id == Str(id)
  {
    HandleRoundTrip(b.products.idByHandle, b.products.handleById, "Product", id);
    StorefrontLookup("product", id, lang, cfg, pathname, b);
  }

  /** The same for a category (a collection). */
  lemma CategoryUrlRoundTrip(id: string, lang: Option<string>, cfg: Config, pathname: string -> string, b: Backends)
    requires '/' !in id
    requires var g := Gid("Collection", id);
      g in b.categories.handleById && Segment(b.categories.handleById[g]) &&
      b.categories.handleById[g] in b.categories.idByHandle && b.categories.idByHandle[b.categories.handleById[g]] == g
    requires UrlLang(lang, cfg) != cfg.defaultLang ==> Segment(MappedLang(UrlLang(lang, cfg), cfg))
    ensures LookupUrlGet(StorefrontUrlGet("category", id, lang, cfg, b).value, cfg, pathname, b).id == Str(id)
  {
    HandleRoundTrip(b.categories.idByHandle, b.categories.handleById, "Collection", id);
    StorefrontLookup("category", id, lang, cfg, pathname, b);
  }
}

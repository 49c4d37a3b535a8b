/** The locale rules every mapper shares: which locale a request is sent
    with, when a node's translations are consulted at all, and which
    translation entry wins. */
module Locale {
  import opened Values

  /** Deployment settings: `DEFAULT_LANG` and the storefront language map. */
  datatype Config = Config(defaultLang: string, languageMap: map<string, string>)

  /** One `{ key, value }` entry of a node's `translations`, or of a
      resource's translatable content (`key`, `digest`). A `null` value is
      the empty string: both are falsy and neither is ever used. */
  datatype Keyed = Keyed(key: string, value: string)

  /** The `locale` variable of a query: `lang || DEFAULT_LANG`. */
  function RequestLocale(lang: Option<string>, cfg: Config): (locale: string)
    ensures Truthy(FromOptional(lang)) ==> locale == lang.value
    ensures !Truthy(FromOptional(lang)) ==> locale == cfg.defaultLang
  {
    if lang.Some? && lang.value != "" then lang.value else cfg.defaultLang
  }

  /** Translations are consulted only when `lang` is truthy and not 'default'. */
  predicate Translates(lang: Option<string>): (t: bool)
    ensures t <==> lang.Some? && lang.value != "" && lang.value != "default"
  {
    Truthy(FromOptional(lang)) && lang.value != "default"
  }

  /** `i` is the entry that `entries.find(t => t.key === key)` returns. */
  ghost predicate IsFirst(entries: seq<Keyed>, key: string, i: int) {
    0 <= i < |entries| && entries[i].key == key &&
    forall j :: 0 <= j < i ==> entries[j].key != key
  }

  /** The index `find` stops at, `|entries|` when no entry has the key. */
  function FirstIndexOf(entries: seq<Keyed>, key: string): (i: nat)
    ensures i <= |entries|
    ensures i < |entries| ==> IsFirst(entries, key, i)
    ensures i == |entries| ==> forall j :: 0 <= j < |entries| ==> entries[j].key != key
    decreases |entries|
  {
    if entries == [] then 0
    else if entries[0].key == key then 0
    else 1 + FirstIndexOf(entries[1..], key)
  }

  /** The value of the first entry with the key, or `null` (`None`) when
      there is none or its value is empty. */
  function FirstValue(entries: seq<Keyed>, key: string): (v: Option<string>)
    ensures v.None? <==> forall i :: IsFirst(entries, key, i) ==> entries[i].value == ""
    ensures v.Some? ==> v.value != "" && exists i :: IsFirst(entries, key, i) && entries[i].value == v.value
  {
    var i := FirstIndexOf(entries, key);
    if i < |entries| && entries[i].value != "" then Some(entries[i].value) else None
  }

  /** A field resolved for the request language: the first translation
      with the key replaces the default value when translations are
      consulted and that translation is non-empty. */
  function Localize(default: string, entries: seq<Keyed>, key: string, lang: Option<string>): (r: string)
    ensures !Translates(lang) ==> r == default
    ensures Translates(lang) ==>
      forall i :: IsFirst(entries, key, i) && entries[i].value != "" ==> r == entries[i].value
    ensures Translates(lang) && (forall i :: IsFirst(entries, key, i) ==> entries[i].value == "") ==> r == default
  {
    if Translates(lang) then FirstValue(entries, key).GetOr(default) else default
  }

  /** Only the first entry with the key is ever looked at: once an entry
      with the key exists, no entries appended after it change the result. */
  lemma {:induction false} LaterEntriesIgnored(entries: seq<Keyed>, more: seq<Keyed>, key: string, lang: Option<string>, default: string)
    requires exists i :: IsFirst(entries, key, i)
    ensures Localize(default, entries + more, key, lang) == Localize(default, entries, key, lang)
  {
    var i :| IsFirst(entries, key, i);
    var longer := entries + more;
    assert longer[i] == entries[i];
    assert IsFirst(longer, key, i);
    forall k | IsFirst(longer, key, k) ensures k == i {
    }
  }

  /** The result is always either the default or a non-empty translation value. */
  lemma LocalizeSource(default: string, entries: seq<Keyed>, key: string, lang: Option<string>)
    ensures var r := Localize(default, entries, key, lang);
      r == default || (r != "" && exists i :: 0 <= i < |entries| && entries[i].key == key && entries[i].value == r)
  {
    var r := Localize(default, entries, key, lang);
    if r != default {
      var v := FirstValue(entries, key);
      var i :| IsFirst(entries, key, i) && entries[i].value == v.value;
      assert 0 <= i < |entries| && entries[i].key == key;
    }
  }
}

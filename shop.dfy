/** The Admin API as plain data: listings selected by their query
    variables, nodes looked up by global id, and the single-value lookups
    that answer `null` for a missing or empty field. */
module Shop {
  import opened Values
  import opened Strings
  import opened Pagination

  /** The variables that select a listing: `locale` and the optional `query` filter. */
  datatype ListQuery = ListQuery(locale: string, query: Option<string>)

  /** What the `nodes(ids:)` query is asked for one id: the locale its
      translations are read in and the global id. */
  datatype NodeKey = NodeKey(locale: string, gid: string)

  /** The pages of a listing; an unknown query has no pages. */
  function ListingFor<N>(listings: map<ListQuery, seq<Page<N>>>, q: ListQuery): (pages: seq<Page<N>>)
    ensures q !in listings ==> pages == []
  {
    if q in listings then listings[q] else []
  }

  /** The global id `gid://shopify/<kind>/<id>` of a numeric id. */
  function Gid(kind: string, id: string): string {
    "gid://shopify/" + kind + "/" + id
  }

  /** Decoding a global id with `split('/').pop()` gives back the numeric id. */
  lemma GidDecodes(kind: string, id: string)
    requires '/' !in id
    ensures LastSegment(Gid(kind, id)) == id
  {
    DecodeAppended("gid://shopify/" + kind, id);
  }

  /** The global ids of a list of numeric ids, in order. */
  function Gids(kind: string, ids: seq<string>): (gs: seq<string>)
    ensures |gs| == |ids|
    ensures forall i :: 0 <= i < |ids| ==> gs[i] == Gid(kind, ids[i])
  {
    seq(|ids|, i requires 0 <= i < |ids| => Gid(kind, ids[i]))
  }

  /** `nodes.filter(Boolean)`: the nodes found for the requested ids, in
      request order, with the ids the shop does not know dropped. */
  function ResolveNodes<N>(nodes: map<NodeKey, N>, locale: string, gids: seq<string>): (found: seq<N>)
    ensures |found| <= |gids|
    ensures forall n :: n in found ==> exists g :: g in gids && NodeKey(locale, g) in nodes && nodes[NodeKey(locale, g)] == n
    ensures forall g :: g in gids && NodeKey(locale, g) in nodes ==> nodes[NodeKey(locale, g)] in found
    ensures (forall g :: g in gids ==> NodeKey(locale, g) in nodes) ==> |found| == |gids|
    decreases |gids|
  {
    if gids == [] then []
    else
      var key := NodeKey(locale, gids[0]);
      var rest := ResolveNodes(nodes, locale, gids[1..]);
      assert forall g :: g in gids[1..] ==> g in gids;
      (if key in nodes then [nodes[key]] else []) + rest
  }

  /** When every id is known, the nodes come back one per id in request order. */
  lemma {:induction false} ResolveAll<N>(nodes: map<NodeKey, N>, locale: string, gids: seq<string>)
    requires forall i :: 0 <= i < |gids| ==> NodeKey(locale, gids[i]) in nodes
    ensures var found := ResolveNodes(nodes, locale, gids);
      |found| == |gids| && forall i :: 0 <= i < |gids| ==> found[i] == nodes[NodeKey(locale, gids[i])]
    decreases |gids|
  {
    if gids != [] {
      ResolveAll(nodes, locale, gids[1..]);
    }
  }

  /** The global ids of a concatenation are the concatenated global ids. */
  lemma GidsConcat(kind: string, a: seq<string>, b: seq<string>)
    ensures Gids(kind, a + b) == Gids(kind, a) + Gids(kind, b)
  {
  }

  /** Resolving a concatenation concatenates the results: request order is
      kept and every requested id contributes on its own. */
  lemma {:induction false} ResolveNodesConcat<N>(nodes: map<NodeKey, N>, locale: string, a: seq<string>, b: seq<string>)
    ensures ResolveNodes(nodes, locale, a + b) == ResolveNodes(nodes, locale, a) + ResolveNodes(nodes, locale, b)
    decreases |a|
  {
    if a == [] {
      assert a + b == b;
    } else {
      assert (a + b)[0] == a[0];
      assert (a + b)[1..] == a[1..] + b;
      ResolveNodesConcat(nodes, locale, a[1..], b);
    }
  }

  /** One requested id gives its node when the shop knows it and nothing
      otherwise; with `ResolveNodesConcat` this fixes the count and order. */
  lemma ResolveNodesOne<N>(nodes: map<NodeKey, N>, locale: string, gid: string)
    ensures ResolveNodes(nodes, locale, [gid]) == if NodeKey(locale, gid) in nodes then [nodes[NodeKey(locale, gid)]] else []
  {
    assert [gid][1..] == [];
  }

  /** A node-wise mapping of a concatenation is the concatenation of the mappings. */
  lemma MappedConcat<N, T>(f: N -> T, na: seq<N>, nb: seq<N>, xa: seq<T>, xb: seq<T>, x: seq<T>)
    requires |xa| == |na| && forall k :: 0 <= k < |na| ==> xa[k] == f(na[k])
    requires |xb| == |nb| && forall k :: 0 <= k < |nb| ==> xb[k] == f(nb[k])
    requires |x| == |na + nb| && forall k :: 0 <= k < |na + nb| ==> x[k] == f((na + nb)[k])
    ensures x == xa + xb
  {
    forall k | 0 <= k < |x| ensures x[k] == (xa + xb)[k] {
      if k < |na| {
        assert (na + nb)[k] == na[k];
      } else {
        assert (na + nb)[k] == nb[k - |na|];
      }
    }
  }

  /** `n` is the node the shop knows for one of the requested numeric ids. */
  ghost predicate NodeOfKnownId<N>(nodes: map<NodeKey, N>, locale: string, kind: string, ids: seq<string>, n: N) {
    exists j :: 0 <= j < |ids| && NodeKey(locale, Gid(kind, ids[j])) in nodes && n == nodes[NodeKey(locale, Gid(kind, ids[j]))]
  }

  /** The nodes found for a list of numeric ids: each is the node of some
      requested id the shop knows, and every such id has its node among them. */
  lemma ResolvedKnownIds<N>(nodes: map<NodeKey, N>, locale: string, kind: string, ids: seq<string>)
    ensures var found := ResolveNodes(nodes, locale, Gids(kind, ids));
      forall k :: 0 <= k < |found| ==> NodeOfKnownId(nodes, locale, kind, ids, found[k])
    ensures var found := ResolveNodes(nodes, locale, Gids(kind, ids));
      forall j :: 0 <= j < |ids| && NodeKey(locale, Gid(kind, ids[j])) in nodes ==> nodes[NodeKey(locale, Gid(kind, ids[j]))] in found
  {
    var gs := Gids(kind, ids);
    var found := ResolveNodes(nodes, locale, gs);
    forall k | 0 <= k < |found| ensures NodeOfKnownId(nodes, locale, kind, ids, found[k]) {
      assert found[k] in found;
      var g :| g in gs && NodeKey(locale, g) in nodes && nodes[NodeKey(locale, g)] == found[k];
      var j :| 0 <= j < |gs| && gs[j] == g;
    }
    forall j | 0 <= j < |ids| && NodeKey(locale, Gid(kind, ids[j])) in nodes
      ensures nodes[NodeKey(locale, Gid(kind, ids[j]))] in found
    {
      assert gs[j] in gs;
    }
  }

  /** What a by-ids request returns: the items found and `total`, their number. */
  datatype ByIds<T> = ByIds(items: seq<T>, total: int)

  /** A string field read with `|| null`: missing and empty both give `null`. */
  function FieldOrNull(m: map<string, string>, key: string): (v: Option<string>)
    ensures v.Some? <==> key in m && m[key] != ""
    ensures v.Some? ==> v.value == m[key]
  {
    if key in m && m[key] != "" then Some(m[key]) else None
  }

  /** `id ? id.split('/').pop() : null` over a handle lookup that answers
      with a global id. */
  function IdByHandle(idByHandle: map<string, string>, handle: string): (id: Option<string>)
    ensures id.Some? <==> FieldOrNull(idByHandle, handle).Some?
    ensures id.Some? ==> '/' !in id.value && id.value == LastSegment(idByHandle[handle])
  {
    var gid := FieldOrNull(idByHandle, handle);
    if gid.Some? then Some(LastSegment(gid.value)) else None
  }

  /** The handle field of the node with the given global id, `null` when absent or empty. */
  function HandleById(handleById: map<string, string>, gid: string): (handle: Option<string>)
    ensures handle.Some? <==> gid in handleById && handleById[gid] != ""
    ensures handle.Some? ==> handle.value == handleById[gid]
  {
    FieldOrNull(handleById, gid)
  }

  /** The two lookups invert each other on a shop whose handle and id
      indexes agree: looking up the handle of an id gives the id back. */
  lemma HandleRoundTrip(idByHandle: map<string, string>, handleById: map<string, string>, kind: string, id: string)
    requires '/' !in id
    requires Gid(kind, id) in handleById && handleById[Gid(kind, id)] != ""
    requires var h := handleById[Gid(kind, id)]; h in idByHandle && idByHandle[h] == Gid(kind, id)
    ensures var h := HandleById(handleById, Gid(kind, id));
      h.Some? && IdByHandle(idByHandle, h.value) == Some(id)
  {
    GidDecodes(kind, id);
  }
}

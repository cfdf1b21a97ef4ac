/**
 The path index of the instance tree: a multimap from source paths to instance ids, maintained
 incrementally, against the index one would recompute from all metas.
 */
module PathIndex {
  import opened Basics

  type Ref = nat

  /** The part of a meta the tree looks at: its source paths and the original name; `rest` is everything else. */
  datatype Meta = Meta(paths: seq<Path>, originalName: Option<string>, rest: nat)

  type Ids = map<Path, seq<Ref>>
  type Metas = map<Ref, Meta>

  function Lookup(ids: Ids, p: Path): seq<Ref> {
    if p in ids then ids[p] else []
  }

  /** The ids whose meta lists `p`: what the index should say. */
  ghost predicate Lists(metas: Metas, id: Ref, p: Path) {
    id in metas && p in metas[id].paths
  }

  ghost predicate Indexed(ids: Ids, metas: Metas) {
    && (forall p | p in ids :: ids[p] != [])
    && (forall p, id :: id in Lookup(ids, p) <==> Lists(metas, id, p))
  }

  // ---------------------------------------------------------------------------
  // The multimap operations
  // ---------------------------------------------------------------------------

  function MapPath(ids: Ids, p: Path, id: Ref): Ids {
    ids[p := Lookup(ids, p) + [id]]
  }

  function Without(refs: seq<Ref>, id: Ref): (r: seq<Ref>)
    ensures forall x :: x in r <==> x in refs && x != id
  {
    if refs == [] then []
    else if refs[0] == id then Without(refs[1..], id)
    else [refs[0]] + Without(refs[1..], id)
  }

  /** `id` is no longer listed under `p`, and `p` is no key where it was the only one. */
  function UnmapPath(ids: Ids, p: Path, id: Ref): Ids {
    if p !in ids then ids
    else
      var left := Without(ids[p], id);
      if left == [] then ids - {p} else ids[p := left]
  }

  function MapPaths(ids: Ids, paths: seq<Path>, id: Ref): Ids {
    if paths == [] then ids else MapPath(MapPaths(ids, paths[..|paths| - 1], id), paths[|paths| - 1], id)
  }

  function UnmapPaths(ids: Ids, paths: seq<Path>, id: Ref): Ids {
    if paths == [] then ids else UnmapPath(UnmapPaths(ids, paths[..|paths| - 1], id), paths[|paths| - 1], id)
  }

  ghost predicate NoEmptyEntry(ids: Ids) {
    forall p | p in ids :: ids[p] != []
  }

  lemma MappedPath(ids: Ids, q: Path, id: Ref)
    requires NoEmptyEntry(ids)
    ensures NoEmptyEntry(MapPath(ids, q, id))
    ensures forall p, x :: x in Lookup(MapPath(ids, q, id), p) <==> x in Lookup(ids, p) || (x == id && p == q)
  {
  }

  lemma {:induction false} MappedPaths(ids: Ids, paths: seq<Path>, id: Ref)
    requires NoEmptyEntry(ids)
    ensures NoEmptyEntry(MapPaths(ids, paths, id))
    ensures forall p, x :: x in Lookup(MapPaths(ids, paths, id), p) <==> x in Lookup(ids, p) || (x == id && p in paths)
  {
    if paths != [] {
      var n := |paths| - 1;
      MappedPaths(ids, paths[..n], id);
      MappedPath(MapPaths(ids, paths[..n], id), paths[n], id);
      hide MapPath, Lookup;
      assert forall p :: p in paths <==> p in paths[..n] || p == paths[n];
    }
  }

  lemma UnmappedPath(ids: Ids, q: Path, id: Ref)
    requires NoEmptyEntry(ids)
    ensures NoEmptyEntry(UnmapPath(ids, q, id))
    ensures forall p, x :: x in Lookup(UnmapPath(ids, q, id), p) <==> x in Lookup(ids, p) && !(x == id && p == q)
  {
    if q in ids {
      var left := Without(ids[q], id);
      assert left == [] ==> forall x | x in ids[q] :: x == id;
    }
  }

  lemma {:induction false} UnmappedPaths(ids: Ids, paths: seq<Path>, id: Ref)
    requires NoEmptyEntry(ids)
    ensures NoEmptyEntry(UnmapPaths(ids, paths, id))
    ensures forall p, x :: x in Lookup(UnmapPaths(ids, paths, id), p) <==> x in Lookup(ids, p) && !(x == id && p in paths)
  {
    if paths != [] {
      var n := |paths| - 1;
      UnmappedPaths(ids, paths[..n], id);
      UnmappedPath(UnmapPaths(ids, paths[..n], id), paths[n], id);
      assert forall p :: p in paths <==> p in paths[..n] || p == paths[n];
    }
  }

  // ---------------------------------------------------------------------------
  // Meta operations and exactly when they keep the index
  // ---------------------------------------------------------------------------

  function Minus(a: seq<Path>, b: seq<Path>): (r: seq<Path>)
    ensures forall p :: p in r <==> p in a && p !in b
  {
    if a == [] then []
    else if a[0] in b then Minus(a[1..], b)
    else [a[0]] + Minus(a[1..], b)
  }

  function UpdatedIds(ids: Ids, metas: Metas, id: Ref, meta: Meta): Ids {
    if id !in metas then ids
    else
      MapPaths(UnmapPaths(ids, Minus(metas[id].paths, meta.paths), id), Minus(meta.paths, metas[id].paths), id)
  }

  function RemovedIds(ids: Ids, metas: Metas, id: Ref): Ids {
    if id !in metas then ids else UnmapPaths(ids, metas[id].paths, id)
  }

  /** Inserting a meta keeps the index exactly when it forgets no path the id had: a fresh id always does. */
  lemma InsertKeepsIndexIff(ids: Ids, metas: Metas, id: Ref, meta: Meta)
    requires Indexed(ids, metas)
    ensures Indexed(MapPaths(ids, meta.paths, id), metas[id := meta]) <==>
            (id in metas ==> forall p | p in metas[id].paths :: p in meta.paths)
  {
    var ids', metas' := MapPaths(ids, meta.paths, id), metas[id := meta];
    MappedPaths(ids, meta.paths, id);
    if id in metas && Indexed(ids', metas') {
      forall p | p in metas[id].paths
        ensures p in meta.paths
      {
        assert Lists(metas, id, p);
        assert id in Lookup(ids', p);
      }
    }
  }

  /** Updating a meta keeps the index exactly when the id already had one, or lists nothing. */
  lemma UpdateKeepsIndexIff(ids: Ids, metas: Metas, id: Ref, meta: Meta)
    requires Indexed(ids, metas)
    ensures Indexed(UpdatedIds(ids, metas, id, meta), metas[id := meta]) <==> id in metas || meta.paths == []
  {
    var ids', metas' := UpdatedIds(ids, metas, id, meta), metas[id := meta];
    if id in metas {
      var removed, added := Minus(metas[id].paths, meta.paths), Minus(meta.paths, metas[id].paths);
      UnmappedPaths(ids, removed, id);
      MappedPaths(UnmapPaths(ids, removed, id), added, id);
    } else if meta.paths != [] {
      assert Lists(metas', id, meta.paths[0]) && !Lists(metas, id, meta.paths[0]);
    }
  }

  /** Removing a meta always keeps the index: shared paths keep their other instances. */
  lemma RemoveKeepsIndex(ids: Ids, metas: Metas, id: Ref)
    requires Indexed(ids, metas)
    ensures Indexed(RemovedIds(ids, metas, id), metas - {id})
    ensures forall p, x | x != id :: x in Lookup(RemovedIds(ids, metas, id), p) <==> x in Lookup(ids, p)
  {
    if id in metas {
      UnmappedPaths(ids, metas[id].paths, id);
    }
  }

  // ---------------------------------------------------------------------------
  // Any sequence of operations
  // ---------------------------------------------------------------------------

  datatype Op = Insert(id: Ref, meta: Meta) | Update(id: Ref, meta: Meta) | Remove(id: Ref)

  /** What the tree demands of its callers: inserts are of fresh ids, updates of known ones. */
  predicate Legal(metas: Metas, op: Op) {
    match op
    case Insert(id, _) => id !in metas
    case Update(id, _) => id in metas
    case Remove(_) => true
  }

  function Apply(ids: Ids, metas: Metas, op: Op): (Ids, Metas) {
    match op
    case Insert(id, meta) => (MapPaths(ids, meta.paths, id), metas[id := meta])
    case Update(id, meta) => (UpdatedIds(ids, metas, id, meta), metas[id := meta])
    case Remove(id) => (RemovedIds(ids, metas, id), metas - {id})
  }

  function Run(ops: seq<Op>): (Ids, Metas) {
    if ops == [] then (map[], map[])
    else
      var (ids, metas) := Run(ops[..|ops| - 1]);
      Apply(ids, metas, ops[|ops| - 1])
  }

  ghost predicate AllLegal(ops: seq<Op>) {
    forall k | 0 <= k < |ops| :: Legal(Run(ops[..k]).1, ops[k])
  }

  lemma {:induction false} WithoutAppended(refs: seq<Ref>, id: Ref)
    ensures Without(refs + [id], id) == Without(refs, id)
  {
    if refs == [] {
      assert refs + [id] == [id] && [id][1..] == [];
    } else {
      assert (refs + [id])[0] == refs[0] && (refs + [id])[1..] == refs[1..] + [id];
      WithoutAppended(refs[1..], id);
    }
  }

  lemma {:induction false} WithoutTwice(refs: seq<Ref>, id: Ref)
    ensures Without(Without(refs, id), id) == Without(refs, id)
  {
    if refs != [] {
      WithoutTwice(refs[1..], id);
      var rest := Without(refs[1..], id);
      if refs[0] != id { assert ([refs[0]] + rest)[1..] == rest; }
    }
  }

  /** Mapping appends: what a path listed before stays in front, and only the id is new. */
  lemma {:induction false} MappingAppends(ids: Ids, paths: seq<Path>, id: Ref, p: Path)
    ensures var before, after := Lookup(ids, p), Lookup(MapPaths(ids, paths, id), p);
            && before <= after && (forall i | |before| <= i < |after| :: after[i] == id)
            && Without(after, id) == Without(before, id)
  {
    if paths != [] {
      var n := |paths| - 1;
      MappingAppends(ids, paths[..n], id, p);
      WithoutAppended(Lookup(MapPaths(ids, paths[..n], id), p), id);
    }
  }

  lemma {:induction false} UnmappingKeepsOrder(ids: Ids, paths: seq<Path>, id: Ref, p: Path)
    ensures Without(Lookup(UnmapPaths(ids, paths, id), p), id) == Without(Lookup(ids, p), id)
  {
    if paths != [] {
      var n := |paths| - 1;
      UnmappingKeepsOrder(ids, paths[..n], id, p);
      WithoutTwice(Lookup(UnmapPaths(ids, paths[..n], id), p), id);
    }
  }

  /** No operation reorders, drops or adds other ids under any path. */
  lemma OthersKeepTheirOrder(ids: Ids, metas: Metas, op: Op, p: Path)
    ensures Without(Lookup(Apply(ids, metas, op).0, p), op.id) == Without(Lookup(ids, p), op.id)
  {
    match op
    case Insert(id, meta) => MappingAppends(ids, meta.paths, id, p);
    case Update(id, meta) =>
      if id in metas {
        var removed, added := Minus(metas[id].paths, meta.paths), Minus(meta.paths, metas[id].paths);
        UnmappingKeepsOrder(ids, removed, id, p);
        MappingAppends(UnmapPaths(ids, removed, id), added, id, p);
      }
    case Remove(id) =>
      if id in metas { UnmappingKeepsOrder(ids, metas[id].paths, id, p); }
  }

  /** After any legal sequence of operations the index is the one recomputed from the metas. */
  lemma {:induction false} IndexFollowsMetas(ops: seq<Op>)
    requires AllLegal(ops)
    ensures Indexed(Run(ops).0, Run(ops).1)
  {
    if ops != [] {
      var n := |ops| - 1;
      assert forall k | 0 <= k < n :: ops[..n][..k] == ops[..k];
      IndexFollowsMetas(ops[..n]);
      var (ids, metas) := Run(ops[..n]);
      match ops[n]
      case Insert(id, meta) => InsertKeepsIndexIff(ids, metas, id, meta);
      case Update(id, meta) => UpdateKeepsIndexIff(ids, metas, id, meta);
      case Remove(id) => RemoveKeepsIndex(ids, metas, id);
    }
  }
}

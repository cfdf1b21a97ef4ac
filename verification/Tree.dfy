/**
 The instance tree: a dom of instances, a meta for each, and the path index. `Node` is the shape of the dom,
 kept as a ghost beside the map of instances it describes.
 */
module Tree {
  import opened Basics
  import opened PathIndex

  type Properties = map<string, string>

  datatype Snapshot = Snapshot(
    id: Ref, name: string, class_: string, properties: Properties, meta: Meta, children: seq<Snapshot>)

  datatype Instance = Instance(
    parent: Option<Ref>, name: string, class_: string, properties: Properties, children: seq<Ref>)

  type Dom = map<Ref, Instance>

  // ---------------------------------------------------------------------------
  // Shapes
  // ---------------------------------------------------------------------------

  datatype Node = Node(id: Ref, kids: seq<Node>)

  function Roots(forest: seq<Node>): seq<Ref> {
    if forest == [] then [] else [forest[0].id] + Roots(forest[1..])
  }

  /** Every id of the forest, parents before children, siblings in order. */
  function Preorder(forest: seq<Node>): seq<Ref> {
    if forest == [] then [] else [forest[0].id] + Preorder(forest[0].kids) + Preorder(forest[1..])
  }

  /** How often `x` is an id of the forest. */
  ghost function Count(forest: seq<Node>, x: Ref): nat {
    if forest == [] then 0
    else (if forest[0].id == x then 1 else 0) + Count(forest[0].kids, x) + Count(forest[1..], x)
  }

  ghost predicate Distinct(forest: seq<Node>) {
    forall x :: Count(forest, x) <= 1
  }

  /** The dom holds exactly these nodes under `parent`, with these children in this order. */
  ghost predicate Holds(dom: Dom, forest: seq<Node>, parent: Option<Ref>) {
    forest == [] ||
    (&& forest[0].id in dom
     && dom[forest[0].id].parent == parent
     && dom[forest[0].id].children == Roots(forest[0].kids)
     && Holds(dom, forest[0].kids, Some(forest[0].id))
     && Holds(dom, forest[1..], parent))
  }

  lemma {:induction false} CountIsMembership(forest: seq<Node>, x: Ref)
    ensures x in Preorder(forest) <==> Count(forest, x) > 0
  {
    if forest != [] {
      CountIsMembership(forest[0].kids, x);
      CountIsMembership(forest[1..], x);
    }
  }

  lemma DistinctCons(forest: seq<Node>)
    requires forest != [] && Distinct(forest)
    ensures Distinct(forest[0].kids) && Distinct(forest[1..])
    ensures Count(forest[0].kids, forest[0].id) == 0 && Count(forest[1..], forest[0].id) == 0
    ensures forall x | Count(forest[0].kids, x) > 0 :: Count(forest[1..], x) == 0
  {
    forall x
      ensures (if forest[0].id == x then 1 else 0) + Count(forest[0].kids, x) + Count(forest[1..], x) <= 1
    {
      assert Count(forest, x) <= 1;
    }
  }

  /** The dom is read only at the forest's own ids. */
  lemma {:induction false} HoldsFrame(dom: Dom, dom': Dom, forest: seq<Node>, parent: Option<Ref>)
    requires Holds(dom, forest, parent)
    requires forall x | x in dom && Count(forest, x) > 0 :: x in dom' && dom'[x] == dom[x]
    ensures Holds(dom', forest, parent)
  {
    if forest != [] {
      HoldsFrame(dom, dom', forest[0].kids, Some(forest[0].id));
      HoldsFrame(dom, dom', forest[1..], parent);
    }
  }

  lemma {:induction false} AppendCounts(a: seq<Node>, b: seq<Node>, x: Ref)
    ensures Count(a + b, x) == Count(a, x) + Count(b, x)
  {
    if a == [] {
      assert a + b == b;
    } else {
      assert (a + b)[0] == a[0] && (a + b)[1..] == a[1..] + b;
      AppendCounts(a[1..], b, x);
    }
  }

  lemma {:induction false} AppendRoots(a: seq<Node>, b: seq<Node>)
    ensures Roots(a + b) == Roots(a) + Roots(b)
  {
    if a == [] {
      assert a + b == b;
    } else {
      assert (a + b)[0] == a[0] && (a + b)[1..] == a[1..] + b;
      AppendRoots(a[1..], b);
    }
  }

  lemma {:induction false} AppendPreorder(a: seq<Node>, b: seq<Node>)
    ensures Preorder(a + b) == Preorder(a) + Preorder(b)
  {
    if a == [] {
      assert a + b == b;
    } else {
      assert (a + b)[0] == a[0] && (a + b)[1..] == a[1..] + b;
      AppendPreorder(a[1..], b);
    }
  }

  lemma {:induction false} HoldsAppend(dom: Dom, a: seq<Node>, b: seq<Node>, parent: Option<Ref>)
    requires Holds(dom, a, parent) && Holds(dom, b, parent)
    ensures Holds(dom, a + b, parent)
  {
    if a == [] {
      assert a + b == b;
    } else {
      assert (a + b)[1..] == a[1..] + b;
      HoldsAppend(dom, a[1..], b, parent);
    }
  }

  // ---------------------------------------------------------------------------
  // Grafting
  // ---------------------------------------------------------------------------

  /** The forest with `n` as a new last child of node `p`. */
  ghost function Graft(forest: seq<Node>, p: Ref, n: Node): seq<Node> {
    if forest == [] then []
    else
      var kids := if forest[0].id == p then forest[0].kids + [n] else Graft(forest[0].kids, p, n);
      [Node(forest[0].id, kids)] + Graft(forest[1..], p, n)
  }

  lemma {:induction false} GraftElsewhere(forest: seq<Node>, p: Ref, n: Node)
    requires Count(forest, p) == 0
    ensures Graft(forest, p, n) == forest
  {
    if forest != [] {
      GraftElsewhere(forest[0].kids, p, n);
      GraftElsewhere(forest[1..], p, n);
      assert forest == [forest[0]] + forest[1..];
    }
  }

  lemma {:induction false} GraftRoots(forest: seq<Node>, p: Ref, n: Node)
    ensures Roots(Graft(forest, p, n)) == Roots(forest)
  {
    if forest != [] { GraftRoots(forest[1..], p, n); }
  }

  /** A graft adds exactly the grafted ids. */
  lemma {:induction false} GraftCounts(forest: seq<Node>, p: Ref, n: Node, x: Ref)
    requires Distinct(forest) && Count(forest, p) > 0
    ensures Count(Graft(forest, p, n), x) == Count(forest, x) + Count([n], x)
  {
    DistinctCons(forest);
    var after := Graft(forest, p, n);
    assert after[1..] == Graft(forest[1..], p, n);
    if forest[0].id == p {
      AppendCounts(forest[0].kids, [n], x);
      GraftElsewhere(forest[1..], p, n);
    } else if Count(forest[0].kids, p) > 0 {
      GraftCounts(forest[0].kids, p, n, x);
      GraftElsewhere(forest[1..], p, n);
    } else {
      GraftElsewhere(forest[0].kids, p, n);
      GraftCounts(forest[1..], p, n, x);
    }
  }

  /** Linking a held subtree under `p` holds the grafted forest. */
  lemma {:induction false} GraftHolds(dom: Dom, dom': Dom, forest: seq<Node>, parent: Option<Ref>, p: Ref, n: Node)
    requires Distinct(forest) && Holds(dom, forest, parent) && Holds(dom', [n], Some(p))
    requires p in dom && p in dom' && dom'[p] == dom[p].(children := dom[p].children + [n.id])
    requires forall x | x in dom && x != p && Count(forest, x) > 0 :: x in dom' && dom'[x] == dom[x]
    ensures Holds(dom', Graft(forest, p, n), parent)
  {
    if forest != [] {
      DistinctCons(forest);
      var first := forest[0];
      var after := Graft(forest, p, n);
      assert after[1..] == Graft(forest[1..], p, n);
      if Count(forest[1..], p) == 0 {
        GraftElsewhere(forest[1..], p, n);
        HoldsFrame(dom, dom', forest[1..], parent);
      } else {
        GraftHolds(dom, dom', forest[1..], parent, p, n);
      }
      if first.id == p {
        HoldsFrame(dom, dom', first.kids, Some(p));
        HoldsAppend(dom', first.kids, [n], Some(p));
        AppendRoots(first.kids, [n]);
        assert Roots([n]) == [n.id];
      } else {
        GraftRoots(first.kids, p, n);
        GraftHolds(dom, dom', first.kids, Some(first.id), p, n);
      }
    }
  }

  /** Growing a freshly grafted node is grafting the grown node. */
  lemma {:induction false} GraftGrows(forest: seq<Node>, p: Ref, id: Ref, kids: seq<Node>, k: Node)
    requires Count(forest, id) == 0 && Count(kids, id) == 0
    ensures Graft(Graft(forest, p, Node(id, kids)), id, k) == Graft(forest, p, Node(id, kids + [k]))
  {
    if forest != [] {
      var before := Graft(forest, p, Node(id, kids));
      assert before[1..] == Graft(forest[1..], p, Node(id, kids));
      GraftGrows(forest[1..], p, id, kids, k);
      if forest[0].id == p {
        GraftLast(forest[0].kids, id, kids, k);
      } else {
        GraftGrows(forest[0].kids, p, id, kids, k);
      }
    }
  }

  lemma {:induction false} GraftLast(forest: seq<Node>, id: Ref, kids: seq<Node>, k: Node)
    requires Count(forest, id) == 0
    ensures Graft(forest + [Node(id, kids)], id, k) == forest + [Node(id, kids + [k])]
    decreases forest
  {
    if forest == [] {
      var one := [Node(id, kids)];
      assert forest + one == one && one[1..] == [];
    } else {
      var all := forest + [Node(id, kids)];
      assert all[1..] == forest[1..] + [Node(id, kids)];
      GraftLast(forest[1..], id, kids, k);
      GraftElsewhere(forest[0].kids, id, k);
      assert all[0] == forest[0];
    }
  }

  // ---------------------------------------------------------------------------
  // Pruning
  // ---------------------------------------------------------------------------

  ghost function Subtree(forest: seq<Node>, id: Ref): (n: Node)
    requires Count(forest, id) > 0
    ensures n.id == id
  {
    if forest[0].id == id then forest[0]
    else if Count(forest[0].kids, id) > 0 then Subtree(forest[0].kids, id)
    else Subtree(forest[1..], id)
  }

  /** The forest without node `id` and everything below it. */
  ghost function Prune(forest: seq<Node>, id: Ref): seq<Node> {
    if forest == [] then []
    else if forest[0].id == id then Prune(forest[1..], id)
    else [Node(forest[0].id, Prune(forest[0].kids, id))] + Prune(forest[1..], id)
  }

  lemma {:induction false} PruneElsewhere(forest: seq<Node>, id: Ref)
    requires Count(forest, id) == 0
    ensures Prune(forest, id) == forest
  {
    if forest != [] {
      PruneElsewhere(forest[0].kids, id);
      PruneElsewhere(forest[1..], id);
      assert forest == [forest[0]] + forest[1..];
    }
  }

  lemma {:induction false} PruneRoots(forest: seq<Node>, id: Ref)
    ensures Roots(Prune(forest, id)) == Without(Roots(forest), id)
  {
    if forest != [] { PruneRoots(forest[1..], id); }
  }

  /** Pruning drops exactly the ids of the subtree. */
  lemma {:induction false} PruneCounts(forest: seq<Node>, id: Ref, x: Ref)
    requires Distinct(forest) && Count(forest, id) > 0
    ensures Count(Prune(forest, id), x) + Count([Subtree(forest, id)], x) == Count(forest, x)
  {
    DistinctCons(forest);
    var after := Prune(forest, id);
    if forest[0].id == id {
      PruneElsewhere(forest[1..], id);
      assert [forest[0]][1..] == [];
    } else {
      assert after[1..] == Prune(forest[1..], id);
      if Count(forest[0].kids, id) > 0 {
        PruneCounts(forest[0].kids, id, x);
        PruneElsewhere(forest[1..], id);
      } else {
        PruneElsewhere(forest[0].kids, id);
        PruneCounts(forest[1..], id, x);
      }
    }
  }

  lemma {:induction false} SubtreeIsHeld(dom: Dom, forest: seq<Node>, parent: Option<Ref>, id: Ref)
    requires Holds(dom, forest, parent) && Count(forest, id) > 0
    ensures id in dom && Holds(dom, [Subtree(forest, id)], dom[id].parent)
  {
    if forest[0].id == id {
      assert [forest[0]][1..] == [];
    } else if Count(forest[0].kids, id) > 0 {
      SubtreeIsHeld(dom, forest[0].kids, Some(forest[0].id), id);
    } else {
      SubtreeIsHeld(dom, forest[1..], parent, id);
    }
  }

  lemma {:induction false} RootsAreCounted(forest: seq<Node>, x: Ref)
    ensures x in Roots(forest) ==> Count(forest, x) > 0
  {
    if forest != [] { RootsAreCounted(forest[1..], x); }
  }

  /** A node's recorded parent is the node whose children it is among. */
  lemma {:induction false} ParentsAreRight(dom: Dom, forest: seq<Node>, parent: Option<Ref>, id: Ref)
    requires Holds(dom, forest, parent) && Distinct(forest) && Count(forest, id) > 0
    requires parent.Some? ==> Count(forest, parent.value) == 0
    ensures id in dom && (dom[id].parent == parent <==> id in Roots(forest))
    ensures dom[id].parent != parent ==> dom[id].parent.Some? && Count(forest, dom[id].parent.value) > 0
  {
    DistinctCons(forest);
    if forest[0].id != id {
      if Count(forest[0].kids, id) > 0 {
        ParentsAreRight(dom, forest[0].kids, Some(forest[0].id), id);
        RootsAreCounted(forest[1..], id);
      } else {
        ParentsAreRight(dom, forest[1..], parent, id);
      }
    }
  }

  /** The dom after destroying `id`: the instances in `gone` go, and the parent forgets the child. */
  function Destroyed(dom: Dom, id: Ref, gone: seq<Ref>): Dom
    requires id in dom
  {
    map x | x in dom && x !in gone :: Kept(dom, id, x)
  }

  lemma {:induction false} WithoutAbsent(refs: seq<Ref>, id: Ref)
    requires id !in refs
    ensures Without(refs, id) == refs
  {
    if refs != [] { WithoutAbsent(refs[1..], id); }
  }

  /** What the dom keeps of `x` when `id` is destroyed. */
  function Kept(dom: Dom, id: Ref, x: Ref): Instance
    requires id in dom && x in dom
  {
    if dom[id].parent == Some(x) then dom[x].(children := Without(dom[x].children, id)) else dom[x]
  }

  /** A part of the forest that neither contains `id` nor its parent is untouched. */
  lemma PruneFrame(dom: Dom, dom': Dom, forest: seq<Node>, parent: Option<Ref>, id: Ref)
    requires Holds(dom, forest, parent) && id in dom
    requires Count(forest, id) == 0 && (dom[id].parent.Some? ==> Count(forest, dom[id].parent.value) == 0)
    requires KeptAll(dom, dom', forest, id)
    ensures Prune(forest, id) == forest && Holds(dom', forest, parent)
  {
    PruneElsewhere(forest, id);
    HoldsFrame(dom, dom', forest, parent);
  }

  /** Every node of the forest is in the new dom as the destruction of `id` keeps it. */
  ghost predicate KeptAll(dom: Dom, dom': Dom, forest: seq<Node>, id: Ref)
    requires id in dom
  {
    forall x | x in dom && Count(forest, x) > 0 :: x in dom' && dom'[x] == Kept(dom, id, x)
  }

  lemma KeptParts(dom: Dom, dom': Dom, forest: seq<Node>, id: Ref)
    requires forest != [] && forest[0].id != id && id in dom && KeptAll(dom, dom', Prune(forest, id), id)
    ensures forest[0].id in dom ==> forest[0].id in dom' && dom'[forest[0].id] == Kept(dom, id, forest[0].id)
    ensures KeptAll(dom, dom', Prune(forest[0].kids, id), id) && KeptAll(dom, dom', Prune(forest[1..], id), id)
  {
    var after := Prune(forest, id);
    assert after[0] == Node(forest[0].id, Prune(forest[0].kids, id)) && after[1..] == Prune(forest[1..], id);
  }

  /** Destroying a node holds the pruned forest. */
  lemma {:induction false} PruneHolds(dom: Dom, dom': Dom, forest: seq<Node>, parent: Option<Ref>, id: Ref)
    requires Distinct(forest) && Holds(dom, forest, parent) && id in dom && Count(forest, id) > 0
    requires parent.Some? ==> Count(forest, parent.value) == 0
    requires KeptAll(dom, dom', Prune(forest, id), id)
    ensures Holds(dom', Prune(forest, id), parent)
  {
    DistinctCons(forest);
    if forest[0].id == id {
      PruneElsewhere(forest[1..], id);
      PruneFrame(dom, dom', forest[1..], parent, id);
    } else {
      KeptParts(dom, dom', forest, id);
      if Count(forest[0].kids, id) > 0 {
        PruneHolds(dom, dom', forest[0].kids, Some(forest[0].id), id);
      } else {
        PruneHolds(dom, dom', forest[1..], parent, id);
      }
      hide Distinct, KeptAll, Kept, Roots;
      PruneRest(dom, dom', forest, parent, id);
    }
  }

  /** The part of the forest that does not contain `id`, put back beside the one that does. */
  lemma PruneRest(dom: Dom, dom': Dom, forest: seq<Node>, parent: Option<Ref>, id: Ref)
    requires forest != [] && forest[0].id != id && id in dom && Count(forest, id) > 0
    requires Distinct(forest) && Holds(dom, forest, parent) && KeptAll(dom, dom', Prune(forest, id), id)
    requires parent.Some? ==> Count(forest, parent.value) == 0
    requires if Count(forest[0].kids, id) > 0 then Holds(dom', Prune(forest[0].kids, id), Some(forest[0].id))
             else Holds(dom', Prune(forest[1..], id), parent)
    ensures Holds(dom', Prune(forest, id), parent)
  {
    var first, rest, after := forest[0], forest[1..], Prune(forest, id);
    assert forest == [first] + rest;
    assert after[0] == Node(first.id, Prune(first.kids, id)) && after[1..] == Prune(rest, id);
    DistinctCons(forest);
    KeptParts(dom, dom', forest, id);
    PruneStep(dom, first, rest, parent, id);
    KeptChildren(dom, first, id);
    hide Distinct, Kept, Roots;
    if Count(first.kids, id) > 0 {
      PruneElsewhere(rest, id);
      PruneFrame(dom, dom', rest, parent, id);
    } else {
      PruneElsewhere(first.kids, id);
      PruneFrame(dom, dom', first.kids, Some(first.id), id);
    }
  }

  lemma KeptChildren(dom: Dom, first: Node, id: Ref)
    requires id in dom && first.id in dom && dom[first.id].children == Roots(first.kids)
    requires dom[id].parent != Some(first.id) ==> Without(Roots(first.kids), id) == Roots(first.kids)
    ensures var kept := Kept(dom, id, first.id);
            kept.children == Roots(Prune(first.kids, id)) && kept.parent == dom[first.id].parent
  {
    PruneRoots(first.kids, id);
  }

  /** The children the dom keeps for `first` are the roots of its pruned kids. */
  lemma PruneStep(dom: Dom, first: Node, rest: seq<Node>, parent: Option<Ref>, id: Ref)
    requires Holds(dom, [first] + rest, parent) && Distinct([first] + rest) && first.id != id
    requires Count([first] + rest, id) > 0 && (parent.Some? ==> Count([first] + rest, parent.value) == 0)
    ensures id in dom
    ensures dom[first.id].children == Roots(first.kids)
    ensures dom[id].parent == Some(first.id) <==> id in Roots(first.kids)
    ensures dom[id].parent != Some(first.id) ==> Without(Roots(first.kids), id) == Roots(first.kids)
    ensures Count(first.kids, id) == 0 && dom[id].parent.Some? ==> Count(first.kids, dom[id].parent.value) == 0
    ensures Count(rest, id) == 0 && dom[id].parent.Some? ==> Count(rest, dom[id].parent.value) == 0
  {
    var forest := [first] + rest;
    assert forest[0] == first && forest[1..] == rest;
    DistinctCons(forest);
    RootsAreCounted(first.kids, id);
    if Count(first.kids, id) > 0 {
      ParentsAreRight(dom, first.kids, Some(first.id), id);
    } else {
      ParentsAreRight(dom, rest, parent, id);
    }
    if id !in Roots(first.kids) { WithoutAbsent(Roots(first.kids), id); }
  }

  // ---------------------------------------------------------------------------
  // Building from snapshots
  // ---------------------------------------------------------------------------

  /** Non-root instances carry their original name where one is set. */
  function BuiltName(s: Snapshot): string {
    match s.meta.originalName case Some(name) => name case None => s.name
  }

  /** The nodes of `forest` carry what the snapshots `ss` say, in the same shape and order. */
  ghost predicate Built(dom: Dom, metas: Metas, forest: seq<Node>, ss: seq<Snapshot>) {
    && |forest| == |ss|
    && (forest == [] ||
        (&& forest[0].id in dom && forest[0].id in metas
         && dom[forest[0].id].name == BuiltName(ss[0])
         && dom[forest[0].id].class_ == ss[0].class_
         && dom[forest[0].id].properties == ss[0].properties
         && metas[forest[0].id] == ss[0].meta
         && Built(dom, metas, forest[0].kids, ss[0].children)
         && Built(dom, metas, forest[1..], ss[1..])))
  }

  /** Two doms agree on everything about `x` but its links. */
  ghost predicate SameContent(dom: Dom, dom': Dom, x: Ref)
    requires x in dom && x in dom'
  {
    dom'[x].name == dom[x].name && dom'[x].class_ == dom[x].class_ && dom'[x].properties == dom[x].properties
  }

  lemma {:induction false} BuiltFrame(dom: Dom, dom': Dom, metas: Metas, metas': Metas,
                                      forest: seq<Node>, ss: seq<Snapshot>)
    requires Built(dom, metas, forest, ss)
    requires forall x | x in dom && Count(forest, x) > 0 :: x in dom' && SameContent(dom, dom', x)
    requires forall x | x in metas && Count(forest, x) > 0 :: x in metas' && metas'[x] == metas[x]
    ensures Built(dom', metas', forest, ss)
  {
    if forest != [] {
      BuiltFrame(dom, dom', metas, metas', forest[0].kids, ss[0].children);
      BuiltFrame(dom, dom', metas, metas', forest[1..], ss[1..]);
    }
  }

  lemma {:induction false} BuiltAppend(dom: Dom, metas: Metas, a: seq<Node>, ss: seq<Snapshot>, n: Node, s: Snapshot)
    requires Built(dom, metas, a, ss) && Built(dom, metas, [n], [s])
    ensures Built(dom, metas, a + [n], ss + [s])
  {
    if a == [] {
      assert a + [n] == [n] && ss + [s] == [s];
    } else {
      assert (a + [n])[0] == a[0] && (a + [n])[1..] == a[1..] + [n];
      assert (ss + [s])[0] == ss[0] && (ss + [s])[1..] == ss[1..] + [s];
      BuiltAppend(dom, metas, a[1..], ss[1..], n, s);
    }
  }

  // ---------------------------------------------------------------------------
  // Snapshots of the dom
  // ---------------------------------------------------------------------------

  /** The property migration a snapshot applies for its class. */
  type Migration = (string, Properties) -> Properties

  /** The snapshots `ts` show the nodes of `forest` as the dom and metas hold them. */
  ghost predicate Shown(dom: Dom, metas: Metas, migrate: Migration, forest: seq<Node>, ts: seq<Snapshot>) {
    && |forest| == |ts|
    && (forest == [] ||
        (&& forest[0].id in dom && forest[0].id in metas
         && ts[0].id == forest[0].id
         && ts[0].name == dom[forest[0].id].name
         && ts[0].class_ == dom[forest[0].id].class_
         && ts[0].properties == migrate(dom[forest[0].id].class_, dom[forest[0].id].properties)
         && ts[0].meta == metas[forest[0].id]
         && Shown(dom, metas, migrate, forest[0].kids, ts[0].children)
         && Shown(dom, metas, migrate, forest[1..], ts[1..])))
  }

  lemma {:induction false} ShownAppend(dom: Dom, metas: Metas, migrate: Migration,
                                       a: seq<Node>, ts: seq<Snapshot>, n: Node, t: Snapshot)
    requires Shown(dom, metas, migrate, a, ts) && Shown(dom, metas, migrate, [n], [t])
    ensures Shown(dom, metas, migrate, a + [n], ts + [t])
  {
    if a == [] {
      assert a + [n] == [n] && ts + [t] == [t];
    } else {
      assert (a + [n])[0] == a[0] && (a + [n])[1..] == a[1..] + [n];
      assert (ts + [t])[0] == ts[0] && (ts + [t])[1..] == ts[1..] + [t];
      ShownAppend(dom, metas, migrate, a[1..], ts[1..], n, t);
    }
  }

  lemma ShownLone(dom: Dom, metas: Metas, migrate: Migration, n: Node, t: Snapshot)
    requires n.id in dom && n.id in metas && Shown(dom, metas, migrate, n.kids, t.children)
    requires t == Snapshot(n.id, dom[n.id].name, dom[n.id].class_, migrate(dom[n.id].class_, dom[n.id].properties),
                           metas[n.id], t.children)
    ensures Shown(dom, metas, migrate, [n], [t])
  {
    assert [n][1..] == [] && [t][1..] == [];
    assert Shown(dom, metas, migrate, [], []);
  }

  lemma HeldLone(dom: Dom, n: Node, parent: Option<Ref>)
    requires Holds(dom, [n], parent)
    ensures n.id in dom && dom[n.id].parent == parent && dom[n.id].children == Roots(n.kids)
    ensures Holds(dom, n.kids, Some(n.id))
  {
  }

  /** Snapshots with their ids forgotten. */
  function Erased(ss: seq<Snapshot>): seq<Snapshot> {
    if ss == [] then [] else [ss[0].(id := 0, children := Erased(ss[0].children))] + Erased(ss[1..])
  }

  /** What building and reading back makes of snapshots: original names, migrated properties, no ids. */
  function Settled(ss: seq<Snapshot>, migrate: Migration): seq<Snapshot> {
    if ss == [] then []
    else
      var name := if ss[0].meta.originalName.Some? then ss[0].meta.originalName.value else ss[0].name;
      [Snapshot(0, name, ss[0].class_, migrate(ss[0].class_, ss[0].properties), ss[0].meta,
                Settled(ss[0].children, migrate))]
      + Settled(ss[1..], migrate)
  }

  /** Reading back what was built gives the snapshots themselves, up to ids, names and migration. */
  lemma {:induction false} SnapshotInvertsBuild(dom: Dom, metas: Metas, migrate: Migration,
                                                forest: seq<Node>, ss: seq<Snapshot>, ts: seq<Snapshot>)
    requires Built(dom, metas, forest, ss) && Shown(dom, metas, migrate, forest, ts)
    ensures Erased(ts) == Settled(ss, migrate)
  {
    if forest != [] {
      SnapshotInvertsBuild(dom, metas, migrate, forest[0].kids, ss[0].children, ts[0].children);
      SnapshotInvertsBuild(dom, metas, migrate, forest[1..], ss[1..], ts[1..]);
    }
  }

  // ---------------------------------------------------------------------------
  // The tree
  // ---------------------------------------------------------------------------

  lemma {:induction false} HeldChild(dom: Dom, forest: seq<Node>, parent: Option<Ref>, i: nat)
    requires Holds(dom, forest, parent) && i < |forest|
    ensures |Roots(forest)| == |forest| && Roots(forest)[i] == forest[i].id
    ensures Holds(dom, [forest[i]], parent)
  {
    assert [forest[i]][1..] == [];
    if i > 0 {
      HeldChild(dom, forest[1..], parent, i - 1);
    } else if |forest| > 1 {
      HeldChild(dom, forest[1..], parent, 0);
    }
  }

  class InstanceTree {
    const root: Ref
    var dom: Dom
    var ids: Ids
    var metas: Metas
    var generation: nat
    /** Fresh ids are handed out from here upwards. */
    var nextRef: Ref
    ghost var shape: Node

    ghost predicate Shaped()
      reads this
    {
      && shape.id == root && Distinct([shape]) && Holds(dom, [shape], None)
      && (forall x :: x in dom <==> Count([shape], x) > 0)
      && (forall x | x in dom :: x < nextRef)
    }

    ghost predicate Valid()
      reads this
    {
      Shaped() && metas.Keys == dom.Keys && Indexed(ids, metas)
    }

    method MapAll(paths: seq<Path>, id: Ref)
      modifies this`ids
      ensures ids == MapPaths(old(ids), paths, id)
    {
      for i := 0 to |paths|
        invariant ids == MapPaths(old(ids), paths[..i], id)
      {
        assert paths[..i + 1][..i] == paths[..i];
        ids := MapPath(ids, paths[i], id);
      }
      assert paths[..|paths|] == paths;
    }

    method UnmapAll(paths: seq<Path>, id: Ref)
      modifies this`ids
      ensures ids == UnmapPaths(old(ids), paths, id)
    {
      for i := 0 to |paths|
        invariant ids == UnmapPaths(old(ids), paths[..i], id)
      {
        assert paths[..i + 1][..i] == paths[..i];
        ids := UnmapPath(ids, paths[i], id);
      }
      assert paths[..|paths|] == paths;
    }

    /** Stores a meta. The index follows unless the id had one before that lists a path the new one does not. */
    method InsertMeta(id: Ref, meta: Meta)
      requires Indexed(ids, metas)
      modifies this`ids, this`metas, this`generation
      ensures ids == MapPaths(old(ids), meta.paths, id) && metas == old(metas)[id := meta]
      ensures Indexed(ids, metas) <==> (id in old(metas) ==> forall p | p in old(metas)[id].paths :: p in meta.paths)
      ensures generation > old(generation)
    {
      generation := generation + 1;
      InsertKeepsIndexIff(ids, metas, id, meta);
      MapAll(meta.paths, id);
      metas := metas[id := meta];
    }

    /** Replaces a meta. The index follows unless the id had none before and the new one lists paths. */
    method UpdateMeta(id: Ref, meta: Meta)
      requires Indexed(ids, metas)
      modifies this`ids, this`metas, this`generation
      ensures ids == UpdatedIds(old(ids), old(metas), id, meta) && metas == old(metas)[id := meta]
      ensures Indexed(ids, metas) <==> id in old(metas) || meta.paths == []
      ensures generation > old(generation)
    {
      generation := generation + 1;
      UpdateKeepsIndexIff(ids, metas, id, meta);
      if id in metas {
        var removed, added := Minus(metas[id].paths, meta.paths), Minus(meta.paths, metas[id].paths);
        UnmapAll(removed, id);
        MapAll(added, id);
      }
      metas := metas[id := meta];
    }

    method RemoveMeta(id: Ref)
      requires Indexed(ids, metas)
      modifies this`ids, this`metas, this`generation
      ensures ids == RemovedIds(old(ids), old(metas), id) && metas == old(metas) - {id}
      ensures Indexed(ids, metas) && generation > old(generation)
    {
      generation := generation + 1;
      RemoveKeepsIndex(ids, metas, id);
      if id in metas {
        UnmapAll(metas[id].paths, id);
      }
      metas := metas - {id};
    }

    /** The instances a path belongs to: exactly those whose meta lists it. */
    method GetIds(path: Path) returns (r: Option<seq<Ref>>)
      requires Valid()
      ensures r.Some? ==> r.value != [] && forall id :: id in r.value <==> id in metas && path in metas[id].paths
      ensures r.None? ==> forall id | id in metas :: path !in metas[id].paths
    {
      assert forall id :: id in Lookup(ids, path) <==> Lists(metas, id, path);
      r := if path in ids then Some(ids[path]) else None;
      forall id
        ensures id in metas && path in metas[id].paths <==> id in Lookup(ids, path)
      {
        assert id in Lookup(ids, path) <==> Lists(metas, id, path);
      }
    }

    /** Adds one instance under `parent`, with its meta. */
    method Link(s: Snapshot, parent: Ref, id: Ref)
      requires Valid() && parent in dom && id !in dom
      modifies this
      ensures Valid() && [shape] == Graft([old(shape)], parent, Node(id, []))
      ensures dom == Linked(old(dom), s, parent, id) && metas == old(metas)[id := s.meta]
      ensures nextRef >= old(nextRef) && generation > old(generation)
    {
      LinkIsShaped(this, s, parent, id);
      hide Count, Holds, Graft, Distinct;
      ghost var grafted := Graft([shape], parent, Node(id, []));
      dom := Linked(dom, s, parent, id);
      nextRef := if nextRef <= id then id + 1 else nextRef;
      shape := grafted[0];
      assert grafted == [shape];
      InsertMeta(id, s.meta);
    }

    method InsertInstance(s: Snapshot, parent: Ref) returns (id: Ref)
      requires Valid() && parent in dom
      modifies this
      ensures Valid() && id !in old(dom) && [shape] == Graft([old(shape)], parent, Node(id, []))
      ensures dom == Linked(old(dom), s, parent, id) && metas == old(metas)[id := s.meta]
      ensures generation > old(generation)
    {
      id := nextRef;
      Link(s, parent, id);
    }

    method InsertInstanceWithRef(s: Snapshot, parent: Ref)
      requires Valid() && parent in dom && s.id !in dom
      modifies this
      ensures Valid() && [shape] == Graft([old(shape)], parent, Node(s.id, []))
      ensures dom == Linked(old(dom), s, parent, s.id) && metas == old(metas)[s.id := s.meta]
      ensures generation > old(generation)
    {
      Link(s, parent, s.id);
    }

    /** Builds a whole snapshot under `parent`: a new last child, everything else left alone. */
    method InsertInstanceRecursive(s: Snapshot, parent: Ref) returns (id: Ref, ghost node: Node)
      requires Valid() && parent in dom
      modifies this
      ensures Valid() && node.id == id && [shape] == Graft([old(shape)], parent, node)
      ensures Built(dom, metas, [node], [s])
      ensures Grown(old(dom), dom, old(metas), metas, parent, id)
      ensures forall x | Count([node], x) > 0 :: x !in old(dom)
      ensures generation > old(generation)
      decreases s
    {
      id := nextRef;
      Link(s, parent, id);
      ghost var kids: seq<Node> := [];
      for i := 0 to |s.children|
        invariant Valid() && id in dom && generation > old(generation)
        invariant Growing(old(dom), dom, old(metas), metas, old(shape), shape, parent, id, s, kids, i)
      {
        ghost var dom0, metas0, shape0 := dom, metas, shape;
        var child;
        ghost var k;
        child, k := InsertInstanceRecursive(s.children[i], id);
        GrowingNext(old(dom), dom0, dom, old(metas), metas0, metas, old(shape), shape0, shape, parent, id, s, kids, i, k);
        kids := kids + [k];
      }
      node := Node(id, kids);
      GrowingDone(old(dom), dom, old(metas), metas, old(shape), shape, parent, id, s, kids);
    }

    /** A tree from a snapshot: the root keeps its own name, everything below is built in order. */
    constructor (s: Snapshot)
      ensures Valid() && BuiltRoot(dom, metas, shape, s)
    {
      root := 0;
      dom := map[0 := Instance(None, s.name, s.class_, s.properties, [])];
      ids, metas, generation, nextRef := map[], map[], 0, 1;
      shape := Node(0, []);
      new;
      LoneRootIsShaped(dom, shape);
      InsertMeta(root, s.meta);
      LoneRootIsBuilt(dom, metas, shape, s);
      hide Count, Holds, Distinct, Graft, Built, BuiltRoot;
      for i := 0 to |s.children|
        invariant Valid() && BuiltRoot(dom, metas, shape, s.(children := s.children[..i]))
      {
        ghost var dom0, metas0, shape0 := dom, metas, shape;
        var child;
        ghost var k;
        child, k := InsertInstanceRecursive(s.children[i], root);
        RootGrows(dom0, dom, metas0, metas, shape0, shape, s, i, k);
      }
      assert s.children[..|s.children|] == s.children;
    }

    /** Appends the ids below `id`, parents before children. */
    method Walk(id: Ref, below: seq<Ref>, ghost node: Node, ghost parent: Option<Ref>) returns (below': seq<Ref>)
      requires node.id == id && Holds(dom, [node], parent)
      ensures below' == below + Preorder(node.kids)
      decreases node
    {
      below' := below;
      var children := dom[id].children;
      RootsLength(node.kids);
      for i := 0 to |children|
        invariant |children| == |node.kids| && below' == below + Preorder(node.kids[..i])
      {
        HeldChild(dom, node.kids, Some(id), i);
        below' := below' + [children[i]];
        below' := Walk(children[i], below', node.kids[i], Some(id));
        PreorderSnoc(node.kids, i);
      }
      assert node.kids[..|node.kids|] == node.kids;
    }

    /** Removes an instance with everything below it; the root stays. */
    method RemoveInstance(id: Ref)
      requires Valid() && id in dom
      modifies this
      ensures Valid() && generation > old(generation)
      ensures id == root ==> dom == old(dom) && metas == old(metas) && ids == old(ids)
      ensures id != root ==> RemovedExactly(old(shape), old(dom), dom, old(metas), metas, old(ids), ids, id)
    {
      generation := generation + 1;
      if id == root {
        return;
      }
      SubtreeIsHeld(dom, [shape], None, id);
      ghost var node, up := Subtree([shape], id), dom[id].parent;
      assert [node][1..] == [];
      var gone := Walk(id, [id], node, up);
      assert gone == Preorder([node]);
      RemoveMetas(gone);
      Destroy(id, gone);
    }

    /** Destroys the subtree whose ids are `gone`. */
    method Destroy(id: Ref, gone: seq<Ref>)
      requires Shaped() && id in dom && id != root && Count([shape], id) > 0
      requires gone == Preorder([Subtree([shape], id)])
      modifies this`dom, this`shape
      ensures Shaped() && dom == Destroyed(old(dom), id, gone)
      ensures forall x :: x in gone <==> Count([Subtree([old(shape)], id)], x) > 0
    {
      RemovalIsShaped(this, id, gone);
      ghost var pruned := Prune([shape], id);
      dom := Destroyed(dom, id, gone);
      shape := pruned[0];
      assert pruned == [shape];
    }

    method RemoveMetas(gone: seq<Ref>)
      requires Indexed(ids, metas)
      modifies this`ids, this`metas, this`generation
      ensures Indexed(ids, metas) && generation >= old(generation)
      ensures metas == old(metas) - (set x | x in gone)
      ensures forall p, x | x !in gone :: x in Lookup(ids, p) <==> x in Lookup(old(ids), p)
    {
      for i := 0 to |gone|
        invariant Indexed(ids, metas) && generation >= old(generation)
        invariant metas == old(metas) - (set x | x in gone[..i])
        invariant forall p, x | x !in gone[..i] :: x in Lookup(ids, p) <==> x in Lookup(old(ids), p)
      {
        RemoveKeepsIndex(ids, metas, gone[i]);
        assert gone[..i + 1] == gone[..i] + [gone[i]];
        RemoveMeta(gone[i]);
      }
      assert gone[..|gone|] == gone;
    }

    /** The snapshots of a list of children. */
    method SnapChildren(children: seq<Ref>, migrate: Migration, ghost forest: seq<Node>, ghost parent: Option<Ref>)
      returns (ts: seq<Snapshot>)
      requires Holds(dom, forest, parent) && children == Roots(forest) && metas.Keys == dom.Keys
      ensures Shown(dom, metas, migrate, forest, ts)
      decreases forest
    {
      ts := [];
      RootsLength(forest);
      assert Shown(dom, metas, migrate, forest[..0], ts);
      hide Shown, Roots;
      for i := 0 to |children|
        invariant |children| == |forest| && Shown(dom, metas, migrate, forest[..i], ts)
      {
        HeldChild(dom, forest, parent, i);
        HeldLone(dom, forest[i], parent);
        hide Holds;
        var child := dom[children[i]];
        assert forest[i] in forest;
        var below := SnapChildren(child.children, migrate, forest[i].kids, Some(children[i]));
        var t := Snapshot(children[i], child.name, child.class_, migrate(child.class_, child.properties),
                          metas[children[i]], below);
        ShownLone(dom, metas, migrate, forest[i], t);
        ShownAppend(dom, metas, migrate, forest[..i], ts, forest[i], t);
        assert forest[..i + 1] == forest[..i] + [forest[i]];
        ts := ts + [t];
      }
      assert forest[..|forest|] == forest;
    }

    /** Shows an instance, or the root where none is given, with everything below it, and names its parent. */
    method TakeSnapshot(instance: Option<Ref>, migrate: Migration) returns (r: Option<(Snapshot, Option<Ref>)>)
      requires Valid()
      ensures r.None? <==> instance.Some? && instance.value !in dom
      ensures var id := if instance.Some? then instance.value else root;
              r.Some? ==>
                && Count([shape], id) > 0
                && Shown(dom, metas, migrate, [Subtree([shape], id)], [r.value.0]) && r.value.1 == dom[id].parent
    {
      var id := if instance.Some? then instance.value else root;
      if id !in dom {
        return None;
      }
      SubtreeIsHeld(dom, [shape], None, id);
      ghost var node := Subtree([shape], id);
      var here := dom[id];
      var below := SnapChildren(here.children, migrate, node.kids, Some(id));
      var t := Snapshot(id, here.name, here.class_, migrate(here.class_, here.properties), metas[id], below);
      assert [node][1..] == [] && [t][1..] == [];
      r := Some((t, here.parent));
    }
  }

  lemma LoneRootIsBuilt(dom: Dom, metas: Metas, shape: Node, s: Snapshot)
    requires shape.kids == [] && shape.id in dom && shape.id in metas && metas[shape.id] == s.meta
    requires dom[shape.id] == Instance(None, s.name, s.class_, s.properties, [])
    ensures BuiltRoot(dom, metas, shape, s.(children := s.children[..0]))
  {
  }

  lemma LoneRootIsShaped(dom: Dom, shape: Node)
    requires shape.kids == [] && dom.Keys == {shape.id}
    requires dom[shape.id].parent == None && dom[shape.id].children == []
    ensures Distinct([shape]) && Holds(dom, [shape], None) && forall x :: x in dom <==> Count([shape], x) > 0
  {
    assert [shape][1..] == [];
    LoneNodeIsHeld(dom, shape, None);
  }

  ghost predicate BuiltRoot(dom: Dom, metas: Metas, shape: Node, s: Snapshot) {
    && shape.id in dom && shape.id in metas
    && dom[shape.id].name == s.name && dom[shape.id].class_ == s.class_ && dom[shape.id].properties == s.properties
    && dom[shape.id].parent == None && metas[shape.id] == s.meta
    && Built(dom, metas, shape.kids, s.children)
    && Count(shape.kids, shape.id) == 0
  }

  lemma RootGrows(dom: Dom, dom': Dom, metas: Metas, metas': Metas, shape: Node, shape': Node,
                  s: Snapshot, i: nat, k: Node)
    requires i < |s.children| && BuiltRoot(dom, metas, shape, s.(children := s.children[..i]))
    requires [shape'] == Graft([shape], shape.id, k) && Built(dom', metas', [k], [s.children[i]])
    requires Grown(dom, dom', metas, metas', shape.id, k.id)
    requires forall x | Count([k], x) > 0 :: x !in dom
    ensures BuiltRoot(dom', metas', shape', s.(children := s.children[..i + 1]))
  {
    assert [shape][1..] == [];
    assert [shape'] == [Node(shape.id, shape.kids + [k])];
    assert shape' == [shape'][0];
    ExtendBuilt(dom, dom', metas, metas', shape.kids, s.children[..i], k, s.children[i], shape.id);
    assert s.children[..i + 1] == s.children[..i] + [s.children[i]];
    AppendCounts(shape.kids, [k], shape.id);
  }

  lemma {:induction false} RootsLength(forest: seq<Node>)
    ensures |Roots(forest)| == |forest|
  {
    if forest != [] { RootsLength(forest[1..]); }
  }

  lemma PreorderSnoc(forest: seq<Node>, i: nat)
    requires i < |forest|
    ensures Preorder(forest[..i + 1]) == Preorder(forest[..i]) + [forest[i].id] + Preorder(forest[i].kids)
  {
    assert forest[..i + 1] == forest[..i] + [forest[i]];
    AppendPreorder(forest[..i], [forest[i]]);
    assert [forest[i]][1..] == [];
  }

  /** Exactly the subtree of `id` is gone; every other instance, meta and index entry is as it was. */
  ghost predicate RemovedExactly(shape: Node, dom: Dom, dom': Dom, metas: Metas, metas': Metas, ids: Ids, ids': Ids,
                                 id: Ref) {
    && id in dom && Count([shape], id) > 0
    && (forall x :: x in dom' <==> x in dom && Count([Subtree([shape], id)], x) == 0)
    && (forall x | x in dom' :: dom'[x] == Kept(dom, id, x))
    && (forall x | x in metas' :: x in metas && metas'[x] == metas[x])
    && (forall p, x | x in dom' :: x in Lookup(ids', p) <==> x in Lookup(ids, p))
  }

  lemma RemovalIsShaped(t: InstanceTree, id: Ref, gone: seq<Ref>)
    requires t.Shaped() && id in t.dom && id != t.root && Count([t.shape], id) > 0
    requires gone == Preorder([Subtree([t.shape], id)])
    ensures var pruned, dom' := Prune([t.shape], id), Destroyed(t.dom, id, gone);
            && |pruned| == 1 && pruned[0].id == t.root && Distinct(pruned) && Holds(dom', pruned, None)
            && forall x :: x in dom' <==> Count(pruned, x) > 0
    ensures forall x :: x in gone <==> Count([Subtree([t.shape], id)], x) > 0
  {
    var node := Subtree([t.shape], id);
    var pruned, dom' := Prune([t.shape], id), Destroyed(t.dom, id, gone);
    assert [t.shape][1..] == [];
    forall x
      ensures x in gone <==> Count([node], x) > 0
      ensures Count(pruned, x) + Count([node], x) == Count([t.shape], x)
    {
      CountIsMembership([node], x);
      PruneCounts([t.shape], id, x);
    }
    PruneHolds(t.dom, dom', [t.shape], None, id);
  }

  /**
   Building a tree from a snapshot and snapshotting it gives the snapshot back: same shape, order, classes and
   metas, up to ids, property migration, and original names below the root.
   */
  method BuildAndRead(s: Snapshot, migrate: Migration) returns (t: Snapshot)
    ensures t.name == s.name && t.class_ == s.class_ && t.meta == s.meta
    ensures t.properties == migrate(s.class_, s.properties)
    ensures Erased(t.children) == Settled(s.children, migrate)
  {
    var tree := new InstanceTree(s);
    assert [tree.shape][1..] == [];
    var r := tree.TakeSnapshot(None, migrate);
    t := r.value.0;
    SnapshotInvertsBuild(tree.dom, tree.metas, migrate, tree.shape.kids, s.children, t.children);
  }

  /** Instance `id` was added under `parent` and the first `i` children of `s` below it. */
  ghost predicate Growing(dom: Dom, dom': Dom, metas: Metas, metas': Metas, shape: Node, shape': Node,
                          parent: Ref, id: Ref, s: Snapshot, kids: seq<Node>, i: nat) {
    && i <= |s.children|
    && id !in dom && id in dom' && id in metas' && metas'[id] == s.meta
    && dom'[id].name == BuiltName(s) && dom'[id].class_ == s.class_ && dom'[id].properties == s.properties
    && [shape'] == Graft([shape], parent, Node(id, kids))
    && Built(dom', metas', kids, s.children[..i])
    && Grown(dom, dom', metas, metas', parent, id)
    && (forall x | Count(kids, x) > 0 :: x !in dom && x != id)
    && (forall x | Count([shape], x) > 0 :: x in dom)
  }

  lemma GrowingNext(dom: Dom, dom1: Dom, dom2: Dom, metas: Metas, metas1: Metas, metas2: Metas,
                    shape: Node, shape1: Node, shape2: Node, parent: Ref, id: Ref, s: Snapshot, kids: seq<Node>,
                    i: nat, k: Node)
    requires i < |s.children| && Growing(dom, dom1, metas, metas1, shape, shape1, parent, id, s, kids, i)
    requires [shape2] == Graft([shape1], id, k) && Built(dom2, metas2, [k], [s.children[i]])
    requires Grown(dom1, dom2, metas1, metas2, id, k.id)
    requires forall x | Count([k], x) > 0 :: x !in dom1
    ensures Growing(dom, dom2, metas, metas2, shape, shape2, parent, id, s, kids + [k], i + 1)
  {
    assert Count([shape], id) == 0 && Count(kids, id) == 0;
    GraftGrows([shape], parent, id, kids, k);
    ExtendBuilt(dom1, dom2, metas1, metas2, kids, s.children[..i], k, s.children[i], id);
    assert s.children[..i + 1] == s.children[..i] + [s.children[i]];
    forall x | Count(kids + [k], x) > 0
      ensures x !in dom && x != id
    {
      AppendCounts(kids, [k], x);
    }
    assert parent in dom && id != parent;
  }

  lemma GrowingDone(dom: Dom, dom': Dom, metas: Metas, metas': Metas, shape: Node, shape': Node,
                    parent: Ref, id: Ref, s: Snapshot, kids: seq<Node>)
    requires Growing(dom, dom', metas, metas', shape, shape', parent, id, s, kids, |s.children|)
    ensures Built(dom', metas', [Node(id, kids)], [s])
    ensures forall x | Count([Node(id, kids)], x) > 0 :: x !in dom
  {
    assert s.children[..|s.children|] == s.children;
    assert [Node(id, kids)][1..] == [] && [s][1..] == [];
  }

  function Linked(dom: Dom, s: Snapshot, parent: Ref, id: Ref): Dom
    requires parent in dom
  {
    dom[parent := dom[parent].(children := dom[parent].children + [id])]
       [id := Instance(Some(parent), BuiltName(s), s.class_, s.properties, [])]
  }

  /** Nothing old changed but the child list of `parent`, which got `id` at its end. */
  ghost predicate Grown(dom: Dom, dom': Dom, metas: Metas, metas': Metas, parent: Ref, id: Ref) {
    && parent in dom && parent in dom'
    && dom'[parent] == dom[parent].(children := dom[parent].children + [id])
    && (forall x | x in dom && x != parent :: x in dom' && dom'[x] == dom[x])
    && (forall x | x in metas :: x in metas' && metas'[x] == metas[x])
  }

  lemma LinkIsShaped(t: InstanceTree, s: Snapshot, parent: Ref, id: Ref)
    requires t.Shaped() && parent in t.dom && id !in t.dom
    ensures var grafted := Graft([t.shape], parent, Node(id, []));
            && |grafted| == 1 && grafted[0].id == t.root && Distinct(grafted)
            && Holds(Linked(t.dom, s, parent, id), grafted, None)
            && forall x :: x in Linked(t.dom, s, parent, id) <==> Count(grafted, x) > 0
  {
    var n := Node(id, []);
    var grafted := Graft([t.shape], parent, n);
    GraftedOne(t.shape, parent, n);
    forall x
      ensures Count(grafted, x) == Count([t.shape], x) + (if x == id then 1 else 0)
    {
      GraftCounts([t.shape], parent, n, x);
      LoneCount(n, x);
    }
    var linked := Linked(t.dom, s, parent, id);
    LoneNodeIsHeld(linked, n, Some(parent));
    hide Count, Holds, Graft;
    GraftHolds(t.dom, linked, [t.shape], None, parent, n);
  }

  lemma GraftedOne(shape: Node, p: Ref, n: Node)
    ensures |Graft([shape], p, n)| == 1 && Graft([shape], p, n)[0].id == shape.id
  {
    assert [shape][1..] == [];
  }

  lemma LoneCount(n: Node, x: Ref)
    requires n.kids == []
    ensures Count([n], x) == if x == n.id then 1 else 0
  {
    assert [n][1..] == [];
  }

  lemma LoneNodeIsHeld(dom: Dom, n: Node, parent: Option<Ref>)
    requires n.kids == [] && n.id in dom && dom[n.id].parent == parent && dom[n.id].children == []
    ensures Holds(dom, [n], parent)
  {
    assert [n][1..] == [] && Holds(dom, [], parent) && Holds(dom, [], Some(n.id));
  }

  lemma ExtendBuilt(dom: Dom, dom': Dom, metas: Metas, metas': Metas, kids: seq<Node>, ss: seq<Snapshot>,
                    k: Node, s: Snapshot, id: Ref)
    requires Built(dom, metas, kids, ss) && Built(dom', metas', [k], [s])
    requires Grown(dom, dom', metas, metas', id, k.id) && Count(kids, id) == 0
    ensures Built(dom', metas', kids + [k], ss + [s])
  {
    BuiltFrame(dom, dom', metas, metas', kids, ss);
    BuiltAppend(dom', metas', kids, ss, k, s);
  }
}

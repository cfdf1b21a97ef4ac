/**
 Completing a generated sourcemap from what Studio has open. Both trees are JSON documents whose nodes hold a
 `name` and a `children` array; what only Studio has is added as a name and a class.
 */
module Merge {
  import opened Basics
  import opened Json

  function NameOf(v: Value): Option<string> {
    if v.Obj? then match Get(v.fields, "name") case Some(Str(s)) => Some(s) case _ => None else None
  }

  /** The children of a node: `None` if it has none or they are not an array. */
  function ChildrenOf(v: Value): Option<seq<Value>> {
    if v.Obj? then match Get(v.fields, "children") case Some(Arr(items)) => Some(items) case _ => None else None
  }

  function Kids(v: Value): seq<Value> {
    if ChildrenOf(v).Some? then ChildrenOf(v).value else []
  }

  /** Stores a value under a key, in the place of the one already there. */
  function Put(fields: seq<Field>, key: string, value: Value): seq<Field> {
    if fields == [] then [Field(key, value)]
    else if fields[0].key == key then [Field(key, value)] + fields[1..]
    else [fields[0]] + Put(fields[1..], key, value)
  }

  lemma {:induction false} PutGet(fields: seq<Field>, key: string, value: Value, other: string)
    ensures Get(Put(fields, key, value), other) == if other == key then Some(value) else Get(fields, other)
  {
    if fields == [] {
      assert [Field(key, value)][1..] == [];
    } else if fields[0].key != key {
      PutGet(fields[1..], key, value, other);
    }
  }

  lemma {:induction false} GetIsField(fields: seq<Field>, key: string)
    requires Get(fields, key).Some?
    ensures exists i :: 0 <= i < |fields| && fields[i].value == Get(fields, key).value
  {
    if fields[0].key != key {
      GetIsField(fields[1..], key);
      var i :| 0 <= i < |fields[1..]| && fields[1..][i].value == Get(fields, key).value;
      assert fields[i + 1].value == Get(fields, key).value;
    }
  }

  lemma KidsAreParts(v: Value)
    requires ChildrenOf(v).Some?
    ensures exists i :: 0 <= i < |v.fields| && v.fields[i].value == Arr(ChildrenOf(v).value)
  {
    GetIsField(v.fields, "children");
  }

  // ---------------------------------------------------------------------------
  // The merge
  // ---------------------------------------------------------------------------

  /** The first child with this name. */
  function Position(kids: seq<Value>, name: string): (r: Option<nat>)
    ensures r.Some? ==> r.value < |kids| && NameOf(kids[r.value]) == Some(name)
    ensures r.Some? ==> forall k | 0 <= k < r.value :: NameOf(kids[k]) != Some(name)
    ensures r.None? ==> forall k | 0 <= k < |kids| :: NameOf(kids[k]) != Some(name)
  {
    if kids == [] then None
    else if NameOf(kids[0]) == Some(name) then Some(0)
    else match Position(kids[1..], name) case Some(i) => Some(i + 1) case None => None
  }

  /** What a node of the live tree, with all below it, becomes in the sourcemap. */
  function Converted(live: Value): Value
    decreases live, 0
  {
    var name := if live.Obj? then Get(live.fields, "name") else None;
    var class_ := if live.Obj? then Get(live.fields, "class") else None;
    var head := [Field("name", if name.Some? then name.value else Str("")),
                 Field("className", if class_.Some? then class_.value else Str("Instance"))];
    if ChildrenOf(live).None? || ChildrenOf(live).value == [] then Obj(head)
    else
      KidsAreParts(live);
      Obj(head + [Field("children", Arr(ConvertedAll(ChildrenOf(live).value)))])
  }

  function ConvertedAll(lives: seq<Value>): (r: seq<Value>)
    ensures |r| == |lives|
    decreases lives
  {
    if lives == [] then [] else [Converted(lives[0])] + ConvertedAll(lives[1..])
  }

  function Merged(node: Value, live: Value): Value
    decreases live, 0
  {
    if ChildrenOf(live).None? || !node.Obj? then node
    else
      KidsAreParts(live);
      Obj(Put(node.fields, "children", Arr(MergedAll(Kids(node), ChildrenOf(live).value))))
  }

  /** The children after all of `lives` were merged in, first to last. */
  function MergedAll(kids: seq<Value>, lives: seq<Value>): seq<Value>
    decreases lives
  {
    if lives == [] then kids else MergedAll(MergedOne(kids, lives[0]), lives[1..])
  }

  function MergedOne(kids: seq<Value>, live: Value): seq<Value>
    decreases live, 1
  {
    if NameOf(live).None? then kids
    else
      match Position(kids, NameOf(live).value)
      case Some(i) => kids[i := Merged(kids[i], live)]
      case None => kids + [Converted(live)]
  }

  // ---------------------------------------------------------------------------
  // Sourcemaps
  // ---------------------------------------------------------------------------

  /** Wherever a node has `children`, they are an array. */
  ghost predicate Sourcemap(v: Value) {
    v.Obj? && Get(v.fields, "children").Some? ==>
      ChildrenOf(v).Some? && (KidsAreParts(v); Sourcemaps(ChildrenOf(v).value))
  }

  ghost predicate Sourcemaps(vs: seq<Value>) {
    vs == [] || (Sourcemap(vs[0]) && Sourcemaps(vs[1..]))
  }

  /** How many nodes a document has. */
  function Nodes(v: Value): nat
    decreases v, 0
  {
    if ChildrenOf(v).None? then 1
    else
      KidsAreParts(v);
      1 + NodesIn(ChildrenOf(v).value)
  }

  function NodesIn(vs: seq<Value>): nat
    decreases vs
  {
    if vs == [] then 0 else Nodes(vs[0]) + NodesIn(vs[1..])
  }

  lemma WithKids(node: Value, kids: seq<Value>)
    requires node.Obj?
    ensures var r := Obj(Put(node.fields, "children", Arr(kids)));
            && ChildrenOf(r) == Some(kids) && NameOf(r) == NameOf(node)
            && forall key | key != "children" :: Get(r.fields, key) == Get(node.fields, key)
  {
    forall key: string
      ensures Get(Put(node.fields, "children", Arr(kids)), key) ==
              if key == "children" then Some(Arr(kids)) else Get(node.fields, key)
    {
      PutGet(node.fields, "children", Arr(kids), key);
    }
  }

  lemma ConvertedParts(live: Value)
    ensures Converted(live).Obj?
    ensures Kids(Converted(live)) == ConvertedAll(Kids(live))
    ensures ChildrenOf(Converted(live)).None? ==> Get(Converted(live).fields, "children").None?
    ensures NameOf(live).Some? ==> NameOf(Converted(live)) == NameOf(live)
    ensures NameOf(live).None? && NameOf(Converted(live)).Some? ==> NameOf(Converted(live)) == Some("")
  {
    var fields := Converted(live).fields;
    assert fields[1].key == "className" && fields[0].key == "name" && 2 <= |fields| <= 3;
    assert Get(fields[1..], "children") == Get(fields[2..], "children") by { assert fields[1..][1..] == fields[2..]; }
    if |fields| == 3 { assert fields[2..][0] == fields[2]; }
  }

  lemma {:induction false} ConvertedAt(lives: seq<Value>, i: nat)
    requires i < |lives|
    ensures ConvertedAll(lives)[i] == Converted(lives[i])
  {
    if i > 0 { ConvertedAt(lives[1..], i - 1); }
  }

  // ---------------------------------------------------------------------------
  // Disk nodes are kept
  // ---------------------------------------------------------------------------

  /** `b` is `a` with nodes added below: every node of `a` keeps its fields and the order of its children. */
  ghost predicate Extends(a: Value, b: Value)
    decreases a, 0
  {
    if !a.Obj? then b == a
    else
      && b.Obj?
      && (forall key | key != "children" :: Get(b.fields, key) == Get(a.fields, key))
      && (ChildrenOf(a).Some? ==> (KidsAreParts(a); ExtendsAll(ChildrenOf(a).value, Kids(b))))
  }

  ghost predicate ExtendsAll(a: seq<Value>, b: seq<Value>)
    decreases a
  {
    a == [] || (b != [] && Extends(a[0], b[0]) && ExtendsAll(a[1..], b[1..]))
  }

  lemma {:induction false} ExtendsItself(a: Value)
    ensures Extends(a, a)
    decreases a, 0
  {
    if ChildrenOf(a).Some? {
      KidsAreParts(a);
      AllExtendThemselves(ChildrenOf(a).value, []);
      assert ChildrenOf(a).value + [] == ChildrenOf(a).value;
    }
  }

  lemma {:induction false} AllExtendThemselves(a: seq<Value>, more: seq<Value>)
    ensures ExtendsAll(a, a + more)
    decreases a
  {
    if a != [] {
      ExtendsItself(a[0]);
      assert (a + more)[1..] == a[1..] + more;
      AllExtendThemselves(a[1..], more);
    }
  }

  lemma {:induction false} ExtendsTransitive(a: Value, b: Value, c: Value)
    requires Extends(a, b) && Extends(b, c)
    ensures Extends(a, c)
    decreases a, 0
  {
    if ChildrenOf(a).Some? {
      KidsAreParts(a);
      if ChildrenOf(a).value != [] {
        AllTransitive(ChildrenOf(a).value, Kids(b), Kids(c));
      }
    }
  }

  lemma {:induction false} AllTransitive(a: seq<Value>, b: seq<Value>, c: seq<Value>)
    requires ExtendsAll(a, b) && ExtendsAll(b, c)
    ensures ExtendsAll(a, c)
    decreases a
  {
    if a != [] {
      ExtendsTransitive(a[0], b[0], c[0]);
      AllTransitive(a[1..], b[1..], c[1..]);
    }
  }

  lemma {:induction false} ExtendsAt(a: seq<Value>, b: seq<Value>, i: nat)
    requires ExtendsAll(a, b) && i < |a|
    ensures i < |b| && Extends(a[i], b[i])
  {
    if i > 0 { ExtendsAt(a[1..], b[1..], i - 1); }
  }

  lemma {:induction false} ExtendsOne(kids: seq<Value>, i: nat, b: Value)
    requires i < |kids| && Extends(kids[i], b)
    ensures ExtendsAll(kids, kids[i := b])
  {
    if i == 0 {
      AllExtendThemselves(kids[1..], []);
      assert kids[1..] + [] == kids[1..] == kids[i := b][1..];
    } else {
      ExtendsItself(kids[0]);
      ExtendsOne(kids[1..], i - 1, b);
      assert kids[i := b][1..] == kids[1..][i - 1 := b];
    }
  }

  /** Merging only ever adds. */
  lemma {:induction false} MergeKeepsDiskNodes(node: Value, live: Value)
    ensures Extends(node, Merged(node, live))
    decreases live, 0
  {
    if ChildrenOf(live).None? || !node.Obj? {
      ExtendsItself(node);
    } else {
      KidsAreParts(live);
      MergeKeepsAll(Kids(node), ChildrenOf(live).value);
      WithKids(node, MergedAll(Kids(node), ChildrenOf(live).value));
    }
  }

  lemma {:induction false} MergeKeepsAll(kids: seq<Value>, lives: seq<Value>)
    ensures ExtendsAll(kids, MergedAll(kids, lives))
    decreases lives
  {
    if lives == [] {
      AllExtendThemselves(kids, []);
      assert kids + [] == kids;
    } else {
      MergeKeepsOne(kids, lives[0]);
      MergeKeepsAll(MergedOne(kids, lives[0]), lives[1..]);
      AllTransitive(kids, MergedOne(kids, lives[0]), MergedAll(kids, lives));
    }
  }

  lemma {:induction false} MergeKeepsOne(kids: seq<Value>, live: Value)
    ensures ExtendsAll(kids, MergedOne(kids, live))
    decreases live, 1
  {
    AllExtendThemselves(kids, []);
    assert kids + [] == kids;
    if NameOf(live).Some? {
      match Position(kids, NameOf(live).value)
      case Some(i) =>
        MergeKeepsDiskNodes(kids[i], live);
        ExtendsOne(kids, i, Merged(kids[i], live));
      case None => AllExtendThemselves(kids, [Converted(live)]);
    }
  }

  // ---------------------------------------------------------------------------
  // Live paths are there
  // ---------------------------------------------------------------------------

  /** Descending by these names, through any child of that name, is possible. */
  ghost predicate HasPath(v: Value, path: seq<string>)
    decreases |path|, 1
  {
    path == [] || SomeHasPath(Kids(v), path)
  }

  ghost predicate SomeHasPath(kids: seq<Value>, path: seq<string>)
    requires path != []
    decreases |path|, 0
  {
    exists i | 0 <= i < |kids| :: NameOf(kids[i]) == Some(path[0]) && HasPath(kids[i], path[1..])
  }

  lemma {:induction false} ExtendsKeepsPaths(a: Value, b: Value, path: seq<string>)
    requires Extends(a, b) && HasPath(a, path)
    ensures HasPath(b, path)
    decreases |path|, 1
  {
    if path != [] { AllKeepPaths(Kids(a), Kids(b), path); }
  }

  lemma {:induction false} AllKeepPaths(a: seq<Value>, b: seq<Value>, path: seq<string>)
    requires ExtendsAll(a, b) && path != [] && SomeHasPath(a, path)
    ensures SomeHasPath(b, path)
    decreases |path|, 0
  {
    var i :| 0 <= i < |a| && NameOf(a[i]) == Some(path[0]) && HasPath(a[i], path[1..]);
    ExtendsAt(a, b, i);
    ExtendsKeepsPaths(a[i], b[i], path[1..]);
    assert NameOf(b[i]) == Some(path[0]);
  }

  lemma {:induction false} ConvertedKeepsPaths(live: Value, path: seq<string>)
    requires HasPath(live, path)
    ensures HasPath(Converted(live), path)
    decreases |path|
  {
    if path != [] {
      var lives := Kids(live);
      var i :| 0 <= i < |lives| && NameOf(lives[i]) == Some(path[0]) && HasPath(lives[i], path[1..]);
      ConvertedKeepsPaths(lives[i], path[1..]);
      ConvertedParts(live);
      ConvertedParts(lives[i]);
      ConvertedAt(lives, i);
      assert NameOf(Kids(Converted(live))[i]) == Some(path[0]);
    }
  }

  /** Every named path of the live tree is in the merged sourcemap. */
  lemma {:induction false} MergedHasLivePaths(node: Value, live: Value, path: seq<string>)
    requires node.Obj? && HasPath(live, path)
    ensures HasPath(Merged(node, live), path)
    decreases |path|, 2, 0
  {
    if path != [] {
      var lives := Kids(live);
      var i :| 0 <= i < |lives| && NameOf(lives[i]) == Some(path[0]) && HasPath(lives[i], path[1..]);
      WithKids(node, MergedAll(Kids(node), lives));
      MergedAllHasPath(Kids(node), lives, i, path);
    }
  }

  lemma {:induction false} MergedAllHasPath(kids: seq<Value>, lives: seq<Value>, i: nat, path: seq<string>)
    requires path != [] && i < |lives| && NameOf(lives[i]) == Some(path[0]) && HasPath(lives[i], path[1..])
    ensures SomeHasPath(MergedAll(kids, lives), path)
    decreases |path|, 1, i
  {
    var next := MergedOne(kids, lives[0]);
    if i == 0 {
      MergedOneHasPath(kids, lives[0], path);
      MergeKeepsAll(next, lives[1..]);
      AllKeepPaths(next, MergedAll(kids, lives), path);
    } else {
      MergedAllHasPath(next, lives[1..], i - 1, path);
    }
  }

  lemma {:induction false} MergedOneHasPath(kids: seq<Value>, live: Value, path: seq<string>)
    requires path != [] && NameOf(live) == Some(path[0]) && HasPath(live, path[1..])
    ensures SomeHasPath(MergedOne(kids, live), path)
    decreases |path|, 0, 0
  {
    var after := MergedOne(kids, live);
    match Position(kids, path[0])
    case Some(i) =>
      MergedHasLivePaths(kids[i], live, path[1..]);
      MergeKeepsDiskNodes(kids[i], live);
      assert NameOf(after[i]) == Some(path[0]);
    case None =>
      ConvertedKeepsPaths(live, path[1..]);
      ConvertedParts(live);
      assert NameOf(after[|kids|]) == Some(path[0]);
  }

  // ---------------------------------------------------------------------------
  // Where added nodes come from
  // ---------------------------------------------------------------------------

  /** The node reached by child positions. */
  function KidAt(v: Value, p: seq<nat>): Option<Value>
    decreases |p|
  {
    if p == [] then Some(v)
    else if p[0] < |Kids(v)| then KidAt(Kids(v)[p[0]], p[1..])
    else None
  }

  /** What a field of the live node says, or the default where it is missing. */
  function Shown(live: Value, key: string, default: string): Value {
    if live.Obj? && Get(live.fields, key).Some? then Get(live.fields, key).value else Str(default)
  }

  ghost predicate SameName(v: Value, live: Value) {
    v.Obj? && Get(v.fields, "name") == Some(Shown(live, "name", ""))
  }

  /** A node that says of a live node its name and its class, and nothing else besides children. */
  ghost predicate Carries(v: Value, live: Value) {
    && SameName(v, live)
    && Get(v.fields, "className") == Some(Shown(live, "class", "Instance"))
    && forall key | key !in {"name", "className", "children"} :: Get(v.fields, key).None?
  }

  /** The node at `p` carries the live node at `q`, and the nodes above it have the live names. */
  ghost predicate AddedFrom(v: Value, live: Value, p: seq<nat>, q: seq<nat>)
    decreases |p|
  {
    if p == [] then q == [] && Carries(v, live)
    else
      && q != [] && p[0] < |Kids(v)| && q[0] < |Kids(live)|
      && SameName(Kids(v)[p[0]], Kids(live)[q[0]])
      && AddedFrom(Kids(v)[p[0]], Kids(live)[q[0]], p[1..], q[1..])
  }

  lemma ConvertedCarries(live: Value)
    ensures Carries(Converted(live), live)
  {
    var fields := Converted(live).fields;
    assert 2 <= |fields| <= 3 && fields[0].key == "name" && fields[1].key == "className" && "className" != "name";
    assert |fields| == 3 ==> fields[2].key == "children";
    forall key: string
      ensures Get(fields, key) ==
              if key == "name" then Some(fields[0].value)
              else if key == "className" then Some(fields[1].value)
              else if |fields| == 3 && key == "children" then Some(fields[2].value) else None
    {
      ShortLookup(fields, key);
    }
  }

  lemma ShortLookup(fields: seq<Field>, key: string)
    requires 2 <= |fields| <= 3
    ensures Get(fields, key) ==
            if fields[0].key == key then Some(fields[0].value)
            else if fields[1].key == key then Some(fields[1].value)
            else if |fields| == 3 && fields[2].key == key then Some(fields[2].value) else None
  {
    assert fields[1..][0] == fields[1] && fields[1..][1..] == fields[2..];
    if |fields| == 3 {
      assert fields[2..] == [fields[2]] && [fields[2]][1..] == [] && Get([], key) == None;
    } else {
      assert fields[2..] == [];
    }
    assert Get(fields[1..], key) == if fields[1].key == key then Some(fields[1].value) else Get(fields[2..], key);
  }

  lemma CarriesStays(a: Value, b: Value, live: Value)
    requires Extends(a, b)
    ensures SameName(a, live) ==> SameName(b, live)
    ensures Carries(a, live) ==> Carries(b, live)
  {
  }

  lemma {:induction false} AddedStays(a: Value, b: Value, live: Value, p: seq<nat>, q: seq<nat>)
    requires Extends(a, b) && AddedFrom(a, live, p, q)
    ensures AddedFrom(b, live, p, q)
    decreases |p|
  {
    CarriesStays(a, b, live);
    if p != [] {
      KidsAreParts(a);
      ExtendsAt(Kids(a), Kids(b), p[0]);
      CarriesStays(Kids(a)[p[0]], Kids(b)[p[0]], Kids(live)[q[0]]);
      AddedStays(Kids(a)[p[0]], Kids(b)[p[0]], Kids(live)[q[0]], p[1..], q[1..]);
    }
  }

  lemma {:induction false} ConvertedIsAdded(live: Value, p: seq<nat>)
    requires KidAt(Converted(live), p).Some?
    ensures AddedFrom(Converted(live), live, p, p)
    decreases |p|
  {
    if p == [] {
      ConvertedCarries(live);
    } else {
      ConvertedParts(live);
      ConvertedAt(Kids(live), p[0]);
      ConvertedCarries(Kids(live)[p[0]]);
      ConvertedIsAdded(Kids(live)[p[0]], p[1..]);
    }
  }

  /**
   Every node the merge adds carries a live node: that node's name and class, or `Instance` where it has none. The
   live node is as deep as the added one, below nodes of the same names.
   */
  lemma {:induction false} AddedNodesCarryLiveNodes(node: Value, live: Value, p: seq<nat>) returns (q: seq<nat>)
    requires KidAt(Merged(node, live), p).Some? && KidAt(node, p).None?
    ensures AddedFrom(Merged(node, live), live, p, q)
    decreases live, 0
  {
    KidsAreParts(live);
    var kids, lives := Kids(node), ChildrenOf(live).value;
    WithKids(node, MergedAll(kids, lives));
    var j, rest := AddedAmong(kids, lives, p);
    q := [j] + rest;
    assert q[1..] == rest;
  }

  lemma {:induction false} AddedAmong(kids: seq<Value>, lives: seq<Value>, p: seq<nat>) returns (j: nat, q: seq<nat>)
    requires p != [] && p[0] < |MergedAll(kids, lives)| && KidAt(MergedAll(kids, lives)[p[0]], p[1..]).Some?
    requires p[0] < |kids| ==> KidAt(kids[p[0]], p[1..]).None?
    ensures j < |lives| && SameName(MergedAll(kids, lives)[p[0]], lives[j])
    ensures AddedFrom(MergedAll(kids, lives)[p[0]], lives[j], p[1..], q)
    decreases lives
  {
    var next := MergedOne(kids, lives[0]);
    if p[0] < |next| && KidAt(next[p[0]], p[1..]).Some? {
      j := 0;
      q := AddedByOne(kids, lives[0], p);
      MergeKeepsAll(next, lives[1..]);
      ExtendsAt(next, MergedAll(kids, lives), p[0]);
      CarriesStays(next[p[0]], MergedAll(kids, lives)[p[0]], lives[0]);
      AddedStays(next[p[0]], MergedAll(kids, lives)[p[0]], lives[0], p[1..], q);
    } else {
      j, q := AddedAmong(next, lives[1..], p);
      j := j + 1;
    }
  }

  lemma {:induction false} AddedByOne(kids: seq<Value>, live: Value, p: seq<nat>) returns (q: seq<nat>)
    requires p != [] && p[0] < |MergedOne(kids, live)| && KidAt(MergedOne(kids, live)[p[0]], p[1..]).Some?
    requires p[0] < |kids| ==> KidAt(kids[p[0]], p[1..]).None?
    ensures SameName(MergedOne(kids, live)[p[0]], live)
    ensures AddedFrom(MergedOne(kids, live)[p[0]], live, p[1..], q)
    decreases live, 1
  {
    match Position(kids, NameOf(live).value)
    case Some(i) =>
      q := AddedNodesCarryLiveNodes(kids[i], live, p[1..]);
      MergeKeepsDiskNodes(kids[i], live);
    case None =>
      ConvertedIsAdded(live, p[1..]);
      ConvertedCarries(live);
      q := p[1..];
  }

  // ---------------------------------------------------------------------------
  // Merging again
  // ---------------------------------------------------------------------------

  /** Every named live node finds its counterpart, all the way down. */
  ghost predicate Covers(v: Value, live: Value)
    decreases live, 0
  {
    ChildrenOf(live).Some? ==> v.Obj? && (KidsAreParts(live); CoversAll(Kids(v), ChildrenOf(live).value))
  }

  ghost predicate CoversAll(kids: seq<Value>, lives: seq<Value>)
    decreases lives
  {
    lives == [] || (CoversOne(kids, lives[0]) && CoversAll(kids, lives[1..]))
  }

  ghost predicate CoversOne(kids: seq<Value>, live: Value)
    decreases live, 1
  {
    NameOf(live).Some? ==>
      Position(kids, NameOf(live).value).Some? && Covers(kids[Position(kids, NameOf(live).value).value], live)
  }

  lemma PositionStays(a: seq<Value>, b: seq<Value>, name: string)
    requires ExtendsAll(a, b) && Position(a, name).Some?
    ensures Position(b, name) == Position(a, name)
  {
    var i := Position(a, name).value;
    forall k | 0 <= k <= i
      ensures k < |b| && NameOf(b[k]) == NameOf(a[k])
    {
      ExtendsAt(a, b, k);
    }
  }

  lemma {:induction false} CoverStays(a: Value, b: Value, live: Value)
    requires Extends(a, b) && Covers(a, live)
    ensures Covers(b, live)
    decreases live, 0
  {
    if ChildrenOf(live).Some? {
      KidsAreParts(live);
      CoversStay(Kids(a), Kids(b), ChildrenOf(live).value);
    }
  }

  lemma {:induction false} CoversStay(a: seq<Value>, b: seq<Value>, lives: seq<Value>)
    requires ExtendsAll(a, b) && CoversAll(a, lives)
    ensures CoversAll(b, lives)
    decreases lives
  {
    if lives != [] {
      OneStays(a, b, lives[0]);
      CoversStay(a, b, lives[1..]);
    }
  }

  lemma {:induction false} OneStays(a: seq<Value>, b: seq<Value>, live: Value)
    requires ExtendsAll(a, b) && CoversOne(a, live)
    ensures CoversOne(b, live)
    decreases live, 1
  {
    if NameOf(live).Some? {
      PositionStays(a, b, NameOf(live).value);
      var i := Position(a, NameOf(live).value).value;
      ExtendsAt(a, b, i);
      CoverStays(a[i], b[i], live);
    }
  }

  /** The name a live node has once it is converted; none if its name is not a string. */
  function Label(live: Value): Option<string> {
    NameOf(Converted(live))
  }

  /** No two siblings share a name, anywhere. */
  ghost predicate DistinctNames(live: Value)
    decreases live, 0
  {
    ChildrenOf(live).Some? ==> (KidsAreParts(live); AllDistinct(ChildrenOf(live).value))
  }

  ghost predicate AllDistinct(lives: seq<Value>)
    decreases lives
  {
    lives == [] ||
    (&& DistinctNames(lives[0])
     && (forall k | 1 <= k < |lives| && Label(lives[0]).Some? :: Label(lives[k]) != Label(lives[0]))
     && AllDistinct(lives[1..]))
  }

  lemma {:induction false} ConvertedCovers(live: Value)
    requires DistinctNames(live)
    ensures Covers(Converted(live), live)
    decreases live, 0
  {
    if ChildrenOf(live).Some? {
      var lives := ChildrenOf(live).value;
      KidsAreParts(live);
      ConvertedParts(live);
      ConvertedCoversAll([], lives);
      assert [] + ConvertedAll(lives) == ConvertedAll(lives);
    }
  }

  /** None of `before` has the label of one of `lives`. */
  ghost predicate Apart(before: seq<Value>, lives: seq<Value>) {
    forall j, k | 0 <= j < |before| && 0 <= k < |lives| && NameOf(before[j]).Some? :: NameOf(before[j]) != Label(lives[k])
  }

  lemma FirstIsFound(before: seq<Value>, lives: seq<Value>)
    requires lives != [] && Apart(before, lives) && NameOf(lives[0]).Some?
    ensures Position(before + ConvertedAll(lives), NameOf(lives[0]).value) == Some(|before|)
  {
    hide Converted, Position;
    var kids, name := before + ConvertedAll(lives), NameOf(lives[0]).value;
    ConvertedParts(lives[0]);
    assert kids[|before|] == Converted(lives[0]);
    forall j | 0 <= j < |before|
      ensures NameOf(kids[j]) != Some(name)
    {
      assert kids[j] == before[j];
      assert Label(lives[0]) == Some(name);
    }
    FoundAt(kids, name, |before|);
  }

  lemma FoundAt(kids: seq<Value>, name: string, i: nat)
    requires i < |kids| && NameOf(kids[i]) == Some(name) && forall k | 0 <= k < i :: NameOf(kids[k]) != Some(name)
    ensures Position(kids, name) == Some(i)
  {
    hide NameOf;
    var r := Position(kids, name);
  }

  lemma {:induction false} ConvertedCoversAll(before: seq<Value>, lives: seq<Value>)
    requires AllDistinct(lives) && Apart(before, lives)
    ensures CoversAll(before + ConvertedAll(lives), lives)
    decreases lives
  {
    if lives != [] {
      var kids, first := before + ConvertedAll(lives), Converted(lives[0]);
      ConvertedCovers(lives[0]);
      assert kids[|before|] == first;
      if NameOf(lives[0]).Some? { FirstIsFound(before, lives); }
      assert kids == (before + [first]) + ConvertedAll(lives[1..]);
      ConvertedCoversAll(before + [first], lives[1..]);
    }
  }

  lemma {:induction false} MergedCovers(node: Value, live: Value)
    requires node.Obj? && DistinctNames(live)
    ensures Covers(Merged(node, live), live)
    decreases live, 0
  {
    if ChildrenOf(live).Some? {
      KidsAreParts(live);
      WithKids(node, MergedAll(Kids(node), ChildrenOf(live).value));
      MergedAllCovers(Kids(node), ChildrenOf(live).value);
    }
  }

  lemma {:induction false} MergedAllCovers(kids: seq<Value>, lives: seq<Value>)
    requires AllDistinct(lives)
    ensures CoversAll(MergedAll(kids, lives), lives)
    decreases lives
  {
    if lives != [] {
      var next := MergedOne(kids, lives[0]);
      MergedOneCovers(kids, lives[0]);
      MergedAllCovers(next, lives[1..]);
      MergeKeepsAll(next, lives[1..]);
      OneStays(next, MergedAll(kids, lives), lives[0]);
    }
  }

  lemma {:induction false} MergedOneCovers(kids: seq<Value>, live: Value)
    requires DistinctNames(live)
    ensures CoversOne(MergedOne(kids, live), live)
    decreases live, 1
  {
    if NameOf(live).Some? {
      var name, after := NameOf(live).value, MergedOne(kids, live);
      match Position(kids, name)
      case Some(i) =>
        MergedCovers(kids[i], live);
        MergeKeepsDiskNodes(kids[i], live);
        assert NameOf(after[i]) == Some(name);
        assert forall k | 0 <= k < i :: after[k] == kids[k];
        assert Position(after, name) == Some(i);
      case None =>
        ConvertedCovers(live);
        ConvertedParts(live);
        assert NameOf(after[|kids|]) == Some(name);
        assert forall k | 0 <= k < |kids| :: after[k] == kids[k];
        assert Position(after, name) == Some(|kids|);
    }
  }

  lemma {:induction false} NodesUpdate(kids: seq<Value>, i: nat, b: Value)
    requires i < |kids|
    ensures NodesIn(kids[i := b]) == NodesIn(kids) - Nodes(kids[i]) + Nodes(b)
  {
    if i == 0 {
      assert kids[i := b][1..] == kids[1..];
    } else {
      NodesUpdate(kids[1..], i - 1, b);
      assert kids[i := b][1..] == kids[1..][i - 1 := b];
    }
  }

  lemma {:induction false} NodesAppend(a: seq<Value>, b: seq<Value>)
    ensures NodesIn(a + b) == NodesIn(a) + NodesIn(b)
  {
    if a == [] {
      assert a + b == b;
    } else {
      assert (a + b)[1..] == a[1..] + b;
      NodesAppend(a[1..], b);
    }
  }

  lemma {:induction false} CoveredAddsNothing(v: Value, live: Value)
    requires Covers(v, live)
    ensures Nodes(Merged(v, live)) == Nodes(v)
    decreases live, 0
  {
    if ChildrenOf(live).Some? {
      var lives := ChildrenOf(live).value;
      KidsAreParts(live);
      AllCoveredAddNothing(Kids(v), lives);
      WithKids(v, MergedAll(Kids(v), lives));
    }
  }

  lemma {:induction false} AllCoveredAddNothing(kids: seq<Value>, lives: seq<Value>)
    requires CoversAll(kids, lives)
    ensures NodesIn(MergedAll(kids, lives)) == NodesIn(kids)
    decreases lives
  {
    if lives != [] {
      var live := lives[0];
      if NameOf(live).Some? {
        var i := Position(kids, NameOf(live).value).value;
        CoveredAddsNothing(kids[i], live);
        NodesUpdate(kids, i, Merged(kids[i], live));
      }
      var next := MergedOne(kids, live);
      MergeKeepsOne(kids, live);
      CoversStay(kids, next, lives[1..]);
      AllCoveredAddNothing(next, lives[1..]);
    }
  }

  lemma {:induction false} ExtendingGrows(a: Value, b: Value)
    requires Extends(a, b)
    ensures Nodes(a) <= Nodes(b)
    decreases a, 0
  {
    if ChildrenOf(a).Some? {
      KidsAreParts(a);
      if ChildrenOf(a).value != [] { AllExtendingGrow(ChildrenOf(a).value, Kids(b)); }
    }
  }

  lemma {:induction false} AllExtendingGrow(a: seq<Value>, b: seq<Value>)
    requires ExtendsAll(a, b)
    ensures NodesIn(a) <= NodesIn(b)
    decreases a
  {
    if a != [] {
      ExtendingGrows(a[0], b[0]);
      AllExtendingGrow(a[1..], b[1..]);
    }
  }

  /** Where nothing was added, the lists match one to one. */
  lemma {:induction false} SameSizeSameKids(a: seq<Value>, b: seq<Value>, i: nat)
    requires ExtendsAll(a, b) && NodesIn(a) == NodesIn(b)
    ensures |a| == |b| && (i < |a| ==> Nodes(a[i]) == Nodes(b[i]))
    decreases |a|
  {
    if a != [] {
      ExtendingGrows(a[0], b[0]);
      AllExtendingGrow(a[1..], b[1..]);
      SameSizeSameKids(a[1..], b[1..], if i == 0 then 0 else i - 1);
    }
  }

  /** What an equally large extension covers was covered before. */
  lemma {:induction false} CoverGoesBack(a: Value, b: Value, live: Value)
    requires Extends(a, b) && Nodes(a) == Nodes(b) && Covers(b, live)
    ensures Covers(a, live)
    decreases live, 0
  {
    if ChildrenOf(live).Some? {
      KidsAreParts(live);
      NodesBelow(a);
      NodesBelow(b);
      CoversGoBack(Kids(a), Kids(b), ChildrenOf(live).value);
    }
  }

  lemma {:induction false} CoversGoBack(a: seq<Value>, b: seq<Value>, lives: seq<Value>)
    requires ExtendsAll(a, b) && NodesIn(a) == NodesIn(b) && CoversAll(b, lives)
    ensures CoversAll(a, lives)
    decreases lives
  {
    if lives != [] {
      OneGoesBack(a, b, lives[0]);
      CoversGoBack(a, b, lives[1..]);
    }
  }

  lemma {:induction false} OneGoesBack(a: seq<Value>, b: seq<Value>, live: Value)
    requires ExtendsAll(a, b) && NodesIn(a) == NodesIn(b) && CoversOne(b, live)
    ensures CoversOne(a, live)
    decreases live, 1
  {
    if NameOf(live).Some? {
      var name := NameOf(live).value;
      var i := Position(b, name).value;
      SameSizeSameKids(a, b, i);
      ExtendsAt(a, b, i);
      assert NameOf(a[i]) == Some(name);
      PositionStays(a, b, name);
      CoverGoesBack(a[i], b[i], live);
    }
  }

  lemma {:induction false} AddingNothingCovers(v: Value, live: Value)
    requires v.Obj? && Nodes(Merged(v, live)) == Nodes(v)
    ensures Covers(v, live)
    decreases live, 0
  {
    if ChildrenOf(live).Some? {
      var lives := ChildrenOf(live).value;
      KidsAreParts(live);
      WithKids(v, MergedAll(Kids(v), lives));
      NodesBelow(v);
      NodesBelow(Merged(v, live));
      AddingNothingCoversAll(Kids(v), lives);
    }
  }

  lemma {:induction false} AddingNothingCoversAll(kids: seq<Value>, lives: seq<Value>)
    requires NodesIn(MergedAll(kids, lives)) == NodesIn(kids)
    ensures CoversAll(kids, lives)
    decreases lives
  {
    if lives != [] {
      var next := MergedOne(kids, lives[0]);
      MergeKeepsOne(kids, lives[0]);
      AllExtendingGrow(kids, next);
      MergeKeepsAll(next, lives[1..]);
      AllExtendingGrow(next, MergedAll(next, lives[1..]));
      AddingNothingCoversOne(kids, lives[0]);
      AddingNothingCoversAll(next, lives[1..]);
      CoversGoBack(kids, next, lives[1..]);
    }
  }

  lemma {:induction false} AddingNothingCoversOne(kids: seq<Value>, live: Value)
    requires NodesIn(MergedOne(kids, live)) == NodesIn(kids)
    ensures CoversOne(kids, live)
    decreases live, 1
  {
    if NameOf(live).Some? {
      match Position(kids, NameOf(live).value)
      case Some(i) =>
        NodesUpdate(kids, i, Merged(kids[i], live));
        AddingNothingCovers(kids[i], live);
      case None =>
        NodesAppend(kids, [Converted(live)]);
        assert [Converted(live)][1..] == [];
        NodesBelow(Converted(live));
    }
  }

  /** A merge adds nothing exactly when every named live node already has its counterpart in the sourcemap. */
  lemma MergeAddsNothingIff(v: Value, live: Value)
    requires v.Obj?
    ensures Nodes(Merged(v, live)) == Nodes(v) <==> Covers(v, live)
  {
    if Covers(v, live) { CoveredAddsNothing(v, live); }
    if Nodes(Merged(v, live)) == Nodes(v) { AddingNothingCovers(v, live); }
  }

  /** Merging the same live tree again adds nothing exactly when the first merge left every live node covered. */
  lemma MergingAgainAddsNothingIff(node: Value, live: Value)
    ensures Nodes(Merged(Merged(node, live), live)) == Nodes(Merged(node, live)) <==>
            !node.Obj? || Covers(Merged(node, live), live)
  {
    if node.Obj? { MergeAddsNothingIff(Merged(node, live), live); }
  }

  /** Distinct sibling names are enough. */
  lemma MergingAgainAddsNothing(node: Value, live: Value)
    requires DistinctNames(live)
    ensures Nodes(Merged(Merged(node, live), live)) == Nodes(Merged(node, live))
  {
    if node.Obj? {
      MergedCovers(node, live);
      CoveredAddsNothing(Merged(node, live), live);
    }
  }

  function Instance(name: string, kids: seq<Value>): Value {
    Obj([Field("name", Str(name)), Field("children", Arr(kids))])
  }

  lemma InstanceParts(name: string, kids: seq<Value>)
    ensures NameOf(Instance(name, kids)) == Some(name) && ChildrenOf(Instance(name, kids)) == Some(kids)
  {
    var fields := Instance(name, kids).fields;
    assert fields[1..][0] == Field("children", Arr(kids));
    assert Get(fields, "children") == Get(fields[1..], "children");
  }

  /** Merging a tree with one child into a node whose only child has that name grows that child. */
  lemma OnlyChildGrows(node: Value, twin: Value, p: Value)
    requires node.Obj? && ChildrenOf(node) == Some([twin]) && NameOf(twin).Some? && NameOf(twin) == NameOf(p)
    ensures Nodes(Merged(node, Instance("game", [p]))) - Nodes(node) == Nodes(Merged(twin, p)) - Nodes(twin)
  {
    InstanceParts("game", [p]);
    MergedSingle([twin], p);
    assert Position([twin], NameOf(p).value) == Some(0);
    var grown := Merged(twin, p);
    assert [twin][0 := grown] == [grown];
    WithKids(node, [grown]);
    assert [twin][1..] == [] && [grown][1..] == [];
  }

  /** Merging a tree with one child into a node without children adds the converted child. */
  lemma OnlyChildIsAdded(node: Value, p: Value)
    requires node.Obj? && Kids(node) == [] && NameOf(p).Some?
    ensures var once := Merged(node, Instance("game", [p])); once.Obj? && ChildrenOf(once) == Some([Converted(p)])
  {
    InstanceParts("game", [p]);
    MergedSingle([], p);
    assert [] + [Converted(p)] == [Converted(p)];
    WithKids(node, [Converted(p)]);
  }

  /** Of two siblings with one name only the first is found again, so what the second one holds is added to it. */
  lemma TwinGrows(p: Value, bare: Value, full: Value, x: Value)
    requires ChildrenOf(p) == Some([bare, full]) && NameOf(bare).Some? && NameOf(bare) == NameOf(full)
    requires ChildrenOf(bare) == Some([]) && ChildrenOf(full) == Some([x]) && NameOf(x).Some?
    ensures Nodes(Merged(Converted(p), p)) > Nodes(Converted(p))
  {
    var twin, a, b := Converted(p), Converted(bare), Converted(full);
    ConvertedParts(p);
    ConvertedParts(bare);
    ConvertedPair(bare, full);
    NothingToMerge(a, bare);
    var a1 := Merged(a, bare);
    var a2 := Merged(a1, full);
    OneToMerge(a1, full, x);
    MergedPair(a, b, bare, full);
    PairGrows(twin, p, a, b, a2);
  }

  lemma ConvertedPair(a: Value, b: Value)
    ensures ConvertedAll([a, b]) == [Converted(a), Converted(b)]
  {
    hide Converted;
    assert [a, b][1..] == [b] && [b][1..] == [];
  }

  lemma NothingToMerge(a: Value, bare: Value)
    requires a.Obj? && Kids(a) == [] && ChildrenOf(bare) == Some([])
    ensures Merged(a, bare).Obj? && Kids(Merged(a, bare)) == [] && Nodes(Merged(a, bare)) == Nodes(a)
  {
    assert MergedAll([], []) == [];
    WithKids(a, []);
    NodesBelow(a);
    NodesBelow(Merged(a, bare));
  }

  lemma OneToMerge(a: Value, full: Value, x: Value)
    requires a.Obj? && Kids(a) == [] && ChildrenOf(full) == Some([x]) && NameOf(x).Some?
    ensures Nodes(Merged(a, full)) > Nodes(a)
  {
    MergedSingle([], x);
    assert MergedOne([], x) == [] + [Converted(x)] == [Converted(x)];
    WithKids(a, [Converted(x)]);
    NodesBelow(a);
    NodesBelow(Merged(a, full));
    NodesBelow(Converted(x));
    assert [Converted(x)][1..] == [];
  }

  lemma PairGrows(twin: Value, p: Value, a: Value, b: Value, a': Value)
    requires twin.Obj? && Kids(twin) == [a, b] && ChildrenOf(p).Some? && MergedAll([a, b], ChildrenOf(p).value) == [a', b]
    requires Nodes(a') > Nodes(a)
    ensures Nodes(Merged(twin, p)) > Nodes(twin)
  {
    WithKids(twin, [a', b]);
    NodesBelow(twin);
    NodesBelow(Merged(twin, p));
    assert [a, b][1..] == [b] && [a', b][1..] == [b];
  }

  /** A live tree in which two siblings share a name and only the second has a child. */
  function TwinTree(): Value {
    Instance("game", [Instance("p", [Instance("a", []), Instance("a", [Instance("x", [])])])])
  }

  /** Merged into an empty sourcemap, that tree is not covered: the second merge adds a node. */
  lemma DuplicatesAreMergedTwice()
    ensures var once := Merged(Obj([]), TwinTree());
            Nodes(Merged(once, TwinTree())) > Nodes(once) && !Covers(once, TwinTree())
  {
    hide Instance, Merged, Converted, Covers;
    var x, bare := Instance("x", []), Instance("a", []);
    var full := Instance("a", [x]);
    var p := Instance("p", [bare, full]);
    InstanceParts("x", []);
    InstanceParts("a", []);
    InstanceParts("a", [x]);
    InstanceParts("p", [bare, full]);
    ConvertedParts(p);
    TwinGrows(p, bare, full, x);
    OnlyChildIsAdded(Obj([]), p);
    OnlyChildGrows(Merged(Obj([]), TwinTree()), Converted(p), p);
    MergeAddsNothingIff(Merged(Obj([]), TwinTree()), TwinTree());
  }

  lemma MergedSingle(kids: seq<Value>, live: Value)
    ensures MergedAll(kids, [live]) == MergedOne(kids, live)
  {
    assert [live][1..] == [];
  }

  lemma MergedPair(a: Value, b: Value, first: Value, second: Value)
    requires NameOf(a).Some? && NameOf(a) == NameOf(first) == NameOf(second)
    ensures MergedAll([a, b], [first, second]) == [Merged(Merged(a, first), second), b]
  {
    var name := NameOf(a).value;
    assert Position([a, b], name) == Some(0);
    var a1 := Merged(a, first);
    MergeKeepsDiskNodes(a, first);
    assert [a, b][0 := a1] == [a1, b];
    assert NameOf(a1) == Some(name);
    assert Position([a1, b], name) == Some(0);
    assert [first, second][1..] == [second];
    MergedSingle([a1, b], second);
    assert [a1, b][0 := Merged(a1, second)] == [Merged(a1, second), b];
  }

  // ---------------------------------------------------------------------------
  // The methods
  // ---------------------------------------------------------------------------

  lemma NodesBelow(v: Value)
    ensures Nodes(v) == 1 + NodesIn(Kids(v))
  {
  }

  /** Makes the sourcemap nodes of a live node; `added` counts exactly these. */
  method ConvertLiveNode(live: Value, added: nat) returns (node: Value, added': nat)
    ensures node == Converted(live) && added' == added + Nodes(node)
    decreases live
  {
    added' := added + 1;
    var name := if live.Obj? then Get(live.fields, "name") else None;
    var class_ := if live.Obj? then Get(live.fields, "class") else None;
    var fields := [Field("name", if name.Some? then name.value else Str("")),
                   Field("className", if class_.Some? then class_.value else Str("Instance"))];
    var children := ChildrenOf(live);
    ConvertedParts(live);
    NodesBelow(Converted(live));
    if children.Some? && children.value != [] {
      KidsAreParts(live);
      var kids;
      kids, added' := ConvertChildren(children.value, added');
      fields := fields + [Field("children", Arr(kids))];
    }
    node := Obj(fields);
  }

  method ConvertChildren(lives: seq<Value>, added: nat) returns (kids: seq<Value>, added': nat)
    ensures kids == ConvertedAll(lives) && added' == added + NodesIn(kids)
    decreases lives
  {
    hide Converted, ConvertedAll, Nodes;
    kids, added' := [], added;
    for i := 0 to |lives|
      invariant kids == ConvertedAll(lives)[..i] && added' == added + NodesIn(kids)
    {
      ConvertedAt(lives, i);
      var node;
      node, added' := ConvertLiveNode(lives[i], added');
      NodesAppend(kids, [node]);
      assert [node][1..] == [];
      kids := kids + [node];
    }
  }

  lemma {:induction false} PutPut(fields: seq<Field>, key: string, a: Value, b: Value)
    ensures Put(Put(fields, key, a), key, b) == Put(fields, key, b)
  {
    if fields == [] {
      assert [Field(key, a)][1..] == [];
    } else if fields[0].key == key {
      assert ([Field(key, a)] + fields[1..])[1..] == fields[1..];
    } else {
      assert Put(fields, key, a)[1..] == Put(fields[1..], key, a);
      PutPut(fields[1..], key, a, b);
    }
  }

  lemma {:induction false} SourcemapAt(kids: seq<Value>, i: nat)
    requires Sourcemaps(kids) && i < |kids|
    ensures Sourcemap(kids[i])
  {
    if i > 0 { SourcemapAt(kids[1..], i - 1); }
  }

  lemma {:induction false} SourcemapUpdate(kids: seq<Value>, i: nat, v: Value)
    requires Sourcemaps(kids) && i < |kids| && Sourcemap(v)
    ensures Sourcemaps(kids[i := v])
  {
    if i > 0 {
      SourcemapUpdate(kids[1..], i - 1, v);
      assert kids[i := v][1..] == kids[1..][i - 1 := v];
    } else {
      assert kids[i := v][1..] == kids[1..];
    }
  }

  lemma {:induction false} SourcemapAppend(kids: seq<Value>, v: Value)
    requires Sourcemaps(kids) && Sourcemap(v)
    ensures Sourcemaps(kids + [v])
  {
    if kids == [] {
      assert kids + [v] == [v] && [v][1..] == [];
    } else {
      assert (kids + [v])[1..] == kids[1..] + [v];
      SourcemapAppend(kids[1..], v);
    }
  }

  lemma {:induction false} ConvertedIsSourcemap(live: Value)
    ensures Sourcemap(Converted(live))
    decreases live, 0
  {
    ConvertedParts(live);
    if ChildrenOf(Converted(live)).Some? && ChildrenOf(live).Some? {
      KidsAreParts(live);
      ConvertedAreSourcemaps(ChildrenOf(live).value);
    }
  }

  lemma {:induction false} ConvertedAreSourcemaps(lives: seq<Value>)
    ensures Sourcemaps(ConvertedAll(lives))
    decreases lives
  {
    if lives != [] {
      ConvertedIsSourcemap(lives[0]);
      ConvertedAreSourcemaps(lives[1..]);
    }
  }

  /** Merges a live node into a sourcemap node; `added` grows by exactly the growth in nodes. */
  method MergeNode(mapNode: Value, live: Value, added: nat) returns (node: Value, added': nat)
    requires Sourcemap(mapNode)
    ensures node == Merged(mapNode, live) && Sourcemap(node)
    ensures added' >= added && added' - added == Nodes(node) - Nodes(mapNode)
    decreases live, 0
  {
    node, added' := mapNode, added;
    var children := ChildrenOf(live);
    if children.None? || !mapNode.Obj? {
      return;
    }
    if Get(mapNode.fields, "children").None? {
      node := Obj(Put(mapNode.fields, "children", Arr([])));
      PutGet(mapNode.fields, "children", Arr([]), "children");
    }
    KidsAreParts(live);
    var kids;
    kids, added' := MergeChildren(ChildrenOf(node).value, children.value, added);
    PutPut(mapNode.fields, "children", Arr([]), Arr(kids));
    node := Obj(Put(node.fields, "children", Arr(kids)));
    WithKids(mapNode, kids);
    NodesBelow(mapNode);
    NodesBelow(node);
  }

  method MergeChildren(disk: seq<Value>, lives: seq<Value>, added: nat) returns (kids: seq<Value>, added': nat)
    requires Sourcemaps(disk)
    ensures kids == MergedAll(disk, lives) && Sourcemaps(kids)
    ensures added' >= added && added' - added == NodesIn(kids) - NodesIn(disk)
    decreases lives
  {
    kids, added' := disk, added;
    for i := 0 to |lives|
      invariant MergedAll(kids, lives[i..]) == MergedAll(disk, lives) && Sourcemaps(kids)
      invariant added' >= added && added' - added == NodesIn(kids) - NodesIn(disk)
    {
      assert lives[i..][0] == lives[i] && lives[i..][1..] == lives[i + 1..];
      kids, added' := MergeChild(kids, lives[i], added');
    }
  }

  method MergeChild(disk: seq<Value>, live: Value, added: nat) returns (kids: seq<Value>, added': nat)
    requires Sourcemaps(disk)
    ensures kids == MergedOne(disk, live) && Sourcemaps(kids)
    ensures added' >= added && added' - added == NodesIn(kids) - NodesIn(disk)
    decreases live, 1
  {
    kids, added' := disk, added;
    var name := NameOf(live);
    if name.None? {
      return;
    }
    var node;
    match Position(disk, name.value) {
      case Some(i) =>
        SourcemapAt(disk, i);
        node, added' := MergeNode(disk[i], live, added);
        NodesUpdate(disk, i, node);
        SourcemapUpdate(disk, i, node);
        kids := disk[i := node];
      case None =>
        node, added' := ConvertLiveNode(live, added);
        ConvertedIsSourcemap(live);
        NodesAppend(disk, [node]);
        assert [node][1..] == [];
        SourcemapAppend(disk, node);
        kids := disk + [node];
    }
  }
}

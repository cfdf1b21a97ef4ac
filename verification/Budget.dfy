/**
 The live-value codec limits. `Visit` threads a node and a byte counter through the walk and stops at the first
 limit passed; `Within` states the limits on the whole value.
 */
module Budget {
  import opened Basics
  import opened Json

  const MaxDepth := 64
  const MaxNodes := 20000
  const MaxBytes := 4194304
  const MaxEntries := 10000

  /** The check of one object's `__type` tag; an object without a tag passes. */
  type TagCheck = seq<Field> -> bool

  // ---------------------------------------------------------------------------
  // The plain specification
  // ---------------------------------------------------------------------------

  function Utf8Length(text: string): nat {
    if text == "" then 0
    else
      (if text[0] < '\U{80}' then 1 else if text[0] < '\U{800}' then 2 else if text[0] < '\U{10000}' then 3 else 4)
      + Utf8Length(text[1..])
  }

  /** The length of a text is the sum over its parts, and that of plain ASCII is its number of characters. */
  lemma {:induction false} Utf8LengthAdds(a: string, b: string)
    ensures Utf8Length(a + b) == Utf8Length(a) + Utf8Length(b)
    ensures |a| <= Utf8Length(a) <= 4 * |a|
    ensures Utf8Length(a) == |a| <==> forall i | 0 <= i < |a| :: a[i] < '\U{80}'
  {
    if a == "" {
      assert a + b == b;
    } else {
      assert (a + b)[0] == a[0] && (a + b)[1..] == a[1..] + b;
      Utf8LengthAdds(a[1..], b);
      assert forall i | 1 <= i < |a| :: a[i] == a[1..][i - 1];
      assert (forall i | 0 <= i < |a[1..]| :: a[1..][i] < '\U{80}') <==> (forall i | 1 <= i < |a| :: a[i] < '\U{80}');
    }
  }

  function Bytes(v: Value): nat {
    if v.Str? then Utf8Length(v.text) else 0
  }

  /** All values in `v`, itself included. */
  function Nodes(v: Value): nat
    decreases v, |Entries(v)| + 1
  {
    1 + NodesFrom(v, 0)
  }

  function NodesFrom(v: Value, i: nat): nat
    requires i <= |Entries(v)|
    decreases v, |Entries(v)| - i
  {
    if i == |Entries(v)| then 0
    else
      Nodes(Entries(v)[i]) + NodesFrom(v, i + 1)
  }

  /** The bytes of all string values in `v`; keys do not count. */
  function StringBytes(v: Value): nat
    decreases v, |Entries(v)| + 1
  {
    Bytes(v) + StringBytesFrom(v, 0)
  }

  function StringBytesFrom(v: Value, i: nat): nat
    requires i <= |Entries(v)|
    decreases v, |Entries(v)| - i
  {
    if i == |Entries(v)| then 0
    else
      StringBytes(Entries(v)[i]) + StringBytesFrom(v, i + 1)
  }

  /** The value at every pointer keeps the local rules: depth, entries, tag. */
  ghost predicate Local(v: Value, depth: nat, tag: TagCheck) {
    && depth <= 64 && |Entries(v)| <= 10000
    && (v.Obj? ==> tag(v.fields))
  }

  ghost predicate Everywhere(v: Value, depth: nat, tag: TagCheck) {
    forall p: Pointer | At(v, p).Some? :: Local(At(v, p).value, depth + |p|, tag)
  }

  lemma EverywhereIn(v: Value, depth: nat, tag: TagCheck)
    ensures Everywhere(v, depth, tag) <==>
            Local(v, depth, tag) && forall i: nat | i < |Entries(v)| :: Everywhere(Entries(v)[i], depth + 1, tag)
  {
    if Everywhere(v, depth, tag) {
      var here: Pointer := [];
      assert At(v, here) == Some(v) && |here| == 0;
      forall i: nat | i < |Entries(v)|
        ensures Everywhere(Entries(v)[i], depth + 1, tag)
      {
        forall p: Pointer | At(Entries(v)[i], p).Some?
          ensures Local(At(Entries(v)[i], p).value, depth + 1 + |p|, tag)
        {
          var q: Pointer := [i] + p;
          assert q[0] == i && q[1..] == p;
          assert At(v, q) == At(Entries(v)[i], p);
          assert Local(At(v, q).value, depth + |q|, tag);
        }
      }
    }
    if Local(v, depth, tag) && forall i: nat | i < |Entries(v)| :: Everywhere(Entries(v)[i], depth + 1, tag) {
      forall p: Pointer | At(v, p).Some?
        ensures Local(At(v, p).value, depth + |p|, tag)
      {
        if p != [] {
          assert Everywhere(Entries(v)[p[0]], depth + 1, tag);
          assert At(v, p) == At(Entries(v)[p[0]], p[1..]);
          assert Local(At(Entries(v)[p[0]], p[1..]).value, depth + 1 + |p[1..]|, tag);
        }
      }
    }
  }

  /** The codec limits on a whole value. */
  ghost predicate Within(v: Value, tag: TagCheck) {
    Nodes(v) <= 20000 && StringBytes(v) <= 4194304 && Everywhere(v, 1, tag)
  }

  // ---------------------------------------------------------------------------
  // The walk
  // ---------------------------------------------------------------------------

  /**
   Visits a value with the counters reached so far. It succeeds exactly when the counters stay within their
   limits and every value below keeps the local rules, and never counts past the first node too many.
   */
  method Visit(v: Value, depth: nat, nodes: nat, bytes: nat, tag: TagCheck)
    returns (ok: bool, nodes': nat, bytes': nat)
    requires nodes <= MaxNodes && bytes <= MaxBytes
    ensures ok <==> nodes + Nodes(v) <= MaxNodes && bytes + StringBytes(v) <= MaxBytes && Everywhere(v, depth, tag)
    ensures ok ==> nodes' == nodes + Nodes(v) && bytes' == bytes + StringBytes(v)
    ensures nodes < nodes' <= MaxNodes + 1
    decreases v, 1
  {
    EverywhereIn(v, depth, tag);
    nodes', bytes' := nodes + 1, bytes;
    if depth > MaxDepth || nodes' > MaxNodes {
      return false, nodes', bytes';
    }
    if v.Str? {
      bytes' := bytes + Utf8Length(v.text);
      if bytes' > MaxBytes {
        return false, nodes', bytes';
      }
    }
    if v.Arr? || v.Obj? {
      if |Entries(v)| > MaxEntries {
        return false, nodes', bytes';
      }
      ok, nodes', bytes' := VisitEntries(v, depth, nodes', bytes', tag);
      if ok && v.Obj? && !tag(v.fields) {
        return false, nodes', bytes';
      }
    } else {
      ok := true;
    }
  }

  method VisitEntries(v: Value, depth: nat, nodes: nat, bytes: nat, tag: TagCheck)
    returns (ok: bool, nodes': nat, bytes': nat)
    requires nodes <= MaxNodes && bytes <= MaxBytes
    ensures ok <==>
            && nodes + NodesFrom(v, 0) <= MaxNodes && bytes + StringBytesFrom(v, 0) <= MaxBytes
            && forall i: nat | i < |Entries(v)| :: Everywhere(Entries(v)[i], depth + 1, tag)
    ensures ok ==> nodes' == nodes + NodesFrom(v, 0) && bytes' == bytes + StringBytesFrom(v, 0)
    ensures nodes <= nodes' <= MaxNodes + 1
    decreases v, 0
  {
    hide Everywhere;
    nodes', bytes' := nodes, bytes;
    for k := 0 to |Entries(v)|
      invariant nodes <= nodes' <= MaxNodes && bytes' <= MaxBytes
      invariant nodes' + NodesFrom(v, k) == nodes + NodesFrom(v, 0)
      invariant bytes' + StringBytesFrom(v, k) == bytes + StringBytesFrom(v, 0)
      invariant forall i: nat | i < k :: Everywhere(Entries(v)[i], depth + 1, tag)
    {
      ok, nodes', bytes' := Visit(Entries(v)[k], depth + 1, nodes', bytes', tag);
      if !ok {
        return;
      }
    }
    ok := true;
  }

  /** The value is accepted exactly when it is within every limit; at most one node more than allowed is visited. */
  method Validate(v: Value, tag: TagCheck) returns (ok: bool, visited: nat)
    ensures ok <==> Within(v, tag)
    ensures 1 <= visited <= 20001 && (ok ==> visited == Nodes(v))
  {
    var bytes;
    ok, visited, bytes := Visit(v, 1, 0, 0, tag);
  }
}

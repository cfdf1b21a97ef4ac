/** Sorting by an order, its uniqueness, and the lexicographic orders of names and paths. */
module Sorting {
  import opened Basics

  ghost predicate TotalOrder<T(!new)>(le: (T, T) -> bool) {
    && (forall x, y :: le(x, y) || le(y, x))
    && (forall x, y, z :: le(x, y) && le(y, z) ==> le(x, z))
  }

  /** Elements of `s` that are tied are equal. */
  ghost predicate NoTies<T>(s: seq<T>, le: (T, T) -> bool) {
    forall x, y | x in s && y in s && le(x, y) && le(y, x) :: x == y
  }

  ghost predicate Sorted<T>(s: seq<T>, le: (T, T) -> bool) {
    forall i, j | 0 <= i < j < |s| :: le(s[i], s[j])
  }

  function Insert<T>(x: T, s: seq<T>, le: (T, T) -> bool): seq<T> {
    if s == [] then [x]
    else if le(x, s[0]) then [x] + s
    else [s[0]] + Insert(x, s[1..], le)
  }

  function Sort<T>(s: seq<T>, le: (T, T) -> bool): seq<T> {
    if s == [] then [] else Insert(s[0], Sort(s[1..], le), le)
  }

  lemma {:induction false} InsertCounts<T>(x: T, s: seq<T>, le: (T, T) -> bool)
    ensures multiset(Insert(x, s, le)) == multiset{x} + multiset(s)
  {
    if s != [] {
      assert s == [s[0]] + s[1..];
      if !le(x, s[0]) { InsertCounts(x, s[1..], le); }
    }
  }

  lemma InsertMembers<T(!new)>(x: T, s: seq<T>, le: (T, T) -> bool)
    ensures forall y :: y in Insert(x, s, le) <==> y == x || y in s
  {
    InsertCounts(x, s, le);
    var r := Insert(x, s, le);
    forall y
      ensures y in r <==> y == x || y in s
    {
      assert y in multiset(r) <==> y in multiset{x} + multiset(s);
    }
  }

  lemma SortedCons<T>(x: T, s: seq<T>, le: (T, T) -> bool)
    requires Sorted(s, le) && forall y | y in s :: le(x, y)
    ensures Sorted([x] + s, le)
  {
  }

  lemma SortedTail<T>(s: seq<T>, le: (T, T) -> bool)
    requires s != [] && Sorted(s, le)
    ensures Sorted(s[1..], le) && (forall y | y in s[1..] :: le(s[0], y)) && (NoTies(s, le) ==> NoTies(s[1..], le))
  {
  }

  lemma {:induction false} InsertSorts<T(!new)>(x: T, s: seq<T>, le: (T, T) -> bool)
    requires TotalOrder(le) && Sorted(s, le)
    ensures Sorted(Insert(x, s, le), le)
  {
    if s != [] {
      SortedTail(s, le);
      assert s == [s[0]] + s[1..];
      hide Sorted;
      if le(x, s[0]) {
        SortedCons(x, s, le);
      } else {
        InsertSorts(x, s[1..], le);
        InsertMembers(x, s[1..], le);
        SortedCons(s[0], Insert(x, s[1..], le), le);
      }
    } else {
      assert Sorted([x], le);
    }
  }

  lemma {:induction false} SortSorts<T(!new)>(s: seq<T>, le: (T, T) -> bool)
    requires TotalOrder(le)
    ensures Sorted(Sort(s, le), le)
    ensures multiset(Sort(s, le)) == multiset(s)
  {
    if s != [] {
      SortSorts(s[1..], le);
      InsertSorts(s[0], Sort(s[1..], le), le);
      InsertCounts(s[0], Sort(s[1..], le), le);
      assert s == [s[0]] + s[1..];
    }
  }

  lemma SortMembers<T(!new)>(s: seq<T>, le: (T, T) -> bool)
    requires TotalOrder(le)
    ensures |Sort(s, le)| == |s|
    ensures forall x :: x in Sort(s, le) <==> x in s
  {
    SortSorts(s, le);
    assert |multiset(Sort(s, le))| == |multiset(s)|;
    forall x
      ensures x in Sort(s, le) <==> x in s
    {
      assert x in multiset(Sort(s, le)) <==> x in multiset(s);
    }
  }

  lemma TailCounts<T>(s: seq<T>)
    requires s != []
    ensures multiset(s[1..]) == multiset(s) - multiset{s[0]}
  {
    assert s == [s[0]] + s[1..];
  }

  lemma HeadsAgree<T>(a: seq<T>, b: seq<T>, le: (T, T) -> bool)
    requires Sorted(a, le) && Sorted(b, le) && multiset(a) == multiset(b) && NoTies(a, le)
    requires a != [] && b != []
    ensures a[0] == b[0]
  {
    assert a[0] in multiset(a) && b[0] in multiset(b);
    assert a[0] in b && b[0] in a;
    HeadIsLeast(a, b[0], le);
    HeadIsLeast(b, a[0], le);
  }

  lemma SameCounts<T>(a: seq<T>, b: seq<T>)
    requires multiset(a) == multiset(b)
    ensures |a| == |b|
    ensures a != [] && b != [] && a[0] == b[0] ==> multiset(a[1..]) == multiset(b[1..])
  {
    assert |a| == |multiset(a)| == |multiset(b)| == |b|;
    if a != [] && b != [] && a[0] == b[0] {
      TailCounts(a);
      TailCounts(b);
    }
  }

  /** A sorted list without ties is determined by its elements. */
  lemma {:induction false} SortedIsUnique<T(!new)>(a: seq<T>, b: seq<T>, le: (T, T) -> bool)
    requires Sorted(a, le) && Sorted(b, le) && multiset(a) == multiset(b)
    requires NoTies(a, le)
    ensures a == b
  {
    hide Sorted, NoTies;
    SameCounts(a, b);
    if a != [] {
      HeadsAgree(a, b, le);
      SortedTail(a, le);
      SortedTail(b, le);
      SortedIsUnique(a[1..], b[1..], le);
      assert a == [a[0]] + a[1..] && b == [b[0]] + b[1..];
    }
  }

  lemma HeadIsLeast<T>(s: seq<T>, x: T, le: (T, T) -> bool)
    requires s != [] && Sorted(s, le) && x in s
    ensures x == s[0] || le(s[0], x)
  {
    var i :| 0 <= i < |s| && s[i] == x;
  }

  /** The order in which elements arrive does not matter. */
  lemma SortIgnoresOrder<T(!new)>(a: seq<T>, b: seq<T>, le: (T, T) -> bool)
    requires TotalOrder(le) && multiset(a) == multiset(b) && NoTies(a, le)
    ensures Sort(a, le) == Sort(b, le)
  {
    SortSorts(a, le);
    SortSorts(b, le);
    SortMembers(a, le);
    SortedIsUnique(Sort(a, le), Sort(b, le), le);
  }

  // ---------------------------------------------------------------------------
  // Filtering
  // ---------------------------------------------------------------------------

  function Filter<T(!new)>(s: seq<T>, keep: T -> bool): (r: seq<T>)
    ensures forall x :: x in r <==> x in s && keep(x)
  {
    if s == [] then []
    else if keep(s[0]) then [s[0]] + Filter(s[1..], keep)
    else Filter(s[1..], keep)
  }

  lemma {:induction false} FilterAppend<T(!new)>(a: seq<T>, b: seq<T>, keep: T -> bool)
    ensures Filter(a + b, keep) == Filter(a, keep) + Filter(b, keep)
  {
    if a == [] {
      assert a + b == b;
    } else {
      assert (a + b)[1..] == a[1..] + b;
      FilterAppend(a[1..], b, keep);
    }
  }

  /** Filtering keeps exactly the occurrences of what it keeps. */
  lemma {:induction false} FilterCounts<T(!new)>(s: seq<T>, keep: T -> bool, x: T)
    ensures multiset(Filter(s, keep))[x] == if keep(x) then multiset(s)[x] else 0
  {
    if s != [] {
      FilterCounts(s[1..], keep, x);
      assert s == [s[0]] + s[1..];
    }
  }

  lemma FilterIgnoresOrder<T(!new)>(a: seq<T>, b: seq<T>, keep: T -> bool)
    requires multiset(a) == multiset(b)
    ensures multiset(Filter(a, keep)) == multiset(Filter(b, keep))
  {
    forall x
      ensures multiset(Filter(a, keep))[x] == multiset(Filter(b, keep))[x]
    {
      FilterCounts(a, keep, x);
      FilterCounts(b, keep, x);
    }
  }

  function Map<T, U>(s: seq<T>, f: T -> U): (r: seq<U>)
    ensures |r| == |s| && forall i | 0 <= i < |s| :: r[i] == f(s[i])
  {
    seq(|s|, i requires 0 <= i < |s| => f(s[i]))
  }

  /** The order of `le` on keys. */
  function ByKey<T, U>(f: T -> U, le: (U, U) -> bool): (T, T) -> bool {
    (a, b) => le(f(a), f(b))
  }

  lemma {:induction false} InsertMap<T(!new), U>(x: T, s: seq<T>, f: T -> U, le: (U, U) -> bool)
    ensures Insert(f(x), Map(s, f), le) == Map(Insert(x, s, ByKey(f, le)), f)
  {
    var order := ByKey(f, le);
    if s != [] && !le(f(x), f(s[0])) {
      InsertMap(x, s[1..], f, le);
      assert Map(s, f)[1..] == Map(s[1..], f);
      assert Map([s[0]] + Insert(x, s[1..], order), f) == [f(s[0])] + Map(Insert(x, s[1..], order), f);
    } else {
      assert Map([x] + s, f) == [f(x)] + Map(s, f);
      assert Map([x], f) == [f(x)];
    }
  }

  /** Sorting keyed values is sorting by key. */
  lemma {:induction false} SortMap<T(!new), U>(s: seq<T>, f: T -> U, le: (U, U) -> bool)
    ensures Sort(Map(s, f), le) == Map(Sort(s, ByKey(f, le)), f)
  {
    if s != [] {
      assert Map(s, f)[1..] == Map(s[1..], f);
      SortMap(s[1..], f, le);
      InsertMap(s[0], Sort(s[1..], ByKey(f, le)), f, le);
    }
  }

  // ---------------------------------------------------------------------------
  // Names and paths
  // ---------------------------------------------------------------------------

  predicate NameLe(a: string, b: string) {
    if a == [] then true
    else if b == [] then false
    else a[0] < b[0] || (a[0] == b[0] && NameLe(a[1..], b[1..]))
  }

  predicate PathLe(a: Path, b: Path) {
    if a == [] then true
    else if b == [] then false
    else if a[0] == b[0] then PathLe(a[1..], b[1..])
    else NameLe(a[0], b[0])
  }

  /** The first position at which two lists differ. */
  ghost predicate DifferAt<T>(a: seq<T>, b: seq<T>, k: nat) {
    k < |a| && k < |b| && a[..k] == b[..k] && a[k] != b[k]
  }

  /** Names in dictionary order: a prefix, or smaller where they first differ. */
  ghost predicate NameBefore(a: string, b: string) {
    a <= b || exists k: nat :: DifferAt(a, b, k) && a[k] < b[k]
  }

  /** Paths in dictionary order, component by component. */
  ghost predicate PathBefore(a: Path, b: Path) {
    a <= b || exists k: nat :: DifferAt(a, b, k) && NameBefore(a[k], b[k])
  }

  lemma DifferLater<T>(a: seq<T>, b: seq<T>, k: nat)
    requires a != [] && b != [] && a[0] == b[0]
    ensures DifferAt(a, b, k + 1) <==> DifferAt(a[1..], b[1..], k)
    ensures !DifferAt(a, b, 0)
    ensures a <= b <==> a[1..] <= b[1..]
  {
    if k + 1 <= |a| && k + 1 <= |b| {
      assert a[..k + 1] == [a[0]] + a[1..][..k] && b[..k + 1] == [b[0]] + b[1..][..k];
      assert a[..k + 1][1..] == a[1..][..k] && b[..k + 1][1..] == b[1..][..k];
    }
    assert a == [a[0]] + a[1..] && b == [b[0]] + b[1..];
  }

  lemma {:induction false} NameLeIsBefore(a: string, b: string)
    ensures NameLe(a, b) <==> NameBefore(a, b)
  {
    if a != [] && b != [] {
      if a[0] == b[0] {
        NameLeIsBefore(a[1..], b[1..]);
        NameBeforeTail(a, b);
      } else {
        assert DifferAt(a, b, 0);
        DifferOnlyAtFirst(a, b);
      }
    }
  }

  lemma DifferOnlyAtFirst<T>(a: seq<T>, b: seq<T>)
    requires a != [] && b != [] && a[0] != b[0]
    ensures forall k: nat | DifferAt(a, b, k) :: k == 0
  {
    forall k: nat | 0 < k <= |a| && k <= |b|
      ensures a[..k] != b[..k]
    {
      assert a[..k][0] == a[0] && b[..k][0] == b[0];
    }
  }

  lemma NameBeforeTail(a: string, b: string)
    requires a != [] && b != [] && a[0] == b[0]
    ensures NameBefore(a, b) <==> NameBefore(a[1..], b[1..])
  {
    DifferLater(a, b, 0);
    if k: nat :| DifferAt(a[1..], b[1..], k) && a[1..][k] < b[1..][k] {
      DifferLater(a, b, k);
      assert DifferAt(a, b, k + 1) && a[k + 1] < b[k + 1];
    }
    if k: nat :| DifferAt(a, b, k) && a[k] < b[k] {
      DifferLater(a, b, k - 1);
      assert DifferAt(a[1..], b[1..], k - 1) && a[1..][k - 1] < b[1..][k - 1];
    }
  }

  lemma {:induction false} PathLeIsBefore(a: Path, b: Path)
    ensures PathLe(a, b) <==> PathBefore(a, b)
  {
    if a != [] && b != [] {
      if a[0] == b[0] {
        PathLeIsBefore(a[1..], b[1..]);
        PathBeforeTail(a, b);
      } else {
        NameLeIsBefore(a[0], b[0]);
        assert DifferAt(a, b, 0);
        DifferOnlyAtFirst(a, b);
      }
    }
  }

  lemma PathBeforeTail(a: Path, b: Path)
    requires a != [] && b != [] && a[0] == b[0]
    ensures PathBefore(a, b) <==> PathBefore(a[1..], b[1..])
  {
    hide NameBefore;
    DifferLater(a, b, 0);
    if k: nat :| DifferAt(a[1..], b[1..], k) && NameBefore(a[1..][k], b[1..][k]) {
      DifferLater(a, b, k);
      assert DifferAt(a, b, k + 1) && NameBefore(a[k + 1], b[k + 1]);
    }
    if k: nat :| DifferAt(a, b, k) && NameBefore(a[k], b[k]) {
      DifferLater(a, b, k - 1);
      assert DifferAt(a[1..], b[1..], k - 1) && NameBefore(a[1..][k - 1], b[1..][k - 1]);
    }
  }

  lemma {:induction false} NameLeTotal(a: string, b: string)
    ensures NameLe(a, b) || NameLe(b, a)
    ensures NameLe(a, b) && NameLe(b, a) ==> a == b
  {
    if a != [] && b != [] && a[0] == b[0] {
      NameLeTotal(a[1..], b[1..]);
      assert a == [a[0]] + a[1..] && b == [b[0]] + b[1..];
    }
  }

  lemma {:induction false} NameLeTransitive(a: string, b: string, c: string)
    requires NameLe(a, b) && NameLe(b, c)
    ensures NameLe(a, c)
  {
    if a != [] && a[0] == b[0] && b[0] == c[0] { NameLeTransitive(a[1..], b[1..], c[1..]); }
  }

  lemma {:induction false} PathLeTotal(a: Path, b: Path)
    ensures PathLe(a, b) || PathLe(b, a)
    ensures PathLe(a, b) && PathLe(b, a) ==> a == b
  {
    if a != [] && b != [] {
      if a[0] == b[0] {
        PathLeTotal(a[1..], b[1..]);
        assert a == [a[0]] + a[1..] && b == [b[0]] + b[1..];
      } else {
        NameLeTotal(a[0], b[0]);
      }
    }
  }

  lemma {:induction false} PathLeTransitive(a: Path, b: Path, c: Path)
    requires PathLe(a, b) && PathLe(b, c)
    ensures PathLe(a, c)
  {
    if a != [] {
      if a[0] == b[0] && b[0] == c[0] {
        PathLeTransitive(a[1..], b[1..], c[1..]);
      } else if a[0] != b[0] && b[0] != c[0] {
        NameLeTransitive(a[0], b[0], c[0]);
        NameLeTotal(a[0], b[0]);
      }
    }
  }

  lemma PathLeIsTotalOrder()
    ensures TotalOrder(PathLe)
    ensures forall s: seq<Path> :: NoTies(s, PathLe)
  {
    forall a, b
      ensures PathLe(a, b) || PathLe(b, a)
      ensures PathLe(a, b) && PathLe(b, a) ==> a == b
    {
      PathLeTotal(a, b);
    }
    forall a, b, c | PathLe(a, b) && PathLe(b, c)
      ensures PathLe(a, c)
    {
      PathLeTransitive(a, b, c);
    }
  }
}

/**
 Which rule and which file wins, said without the searches and the sort orders that find them: rules count from
 the first, files of one rule by the order of their paths.
 */
module LayoutLaws {
  import opened Basics
  import opened Sorting
  import opened Layout

  // ---------------------------------------------------------------------------
  // Names
  // ---------------------------------------------------------------------------

  /** `stem` is `name` up to its last dot, unless that dot comes first or there is none. */
  ghost predicate IsStem(name: string, stem: string) {
    || (stem != [] && exists extension :: '.' !in extension && name == stem + "." + extension)
    || (stem == name && forall i | 1 <= i < |name| :: name[i] != '.')
  }

  /** `short` is `name` without the rule's suffix or, for a rule without one, its stem. */
  ghost predicate ShortName(rule: SyncRule, name: string, short: string) {
    match rule.suffix
    case Some(suffix) => name == short + suffix || (short == name && !EndsWith(name, suffix))
    case None => IsStem(name, short)
  }

  lemma {:induction false} LastDotIs(name: string)
    ensures LastDot(name) >= 0 ==> name[LastDot(name)] == '.'
    ensures forall i | LastDot(name) < i < |name| :: name[i] != '.'
  {
    if name != [] && name[|name| - 1] != '.' { LastDotIs(name[..|name| - 1]); }
  }

  lemma StemIff(name: string, stem: string)
    ensures Stem(name) == stem <==> IsStem(name, stem)
  {
    LastDotIs(name);
    var i := LastDot(name);
    if i > 0 {
      assert name == name[..i] + "." + name[i + 1..];
      assert '.' !in name[i + 1..];
    }
    if extension :| '.' !in extension && name == stem + "." + extension && stem != [] {
      assert name[|stem|] == '.';
      assert forall k | |stem| < k < |name| :: name[k] == extension[k - |stem| - 1];
      assert i == |stem| && name[..i] == stem;
    }
  }

  /** A rule's name for a file, both ways. */
  lemma RuleNameIff(rule: SyncRule, path: Path, short: string)
    ensures RuleName(rule, path) == short <==> ShortName(rule, Name(path), short)
  {
    var name := Name(path);
    match rule.suffix
    case None => StemIff(name, short);
    case Some(suffix) =>
      if EndsWith(name, suffix) {
        assert name == name[..|name| - |suffix|] + suffix;
        if name == short + suffix { assert name[..|name| - |suffix|] == short; }
      }
      if |suffix| <= |name| { assert name[|name| - |suffix|..] == suffix ==> EndsWith(name, suffix); }
  }

  // ---------------------------------------------------------------------------
  // The first rule
  // ---------------------------------------------------------------------------

  /** Rule `k` is in force for files like this one and takes it as defining its directory. */
  ghost predicate TakesInit(ctx: Context, path: Path, k: nat) {
    && k < |ctx.rules|
    && var rule := ctx.rules[k];
       && rule.childPattern.Some? && rule.childPattern.value(Name(path)) && !rule.exclude(path)
       && rule.middleware != InstanceData && ctx.scopeAllows(rule.middleware, path)
  }

  /** Rule `k` is in force for files like this one and takes it as an instance of its own. */
  ghost predicate TakesFile(ctx: Context, path: Path, k: nat) {
    && k < |ctx.rules|
    && var rule := ctx.rules[k];
       && rule.pattern.Some? && rule.pattern.value(path) && !rule.exclude(path)
       && rule.middleware != InstanceData && ctx.scopeAllows(rule.middleware, path)
  }

  ghost predicate FirstInitRule(ctx: Context, path: Path, k: nat) {
    TakesInit(ctx, path, k) && forall j: nat | j < k :: !TakesInit(ctx, path, j)
  }

  ghost predicate FirstFileRule(ctx: Context, path: Path, k: nat) {
    TakesFile(ctx, path, k) && forall j: nat | j < k :: !TakesFile(ctx, path, j)
  }

  lemma {:induction false} InitSearch(ctx: Context, path: Path, i: nat)
    ensures var r := InitFrom(ctx, path, i);
            && (r.Some? ==>
                  && i <= r.value.rule && TakesInit(ctx, path, r.value.rule)
                  && (forall j: nat | i <= j < r.value.rule :: !TakesInit(ctx, path, j))
                  && r.value == InitCandidate(path, r.value.rule, ctx.rules[r.value.rule].middleware, Name(Parent(path))))
            && (r.None? ==> forall j: nat | i <= j :: !TakesInit(ctx, path, j))
    decreases |ctx.rules| - i
  {
    if i < |ctx.rules| { InitSearch(ctx, path, i + 1); }
  }

  lemma {:induction false} FileSearch(ctx: Context, path: Path, i: nat)
    ensures var r := RuleFrom(ctx, path, i);
            && (r.Some? ==>
                  && i <= r.value.0 && TakesFile(ctx, path, r.value.0)
                  && (forall j: nat | i <= j < r.value.0 :: !TakesFile(ctx, path, j))
                  && r.value.1 == Resolved(ctx.rules[r.value.0].middleware, RuleName(ctx.rules[r.value.0], path)))
            && (r.None? ==> forall j: nat | i <= j :: !TakesFile(ctx, path, j))
    decreases |ctx.rules| - i
  {
    if i < |ctx.rules| { FileSearch(ctx, path, i + 1); }
  }

  /** A file defines its directory by the first rule that takes it so, under the directory's own name. */
  lemma InitIsFirstRule(ctx: Context, path: Path)
    ensures Init(ctx, path).None? <==> forall k: nat :: !TakesInit(ctx, path, k)
    ensures var c := Init(ctx, path);
            c.Some? ==>
              && FirstInitRule(ctx, path, c.value.rule) && c.value.path == path
              && c.value.middleware == ctx.rules[c.value.rule].middleware && c.value.name == Name(Parent(path))
  {
    InitSearch(ctx, path, 0);
  }

  /** A file becomes an instance by the first rule that takes it, under the name that rule leaves of its own. */
  lemma FileRuleIsFirstRule(ctx: Context, path: Path)
    ensures FileRule(ctx, path).None? <==> forall k: nat :: !TakesFile(ctx, path, k)
    ensures var r := FileRule(ctx, path);
            r.Some? ==>
              && FirstFileRule(ctx, path, r.value.0)
              && r.value.1.middleware == ctx.rules[r.value.0].middleware
              && ShortName(ctx.rules[r.value.0], Name(path), r.value.1.name)
  {
    FileSearch(ctx, path, 0);
    var r := FileRule(ctx, path);
    if r.Some? { RuleNameIff(ctx.rules[r.value.0], path, r.value.1.name); }
  }

  /** A file and a folder stand for the same instance: the file's first rule, not a project's, leaves the folder's name. */
  ghost predicate PairsBy(ctx: Context, path: Path, name: string, k: nat) {
    && FirstFileRule(ctx, path, k) && ctx.rules[k].middleware != Project
    && ShortName(ctx.rules[k], Name(path), name)
  }

  lemma PairsByIff(ctx: Context, path: Path, name: string, k: nat)
    ensures PairsBy(ctx, path, name, k) <==> FlatName(ctx, path) == Some((k, name))
  {
    FileRuleIsFirstRule(ctx, path);
    var r := FileRule(ctx, path);
    hide FileRule;
    if FirstFileRule(ctx, path, k) {
      FileSearchIsFirst(ctx, path, k);
      RuleNameIff(ctx.rules[k], path, name);
    }
    if r.Some? { RuleNameIff(ctx.rules[r.value.0], path, r.value.1.name); }
  }

  lemma FileSearchIsFirst(ctx: Context, path: Path, k: nat)
    requires FirstFileRule(ctx, path, k)
    ensures FileRule(ctx, path) == Some((k, Resolved(ctx.rules[k].middleware, RuleName(ctx.rules[k], path))))
  {
    FileSearch(ctx, path, 0);
  }

  // ---------------------------------------------------------------------------
  // The order of a layout
  // ---------------------------------------------------------------------------

  /** An earlier rule, or the same rule and an earlier path. */
  ghost predicate Outranks(rule: nat, path: Path, rule': nat, path': Path) {
    rule < rule' || (rule == rule' && PathBefore(path, path'))
  }

  lemma InitIff(ctx: Context, c: InitCandidate)
    ensures Init(ctx, c.path) == Some(c) <==>
            && FirstInitRule(ctx, c.path, c.rule)
            && c.middleware == ctx.rules[c.rule].middleware && c.name == Name(Parent(c.path))
  {
    InitIsFirstRule(ctx, c.path);
  }

  /** Every init of a layout is a listed file, by its first rule. */
  lemma InitsAreCandidates(dir: Path, ctx: Context, fs: Fs, layout: DirLayout, c: InitCandidate)
    requires LayoutOf(dir, ctx, fs) == Some(layout)
    ensures c in layout.inits <==>
            && c.path in fs.list(dir).value && !IsExcluded(ctx, c.path) && fs.isFile(c.path)
            && FirstInitRule(ctx, c.path, c.rule)
            && c.middleware == ctx.rules[c.rule].middleware && c.name == Name(Parent(c.path))
  {
    InitIff(ctx, c);
    hide Sort, Filter, Shadows, Init, CandidateLe, FirstInitRule;
    var listing := fs.list(dir).value;
    EntriesOfClass(listing, ctx, fs, InitFile);
    var paths := Filter(Sort(listing, PathLe), OfClass(ctx, fs, InitFile));
    var found := Map(paths, InitOf(ctx));
    CandidateOrder();
    SortMembers(found, CandidateLe);
    if c in found {
      var i :| 0 <= i < |found| && found[i] == c;
      assert paths[i] in paths;
      InitIsFirstRule(ctx, paths[i]);
    }
    if c.path in paths {
      var i :| 0 <= i < |paths| && paths[i] == c.path;
      assert found[i] in found;
    }
  }

  /** Inits are ranked: the first rule wins, and of several files of one rule the first path. */
  lemma InitsAreRanked(dir: Path, ctx: Context, fs: Fs, layout: DirLayout, i: nat, j: nat)
    requires LayoutOf(dir, ctx, fs) == Some(layout) && i < j < |layout.inits|
    ensures Outranks(layout.inits[i].rule, layout.inits[i].path, layout.inits[j].rule, layout.inits[j].path)
  {
    var found := Map(Filter(Sort(fs.list(dir).value, PathLe), OfClass(ctx, fs, InitFile)), InitOf(ctx));
    assert layout.inits == Sort(found, CandidateLe) by { hide Sort, Filter, Shadows, CandidateLe; }
    CandidateOrder();
    SortSorts(found, CandidateLe);
    PathLeIsBefore(layout.inits[i].path, layout.inits[j].path);
  }

  /** Children come in the order of their paths. */
  lemma ChildrenAreOrdered(dir: Path, ctx: Context, fs: Fs, layout: DirLayout, i: nat, j: nat)
    requires LayoutOf(dir, ctx, fs) == Some(layout) && i < j < |layout.children|
    ensures PathBefore(layout.children[i], layout.children[j])
  {
    var entries := Sort(fs.list(dir).value, PathLe);
    var files, dirs := Filter(entries, OfClass(ctx, fs, File)), Filter(entries, OfClass(ctx, fs, Folder));
    var seen := Filter(files + dirs, NotHidden(layout.shadowed));
    assert layout.children == Sort(seen, PathLe) by { hide Sort, Filter, Shadows; }
    PathLeIsTotalOrder();
    SortSorts(seen, PathLe);
    PathLeIsBefore(layout.children[i], layout.children[j]);
  }

  // ---------------------------------------------------------------------------
  // The flat file that wins
  // ---------------------------------------------------------------------------

  /** `w`, by rule `k`, is the best of the listed files that pair with `name`. */
  ghost predicate BestFlat(ctx: Context, fs: Fs, listing: seq<Path>, name: string, w: Path, k: nat) {
    && w in listing && ClassOf(ctx, fs, w) == File && PairsBy(ctx, w, name, k)
    && forall f, j: nat | f in listing && ClassOf(ctx, fs, f) == File && PairsBy(ctx, f, name, j) :: Outranks(k, w, j, f)
  }

  /** A folder is hidden exactly when it is empty, by the best of the files that pair with it. */
  lemma EmptyFolderYieldsToBest(dir: Path, ctx: Context, fs: Fs, e: Path, layout: DirLayout, w: Path)
    requires LayoutOf(dir, ctx, fs) == Some(layout)
    requires e in fs.list(dir).value && ClassOf(ctx, fs, e) == Folder
    ensures RecordsHidden(layout, e, w) <==>
            Shape(e, ctx, fs) == Some(Empty) && exists k: nat :: BestFlat(ctx, fs, fs.list(dir).value, Name(e), w, k)
  {
    assert fs.list(dir).Some?;
    hide LayoutOf, RecordsHidden, Shape, FlatsNamed, BestFlat, Sort, Filter;
    HiddenFolder(dir, ctx, fs, e, layout, w);
    BestIsFirst(dir, ctx, fs, Name(e), w);
  }

  lemma BestIsFirst(dir: Path, ctx: Context, fs: Fs, name: string, w: Path)
    requires fs.list(dir).Some?
    ensures var listing := fs.list(dir).value;
            var flats := FlatsNamed(ctx, Filter(Sort(listing, PathLe), OfClass(ctx, fs, File)), name);
            flats != [] && flats[0] == w <==> exists k: nat :: BestFlat(ctx, fs, listing, name, w, k)
  {
    var listing := fs.list(dir).value;
    var files := Filter(Sort(listing, PathLe), OfClass(ctx, fs, File));
    var flats := FlatsNamed(ctx, files, name);
    EntriesOfClass(listing, ctx, fs, File);
    FlatsNamedMembers(ctx, files, name);
    FlatsAreRanked(ctx, files, name);
    hide Sort, Filter, FlatsNamed, FlatName, ClassOf, PairsBy, Outranks, Ranked, BestFlat;
    assert AllFlats(ctx, fs, listing, name, flats);
    if flats != [] && flats[0] == w {
      var k := FirstIsBest(ctx, fs, listing, name, flats);
    }
    if k: nat :| BestFlat(ctx, fs, listing, name, w, k) {
      BestLeads(ctx, fs, listing, name, flats, w, k);
    }
  }

  /** However the two files pair with `name`, the first outranks the second. */
  ghost predicate Ranked(ctx: Context, name: string, a: Path, b: Path) {
    forall k: nat, j: nat | PairsBy(ctx, a, name, k) && PairsBy(ctx, b, name, j) :: Outranks(k, a, j, b)
  }

  lemma RankedIff(ctx: Context, name: string, a: Path, b: Path)
    requires ByKey(FlatKey(ctx), FlatLe)(a, b)
    ensures Ranked(ctx, name, a, b)
  {
    FlatOrderIs(ctx, a, b);
    PathLeIsBefore(a, b);
    hide PairsBy, FlatName, PathBefore, PathLe;
    forall k: nat, j: nat | PairsBy(ctx, a, name, k) && PairsBy(ctx, b, name, j)
      ensures Outranks(k, a, j, b)
    {
      PairsByIff(ctx, a, name, k);
      PairsByIff(ctx, b, name, j);
    }
  }

  lemma FlatsAreRanked(ctx: Context, files: seq<Path>, name: string)
    ensures var flats := FlatsNamed(ctx, files, name);
            forall i, j | 0 <= i < j < |flats| :: Ranked(ctx, name, flats[i], flats[j])
  {
    var le, flats := ByKey(FlatKey(ctx), FlatLe), FlatsNamed(ctx, files, name);
    FlatOrder(ctx);
    SortSorts(Filter(files, FlatNamed(ctx, name)), le);
    assert Sorted(flats, le);
    hide Sort, Filter, FlatsNamed, Ranked;
    forall i, j | 0 <= i < j < |flats|
      ensures Ranked(ctx, name, flats[i], flats[j])
    {
      RankedIff(ctx, name, flats[i], flats[j]);
    }
  }

  /** `flats` are the listed files that pair with `name`. */
  ghost predicate AllFlats(ctx: Context, fs: Fs, listing: seq<Path>, name: string, flats: seq<Path>) {
    && (forall f :: f in flats <==> f in listing && ClassOf(ctx, fs, f) == File && FlatNamed(ctx, name)(f))
    && forall i, j | 0 <= i < j < |flats| :: Ranked(ctx, name, flats[i], flats[j])
  }

  lemma PairsSomehow(ctx: Context, name: string, f: Path) returns (k: nat)
    requires FlatNamed(ctx, name)(f)
    ensures PairsBy(ctx, f, name, k)
  {
    k := FlatName(ctx, f).value.0;
    PairsByIff(ctx, f, name, k);
  }

  lemma FirstIsBest(ctx: Context, fs: Fs, listing: seq<Path>, name: string, flats: seq<Path>) returns (k: nat)
    requires flats != [] && AllFlats(ctx, fs, listing, name, flats)
    ensures BestFlat(ctx, fs, listing, name, flats[0], k)
  {
    var w := flats[0];
    hide FlatName, ClassOf, PairsBy, PathBefore;
    k := PairsSomehow(ctx, name, w);
    forall f, j: nat | f in listing && ClassOf(ctx, fs, f) == File && PairsBy(ctx, f, name, j)
      ensures Outranks(k, w, j, f)
    {
      PairsByIff(ctx, f, name, j);
      PairsByIff(ctx, w, name, k);
      var m :| 0 <= m < |flats| && flats[m] == f;
      PathLeTotal(w, w);
      PathLeIsBefore(w, w);
    }
  }

  lemma BestLeads(ctx: Context, fs: Fs, listing: seq<Path>, name: string, flats: seq<Path>, w: Path, k: nat)
    requires AllFlats(ctx, fs, listing, name, flats) && BestFlat(ctx, fs, listing, name, w, k)
    ensures flats != [] && flats[0] == w
  {
    hide FlatName, ClassOf, PairsBy, PathBefore;
    PairsByIff(ctx, w, name, k);
    var m :| 0 <= m < |flats| && flats[m] == w;
    var first := flats[0];
    var j := PairsSomehow(ctx, name, first);
    PathLeIsBefore(w, first);
    PathLeIsBefore(first, w);
    PathLeTotal(w, first);
  }

  // ---------------------------------------------------------------------------
  // The order of the shadows
  // ---------------------------------------------------------------------------

  /** The folder a shadow is about. */
  function FolderOf(s: Shadowed): Path {
    if s.reason == FolderHasInit then s.winner else s.hidden
  }

  lemma {:induction false} OrderedShadows(dirs: seq<Path>, files: seq<Path>, ctx: Context, fs: Fs, i: nat, j: nat)
    requires Sorted(dirs, PathLe) && Shadows(dirs, files, ctx, fs).Some?
    requires i < j < |Shadows(dirs, files, ctx, fs).value|
    ensures var shadows := Shadows(dirs, files, ctx, fs).value; PathLe(FolderOf(shadows[i]), FolderOf(shadows[j]))
  {
    var n := |dirs| - 1;
    ShadowsSplit(dirs, files, ctx, fs);
    var shadows := Shadows(dirs, files, ctx, fs).value;
    var a, b := Shadows(dirs[..n], files, ctx, fs).value, ShadowsFor(dirs[n], files, ctx, fs).value;
    hide Shadows, ShadowsFor;
    if j < |a| {
      OrderedShadows(dirs[..n], files, ctx, fs, i, j);
    } else {
      ShadowIsOfFolder(dirs[n], files, ctx, fs, shadows[j]);
      PathLeTotal(dirs[n], dirs[n]);
      if i < |a| {
        ShadowsMembers(dirs[..n], files, ctx, fs, shadows[i]);
        var d :| d in dirs[..n] && Contributes(d, files, ctx, fs, shadows[i]);
        ShadowIsOfFolder(d, files, ctx, fs, shadows[i]);
      } else {
        ShadowIsOfFolder(dirs[n], files, ctx, fs, shadows[i]);
      }
    }
  }

  lemma ShadowIsOfFolder(d: Path, files: seq<Path>, ctx: Context, fs: Fs, s: Shadowed)
    requires ShadowsFor(d, files, ctx, fs).Some? && s in ShadowsFor(d, files, ctx, fs).value
    ensures FolderOf(s) == d && s.name == Name(d)
  {
    ShadowsForMembers(d, files, ctx, fs, s);
  }

  /** Shadows are reported folder by folder, in the order of the folders' paths, each under its folder's name. */
  lemma ShadowsAreOrdered(dir: Path, ctx: Context, fs: Fs, layout: DirLayout, i: nat, j: nat)
    requires LayoutOf(dir, ctx, fs) == Some(layout) && i < j < |layout.shadowed|
    ensures PathBefore(FolderOf(layout.shadowed[i]), FolderOf(layout.shadowed[j]))
    ensures layout.shadowed[i].name == Name(FolderOf(layout.shadowed[i]))
  {
    var listing := fs.list(dir).value;
    var entries := Sort(listing, PathLe);
    var files, dirs := Filter(entries, OfClass(ctx, fs, File)), Filter(entries, OfClass(ctx, fs, Folder));
    LayoutShadows(dir, ctx, fs, layout);
    PathLeIsTotalOrder();
    SortSorts(listing, PathLe);
    FilteredStaysSorted(entries, OfClass(ctx, fs, Folder));
    hide Sort, Filter, Shadows, LayoutOf, Sorted;
    OrderedShadows(dirs, files, ctx, fs, i, j);
    PathLeIsBefore(FolderOf(layout.shadowed[i]), FolderOf(layout.shadowed[j]));
    ShadowsMembers(dirs, files, ctx, fs, layout.shadowed[i]);
    var d :| d in dirs && Contributes(d, files, ctx, fs, layout.shadowed[i]);
    ShadowIsOfFolder(d, files, ctx, fs, layout.shadowed[i]);
  }

  lemma {:induction false} FilteredStaysSorted(s: seq<Path>, keep: Path -> bool)
    requires Sorted(s, PathLe)
    ensures Sorted(Filter(s, keep), PathLe)
  {
    if s != [] {
      SortedTail(s, PathLe);
      FilteredStaysSorted(s[1..], keep);
      if keep(s[0]) { SortedCons(s[0], Filter(s[1..], keep), PathLe); }
    }
  }
}

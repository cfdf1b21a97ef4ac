/**
 How a directory turns into instances. `LayoutOf` sorts all entries of a directory into inits, children and
 shadows; `FormOf` answers for a single path which sibling, if any, is taken in its place. The two are computed by
 different loops and agree wherever names are ordinary.
 */
module Layout {
  import opened Basics
  import opened Sorting

  // ---------------------------------------------------------------------------
  // Rules
  // ---------------------------------------------------------------------------

  datatype Middleware = Project | InstanceData | Instance(kind: nat)

  /** Globs are arbitrary predicates. */
  datatype SyncRule = SyncRule(
    middleware: Middleware,
    pattern: Option<Path -> bool>,
    childPattern: Option<string -> bool>,
    exclude: Path -> bool,
    suffix: Option<string>)

  datatype Context = Context(
    rules: seq<SyncRule>,
    ignored: Path -> bool,
    scopeAllows: (Middleware, Path) -> bool)

  datatype Resolved = Resolved(middleware: Middleware, name: string)

  function Name(path: Path): string {
    if path == [] || path[|path| - 1] == ".." then "" else path[|path| - 1]
  }

  function Parent(path: Path): Path {
    if path == [] then [] else path[..|path| - 1]
  }

  predicate EndsWith(s: string, suffix: string) {
    |suffix| <= |s| && s[|s| - |suffix|..] == suffix
  }

  /** The name without its final extension; a leading dot is not an extension. */
  function Stem(name: string): string {
    var i := LastDot(name);
    if i <= 0 then name else name[..i]
  }

  function LastDot(name: string): (i: int)
    ensures -1 <= i < |name|
  {
    if name == [] then -1
    else if name[|name| - 1] == '.' then |name| - 1
    else LastDot(name[..|name| - 1])
  }

  function RuleName(rule: SyncRule, path: Path): string {
    var name := Name(path);
    match rule.suffix
    case Some(suffix) => if EndsWith(name, suffix) then name[..|name| - |suffix|] else name
    case None => Stem(name)
  }

  /** Naming by a rule only ever strips characters from the end. */
  lemma RuleNameIsPrefix(rule: SyncRule, path: Path)
    ensures RuleName(rule, path) <= Name(path)
  {
  }

  function Resolve(rule: SyncRule, path: Path): Option<Resolved> {
    if rule.pattern.Some? && rule.pattern.value(path) && !rule.exclude(path) && rule.middleware != InstanceData
    then Some(Resolved(rule.middleware, RuleName(rule, path)))
    else None
  }

  function ResolveChild(rule: SyncRule, path: Path): Option<Resolved> {
    if rule.childPattern.Some? && rule.childPattern.value(Name(path)) && !rule.exclude(path)
       && rule.middleware != InstanceData
    then Some(Resolved(rule.middleware, Name(Parent(path))))
    else None
  }

  datatype InitCandidate = InitCandidate(path: Path, rule: nat, middleware: Middleware, name: string)

  function InitFrom(ctx: Context, path: Path, i: nat): Option<InitCandidate>
    decreases |ctx.rules| - i
  {
    if i >= |ctx.rules| then None
    else
      match ResolveChild(ctx.rules[i], path)
      case Some(r) =>
        if ctx.scopeAllows(r.middleware, path) then Some(InitCandidate(path, i, r.middleware, r.name))
        else InitFrom(ctx, path, i + 1)
      case None => InitFrom(ctx, path, i + 1)
  }

  /** How `path` defines the directory it is in: by the first rule in force that takes it as a child. */
  function Init(ctx: Context, path: Path): Option<InitCandidate> {
    InitFrom(ctx, path, 0)
  }

  function RuleFrom(ctx: Context, path: Path, i: nat): Option<(nat, Resolved)>
    decreases |ctx.rules| - i
  {
    if i >= |ctx.rules| then None
    else
      match Resolve(ctx.rules[i], path)
      case Some(r) => if ctx.scopeAllows(r.middleware, path) then Some((i, r)) else RuleFrom(ctx, path, i + 1)
      case None => RuleFrom(ctx, path, i + 1)
  }

  /** How `path` becomes an instance of its own: by the first rule in force that takes it. */
  function FileRule(ctx: Context, path: Path): Option<(nat, Resolved)> {
    RuleFrom(ctx, path, 0)
  }

  datatype Flat = Flat(rule: nat, path: Path)

  /** The name that pairs a file with a folder, and the rule that gives it; a project file has none. */
  function FlatName(ctx: Context, path: Path): Option<(nat, string)> {
    match FileRule(ctx, path)
    case Some((i, r)) => if r.middleware == Project then None else Some((i, r.name))
    case None => None
  }

  lemma {:induction false} RuleNamesArePrefixes(ctx: Context, path: Path, i: nat)
    ensures RuleFrom(ctx, path, i).Some? ==> RuleFrom(ctx, path, i).value.1.name <= Name(path)
    decreases |ctx.rules| - i
  {
    if i < |ctx.rules| {
      RuleNameIsPrefix(ctx.rules[i], path);
      RuleNamesArePrefixes(ctx, path, i + 1);
    }
  }

  // ---------------------------------------------------------------------------
  // Directories
  // ---------------------------------------------------------------------------

  /** A file system by what it answers; `list` answers `None` where it fails. */
  datatype Fs = Fs(list: Path -> Option<seq<Path>>, isDir: Path -> bool, isFile: Path -> bool)

  const RESHAPE_SUFFIX := ".wsync-reshape"

  predicate IsStaging(path: Path) {
    EndsWith(Name(path), RESHAPE_SUFFIX)
  }

  predicate IsExcluded(ctx: Context, path: Path) {
    IsStaging(path) || ctx.ignored(path)
  }

  datatype FolderShape = HasInit | Empty | Content

  datatype ShadowReason = FolderHasInit | EmptyFolder

  datatype Shadowed = Shadowed(hidden: Path, winner: Path, name: string, reason: ShadowReason)

  datatype DirLayout = DirLayout(
    dir: Path,
    inits: seq<InitCandidate>,
    children: seq<Path>,
    shadowed: seq<Shadowed>,
    staging: seq<Path>)

  predicate DefinesFolder(ctx: Context, fs: Fs, e: Path) {
    !IsExcluded(ctx, e) && !fs.isDir(e) && Init(ctx, e).Some?
  }

  predicate Projects(ctx: Context, fs: Fs, e: Path) {
    !IsExcluded(ctx, e) && (fs.isDir(e) || FileRule(ctx, e).Some?)
  }

  /** The shape as a property of the set of entries: their order plays no part. */
  function Shape(dir: Path, ctx: Context, fs: Fs): Option<FolderShape> {
    match fs.list(dir)
    case None => None
    case Some(entries) =>
      if exists e | e in entries :: DefinesFolder(ctx, fs, e) then Some(HasInit)
      else if exists e | e in entries :: Projects(ctx, fs, e) then Some(Content)
      else Some(Empty)
  }

  method ReadFolderShape(dir: Path, ctx: Context, fs: Fs) returns (r: Option<FolderShape>)
    ensures r == Shape(dir, ctx, fs)
  {
    var listing := fs.list(dir);
    if listing.None? {
      return None;
    }
    var entries, shape := listing.value, Empty;
    for i := 0 to |entries|
      invariant forall k | 0 <= k < i :: !DefinesFolder(ctx, fs, entries[k])
      invariant shape == if exists k | 0 <= k < i :: Projects(ctx, fs, entries[k]) then Content else Empty
    {
      var e := entries[i];
      if !IsExcluded(ctx, e) {
        if fs.isDir(e) {
          shape := Content;
        } else if Init(ctx, e).Some? {
          assert DefinesFolder(ctx, fs, e);
          return Some(HasInit);
        } else if FileRule(ctx, e).Some? {
          shape := Content;
        }
      }
    }
    assert forall e :: e in entries <==> exists k | 0 <= k < |entries| :: entries[k] == e;
    r := Some(shape);
  }

  // ---------------------------------------------------------------------------
  // A whole directory, as a function of its listing
  // ---------------------------------------------------------------------------

  datatype Class = Staging | Excluded | InitFile | File | Folder

  function ClassOf(ctx: Context, fs: Fs, e: Path): Class {
    if IsStaging(e) then Staging
    else if IsExcluded(ctx, e) then Excluded
    else if !fs.isFile(e) then Folder
    else if Init(ctx, e).Some? then InitFile
    else File
  }

  function OfClass(ctx: Context, fs: Fs, c: Class): Path -> bool {
    e => ClassOf(ctx, fs, e) == c
  }

  function FlatNamed(ctx: Context, name: string): Path -> bool {
    e => FlatName(ctx, e).Some? && FlatName(ctx, e).value.1 == name
  }

  function FlatKey(ctx: Context): Path -> Flat {
    e => Flat(if FlatName(ctx, e).Some? then FlatName(ctx, e).value.0 else 0, e)
  }

  predicate FlatLe(a: Flat, b: Flat) {
    a.rule < b.rule || (a.rule == b.rule && PathLe(a.path, b.path))
  }

  predicate CandidateLe(a: InitCandidate, b: InitCandidate) {
    a.rule < b.rule || (a.rule == b.rule && PathLe(a.path, b.path))
  }

  /** The flat files that define instance `name`, the winner first. */
  function FlatsNamed(ctx: Context, files: seq<Path>, name: string): seq<Path> {
    Sort(Filter(files, FlatNamed(ctx, name)), ByKey(FlatKey(ctx), FlatLe))
  }

  function HiddenByFolder(folder: Path): Path -> Shadowed {
    flat => Shadowed(flat, folder, Name(folder), FolderHasInit)
  }

  /** What one folder and its same-named flat files hide of each other. */
  function ShadowsFor(folder: Path, files: seq<Path>, ctx: Context, fs: Fs): Option<seq<Shadowed>> {
    var flats := FlatsNamed(ctx, files, Name(folder));
    if flats == [] then Some([])
    else
      match Shape(folder, ctx, fs)
      case None => None
      case Some(HasInit) => Some(Map(flats, HiddenByFolder(folder)))
      case Some(Empty) => Some([Shadowed(folder, flats[0], Name(folder), EmptyFolder)])
      case Some(Content) => Some([])
  }

  /** Concatenates the parts of all elements; one that fails, fails the whole. */
  function Collect<T>(dirs: seq<Path>, part: Path -> Option<seq<T>>): Option<seq<T>> {
    if dirs == [] then Some([])
    else
      var n := |dirs| - 1;
      match (Collect(dirs[..n], part), part(dirs[n]))
      case (Some(a), Some(b)) => Some(a + b)
      case _ => None
  }

  function ShadowsIn(files: seq<Path>, ctx: Context, fs: Fs): Path -> Option<seq<Shadowed>> {
    folder => ShadowsFor(folder, files, ctx, fs)
  }

  function Shadows(dirs: seq<Path>, files: seq<Path>, ctx: Context, fs: Fs): Option<seq<Shadowed>> {
    Collect(dirs, ShadowsIn(files, ctx, fs))
  }

  function Hidden(shadows: seq<Shadowed>): set<Path> {
    set s | s in shadows :: s.hidden
  }

  function NotHidden(shadows: seq<Shadowed>): Path -> bool {
    e => e !in Hidden(shadows)
  }

  function InitOf(ctx: Context): Path -> InitCandidate {
    e => match Init(ctx, e) case Some(c) => c case None => InitCandidate(e, 0, Project, "")
  }

  function LayoutOf(dir: Path, ctx: Context, fs: Fs): Option<DirLayout> {
    match fs.list(dir)
    case None => None
    case Some(listing) =>
      var entries := Sort(listing, PathLe);
      var files := Filter(entries, OfClass(ctx, fs, File));
      var dirs := Filter(entries, OfClass(ctx, fs, Folder));
      match Shadows(dirs, files, ctx, fs)
      case None => None
      case Some(shadowed) =>
        Some(DirLayout(
               dir,
               Sort(Map(Filter(entries, OfClass(ctx, fs, InitFile)), InitOf(ctx)), CandidateLe),
               Sort(Filter(files + dirs, NotHidden(shadowed)), PathLe),
               shadowed,
               Filter(entries, OfClass(ctx, fs, Staging))))
  }

  // ---------------------------------------------------------------------------
  // A whole directory, as the program reads it
  // ---------------------------------------------------------------------------

  lemma FilterSnoc(s: seq<Path>, i: nat, keep: Path -> bool)
    requires i < |s|
    ensures Filter(s[..i + 1], keep) == Filter(s[..i], keep) + (if keep(s[i]) then [s[i]] else [])
  {
    assert s[..i + 1] == s[..i] + [s[i]];
    FilterAppend(s[..i], [s[i]], keep);
  }

  function FlatsOf(ctx: Context, files: seq<Path>, name: string): seq<Flat> {
    Map(Filter(files, FlatNamed(ctx, name)), FlatKey(ctx))
  }

  function Listed(flats: map<string, seq<Flat>>, name: string): seq<Flat> {
    if name in flats then flats[name] else []
  }

  /** The map under construction holds every pair a folder name can ask for, and nothing else. */
  ghost predicate Gathered(ctx: Context, files: seq<Path>, dirNames: set<string>, flats: map<string, seq<Flat>>) {
    && (forall name | name in flats :: name in dirNames && flats[name] != [])
    && (forall name | name in dirNames :: Listed(flats, name) == FlatsOf(ctx, files, name))
  }

  lemma FlatsSnoc(ctx: Context, files: seq<Path>, i: nat, name: string)
    requires i < |files|
    ensures FlatsOf(ctx, files[..i + 1], name) ==
            FlatsOf(ctx, files[..i], name) + (if FlatNamed(ctx, name)(files[i]) then [FlatKey(ctx)(files[i])] else [])
  {
    FilterSnoc(files, i, FlatNamed(ctx, name));
  }

  /** The name-prefix test skips no file that pairs with a folder. */
  lemma PrefixTestDropsNothing(ctx: Context, file: Path, dirNames: set<string>)
    requires forall d | d in dirNames :: !(d <= Name(file))
    ensures FlatName(ctx, file).Some? ==> FlatName(ctx, file).value.1 !in dirNames
  {
    RuleNamesArePrefixes(ctx, file, 0);
  }

  lemma GatherOne(ctx: Context, files: seq<Path>, i: nat, dirNames: set<string>,
                  flats: map<string, seq<Flat>>, flats': map<string, seq<Flat>>)
    requires i < |files| && Gathered(ctx, files[..i], dirNames, flats)
    requires var flat := FlatName(ctx, files[i]);
             flats' == if flat.Some? && flat.value.1 in dirNames
                       then flats[flat.value.1 := Listed(flats, flat.value.1) + [Flat(flat.value.0, files[i])]]
                       else flats
    ensures Gathered(ctx, files[..i + 1], dirNames, flats')
  {
    forall name | name in dirNames
      ensures Listed(flats', name) == FlatsOf(ctx, files[..i + 1], name)
    {
      FlatsSnoc(ctx, files, i, name);
    }
  }

  /** Groups the flat files by the folder they pair with, resolving rules only behind the prefix test. */
  method GatherFlats(ctx: Context, files: seq<Path>, dirNames: set<string>) returns (flats: map<string, seq<Flat>>)
    ensures Gathered(ctx, files, dirNames, flats)
  {
    flats := map[];
    for i := 0 to |files|
      invariant Gathered(ctx, files[..i], dirNames, flats)
    {
      var file := files[i];
      ghost var before := flats;
      if exists d | d in dirNames :: d <= Name(file) {
        var flat := FlatName(ctx, file);
        if flat.Some? && flat.value.1 in dirNames {
          var (rule, instance) := flat.value;
          flats := flats[instance := Listed(flats, instance) + [Flat(rule, file)]];
        }
      } else {
        PrefixTestDropsNothing(ctx, file, dirNames);
      }
      GatherOne(ctx, files, i, dirNames, before, flats);
    }
    assert files[..|files|] == files;
  }

  lemma {:induction false} CollectNothing<T>(dirs: seq<Path>, part: Path -> Option<seq<T>>)
    requires forall d | d in dirs :: part(d) == Some([])
    ensures Collect(dirs, part) == Some([])
  {
    if dirs != [] {
      CollectNothing(dirs[..|dirs| - 1], part);
      var none: seq<T> := [];
      assert none + none == [];
    }
  }

  lemma {:induction false} CollectFails<T>(dirs: seq<Path>, part: Path -> Option<seq<T>>, i: nat)
    requires i < |dirs| && part(dirs[i]).None?
    ensures Collect(dirs, part).None?
  {
    if i < |dirs| - 1 { CollectFails(dirs[..|dirs| - 1], part, i); }
  }

  lemma CollectSnoc<T>(dirs: seq<Path>, part: Path -> Option<seq<T>>, i: nat)
    requires i < |dirs|
    ensures Collect(dirs[..i + 1], part) ==
            match (Collect(dirs[..i], part), part(dirs[i]))
            case (Some(a), Some(b)) => Some(a + b)
            case _ => None
  {
    assert dirs[..i + 1][..i] == dirs[..i];
  }

  lemma {:induction false} CollectMembers<T>(dirs: seq<Path>, part: Path -> Option<seq<T>>, x: T)
    requires Collect(dirs, part).Some?
    ensures forall d | d in dirs :: part(d).Some?
    ensures x in Collect(dirs, part).value <==> exists d | d in dirs :: part(d).Some? && x in part(d).value
  {
    if dirs != [] {
      var n := |dirs| - 1;
      CollectMembers(dirs[..n], part, x);
      assert forall d :: d in dirs <==> d in dirs[..n] || d == dirs[n];
    }
  }

  lemma NoFilesNoShadows(dirs: seq<Path>, ctx: Context, fs: Fs)
    ensures Shadows(dirs, [], ctx, fs) == Some([])
  {
    forall d | d in dirs
      ensures ShadowsIn([], ctx, fs)(d) == Some([])
    {
      assert FlatsNamed(ctx, [], Name(d)) == [];
    }
    CollectNothing(dirs, ShadowsIn([], ctx, fs));
  }

  /** The shadows of one folder, from the flats gathered for its name. */
  method PairFolder(folder: Path, pairs: seq<Flat>, ghost files: seq<Path>, ctx: Context, fs: Fs)
    returns (r: Option<seq<Shadowed>>)
    requires pairs != [] && pairs == FlatsOf(ctx, files, Name(folder))
    ensures r == ShadowsFor(folder, files, ctx, fs)
  {
    var sorted := Sort(pairs, FlatLe);
    ghost var flats := FlatsNamed(ctx, files, Name(folder));
    SortMap(Filter(files, FlatNamed(ctx, Name(folder))), FlatKey(ctx), FlatLe);
    assert sorted == Map(flats, FlatKey(ctx));
    assert flats != [];
    var shape := ReadFolderShape(folder, ctx, fs);
    match shape {
      case None => r := None;
      case Some(HasInit) =>
        var shadowed := HideFlats(sorted, folder, flats, ctx);
        r := Some(shadowed);
      case Some(Empty) =>
        r := Some([Shadowed(folder, sorted[0].path, Name(folder), EmptyFolder)]);
      case Some(Content) =>
        r := Some([]);
    }
  }

  method HideFlats(sorted: seq<Flat>, folder: Path, ghost flats: seq<Path>, ghost ctx: Context)
    returns (shadowed: seq<Shadowed>)
    requires sorted == Map(flats, FlatKey(ctx))
    ensures shadowed == Map(flats, HiddenByFolder(folder))
  {
    shadowed := [];
    for i := 0 to |sorted|
      invariant shadowed == Map(flats[..i], HiddenByFolder(folder))
    {
      shadowed := shadowed + [Shadowed(sorted[i].path, folder, Name(folder), FolderHasInit)];
    }
    assert flats[..|sorted|] == flats;
  }

  lemma NoFlatsNoShadows(folder: Path, files: seq<Path>, ctx: Context, fs: Fs)
    requires FlatsOf(ctx, files, Name(folder)) == []
    ensures ShadowsFor(folder, files, ctx, fs) == Some([])
  {
    hide Shape;
    assert |FlatsOf(ctx, files, Name(folder))| == 0;
    assert Filter(files, FlatNamed(ctx, Name(folder))) == [];
  }

  method PairAll(dirs: seq<Path>, files: seq<Path>, ctx: Context, fs: Fs)
    returns (r: Option<seq<Shadowed>>, hidden: set<Path>)
    ensures r == Shadows(dirs, files, ctx, fs)
    ensures r.Some? ==> hidden == Hidden(r.value)
  {
    var dirNames := set d | d in dirs :: Name(d);
    var flats := GatherFlats(ctx, files, dirNames);
    hide Filter, Shape, ShadowsFor;
    var shadowed := [];
    hidden := {};
    for i := 0 to |dirs|
      invariant Shadows(dirs[..i], files, ctx, fs) == Some(shadowed)
      invariant hidden == Hidden(shadowed)
    {
      var folder := dirs[i];
      var more := Some([]);
      if Name(folder) in flats {
        more := PairFolder(folder, flats[Name(folder)], files, ctx, fs);
      } else {
        assert Name(folder) in dirNames;
        NoFlatsNoShadows(folder, files, ctx, fs);
      }
      if more.None? {
        CollectFails(dirs, ShadowsIn(files, ctx, fs), i);
        return None, {};
      }
      CollectSnoc(dirs, ShadowsIn(files, ctx, fs), i);
      hidden := hidden + set s | s in more.value :: s.hidden;
      shadowed := shadowed + more.value;
    }
    assert dirs[..|dirs|] == dirs;
    r := Some(shadowed);
  }

  /** Computes `LayoutOf` by sorting, one pass over the entries, and pairing. */
  method ReadLayout(dir: Path, ctx: Context, fs: Fs) returns (r: Option<DirLayout>)
    ensures r == LayoutOf(dir, ctx, fs)
  {
    var listing := fs.list(dir);
    if listing.None? {
      return None;
    }
    var entries := Sort(listing.value, PathLe);
    var staging, inits, files, dirs := SplitEntries(entries, ctx, fs);
    inits := Sort(inits, CandidateLe);
    var shadowed, hidden := [], {};
    if dirs != [] && files != [] {
      var pairs;
      pairs, hidden := PairAll(dirs, files, ctx, fs);
      if pairs.None? {
        return None;
      }
      shadowed := pairs.value;
    } else {
      if dirs != [] { NoFilesNoShadows(dirs, ctx, fs); }
    }
    assert Shadows(dirs, files, ctx, fs) == Some(shadowed) && hidden == Hidden(shadowed);
    var children := Visible(files + dirs, hidden, shadowed);
    r := Some(DirLayout(dir, inits, Sort(children, PathLe), shadowed, staging));
  }

  method Visible(entries: seq<Path>, hidden: set<Path>, ghost shadowed: seq<Shadowed>) returns (visible: seq<Path>)
    requires hidden == Hidden(shadowed)
    ensures visible == Filter(entries, NotHidden(shadowed))
  {
    visible := [];
    for i := 0 to |entries|
      invariant visible == Filter(entries[..i], NotHidden(shadowed))
    {
      FilterSnoc(entries, i, NotHidden(shadowed));
      if entries[i] !in hidden {
        visible := visible + [entries[i]];
      }
    }
    assert entries[..|entries|] == entries;
  }

  lemma ClassSnoc(entries: seq<Path>, i: nat, ctx: Context, fs: Fs, c: Class)
    requires i < |entries|
    ensures Filter(entries[..i + 1], OfClass(ctx, fs, c)) ==
            Filter(entries[..i], OfClass(ctx, fs, c)) + (if ClassOf(ctx, fs, entries[i]) == c then [entries[i]] else [])
  {
    FilterSnoc(entries, i, OfClass(ctx, fs, c));
  }

  lemma NothingFiltered(ctx: Context, fs: Fs, entries: seq<Path>)
    ensures forall c :: Filter(entries[..0], OfClass(ctx, fs, c)) == []
  {
  }

  lemma MapSnoc<T, U>(s: seq<T>, x: T, f: T -> U)
    ensures Map(s + [x], f) == Map(s, f) + [f(x)]
  {
  }

  method SplitEntries(entries: seq<Path>, ctx: Context, fs: Fs)
    returns (staging: seq<Path>, inits: seq<InitCandidate>, files: seq<Path>, dirs: seq<Path>)
    ensures staging == Filter(entries, OfClass(ctx, fs, Staging))
    ensures inits == Map(Filter(entries, OfClass(ctx, fs, InitFile)), InitOf(ctx))
    ensures files == Filter(entries, OfClass(ctx, fs, File))
    ensures dirs == Filter(entries, OfClass(ctx, fs, Folder))
  {
    hide Filter, Init, IsStaging, IsExcluded;
    staging, inits, files, dirs := [], [], [], [];
    NothingFiltered(ctx, fs, entries);
    ghost var initPaths := [];
    for i := 0 to |entries|
      invariant staging == Filter(entries[..i], OfClass(ctx, fs, Staging))
      invariant initPaths == Filter(entries[..i], OfClass(ctx, fs, InitFile)) && inits == Map(initPaths, InitOf(ctx))
      invariant files == Filter(entries[..i], OfClass(ctx, fs, File))
      invariant dirs == Filter(entries[..i], OfClass(ctx, fs, Folder))
    {
      var e := entries[i];
      ClassSnoc(entries, i, ctx, fs, Staging);
      ClassSnoc(entries, i, ctx, fs, InitFile);
      ClassSnoc(entries, i, ctx, fs, File);
      ClassSnoc(entries, i, ctx, fs, Folder);
      if IsStaging(e) {
        staging := staging + [e];
      } else if !IsExcluded(ctx, e) {
        if fs.isFile(e) {
          var candidate := Init(ctx, e);
          if candidate.Some? {
            MapSnoc(initPaths, e, InitOf(ctx));
            inits, initPaths := inits + [candidate.value], initPaths + [e];
          } else {
            files := files + [e];
          }
        } else {
          dirs := dirs + [e];
        }
      }
    }
    assert entries[..|entries|] == entries;
  }

  // ---------------------------------------------------------------------------
  // One path on its own
  // ---------------------------------------------------------------------------

  /** Appending one name to a path: an empty or `.` name stays in the directory. */
  function Join(dir: Path, name: string): Path {
    if name == "" || name == "." then dir else dir + [name]
  }

  /** Who takes the place of `path`: nobody, a folder, or a flat file; `None` outside where a listing fails. */
  function FormOf(path: Path, ctx: Context, fs: Fs): Option<Option<Path>> {
    if path == [] then Some(None)
    else if fs.isDir(path) then FolderForm(path, ctx, fs)
    else if Init(ctx, path).Some? then Some(None)
    else
      match FlatName(ctx, path)
      case None => Some(None)
      case Some((_, name)) => FlatForm(Join(Parent(path), name), ctx, fs)
  }

  function FolderForm(path: Path, ctx: Context, fs: Fs): Option<Option<Path>> {
    match Shape(path, ctx, fs)
    case None => None
    case Some(Empty) =>
      (match fs.list(Parent(path))
       case None => None
       case Some(siblings) =>
         var flats := FlatsNamed(ctx, Filter(siblings, OfClass(ctx, fs, File)), Name(path));
         Some(if flats == [] then None else Some(flats[0])))
    case _ => Some(None)
  }

  function FlatForm(folder: Path, ctx: Context, fs: Fs): Option<Option<Path>> {
    if !fs.isDir(folder) || IsExcluded(ctx, folder) then Some(None)
    else
      match Shape(folder, ctx, fs)
      case None => None
      case Some(HasInit) => Some(Some(folder))
      case _ => Some(None)
  }

  /** Computes `FormOf` from the parent's listing, or from the one folder that could win. */
  method ShadowingForm(path: Path, ctx: Context, fs: Fs) returns (r: Option<Option<Path>>)
    ensures r == FormOf(path, ctx, fs)
  {
    if path == [] {
      return Some(None);
    }
    if fs.isDir(path) {
      var shape := ReadFolderShape(path, ctx, fs);
      if shape.None? {
        return None;
      }
      if shape.value != Empty {
        return Some(None);
      }
      var siblings := fs.list(Parent(path));
      if siblings.None? {
        return None;
      }
      var flats := SiblingFlats(siblings.value, Name(path), ctx, fs);
      ghost var files := Filter(siblings.value, OfClass(ctx, fs, File));
      SortMap(Filter(files, FlatNamed(ctx, Name(path))), FlatKey(ctx), FlatLe);
      var sorted := Sort(flats, FlatLe);
      assert sorted == Map(FlatsNamed(ctx, files, Name(path)), FlatKey(ctx));
      return Some(if sorted == [] then None else Some(sorted[0].path));
    }
    if Init(ctx, path).Some? {
      return Some(None);
    }
    var flat := FlatName(ctx, path);
    if flat.None? {
      return Some(None);
    }
    var folder := Join(Parent(path), flat.value.1);
    if fs.isDir(folder) && !IsExcluded(ctx, folder) {
      var shape := ReadFolderShape(folder, ctx, fs);
      match shape {
        case None => return None;
        case Some(HasInit) => return Some(Some(folder));
        case _ => return Some(None);
      }
    }
    r := Some(None);
  }

  method SiblingFlats(siblings: seq<Path>, name: string, ctx: Context, fs: Fs) returns (flats: seq<Flat>)
    ensures flats == FlatsOf(ctx, Filter(siblings, OfClass(ctx, fs, File)), name)
  {
    flats := [];
    for i := 0 to |siblings|
      invariant flats == FlatsOf(ctx, Filter(siblings[..i], OfClass(ctx, fs, File)), name)
    {
      var e := siblings[i];
      SiblingSnoc(siblings, i, name, ctx, fs);
      if fs.isFile(e) && !IsExcluded(ctx, e) && Init(ctx, e).None? {
        var flat := FlatName(ctx, e);
        if flat.Some? && flat.value.1 == name {
          flats := flats + [Flat(flat.value.0, e)];
        }
      }
    }
    assert siblings[..|siblings|] == siblings;
  }

  lemma SiblingSnoc(siblings: seq<Path>, i: nat, name: string, ctx: Context, fs: Fs)
    requires i < |siblings|
    ensures FlatsOf(ctx, Filter(siblings[..i + 1], OfClass(ctx, fs, File)), name) ==
            FlatsOf(ctx, Filter(siblings[..i], OfClass(ctx, fs, File)), name)
            + (if ClassOf(ctx, fs, siblings[i]) == File && FlatNamed(ctx, name)(siblings[i])
               then [FlatKey(ctx)(siblings[i])] else [])
  {
    ClassSnoc(siblings, i, ctx, fs, File);
    if ClassOf(ctx, fs, siblings[i]) == File {
      FlatsAppend(ctx, Filter(siblings[..i], OfClass(ctx, fs, File)), siblings[i], name);
    } else {
      assert Filter(siblings[..i + 1], OfClass(ctx, fs, File)) == Filter(siblings[..i], OfClass(ctx, fs, File));
    }
  }

  lemma FlatsAppend(ctx: Context, files: seq<Path>, e: Path, name: string)
    ensures FlatsOf(ctx, files + [e], name) ==
            FlatsOf(ctx, files, name) + (if FlatNamed(ctx, name)(e) then [FlatKey(ctx)(e)] else [])
  {
    assert (files + [e])[..|files|] == files && (files + [e])[..|files| + 1] == files + [e];
    FlatsSnoc(ctx, files + [e], |files|, name);
  }

  // ---------------------------------------------------------------------------
  // Both agree
  // ---------------------------------------------------------------------------

  predicate Ordinary(name: string) {
    name != "" && name != "." && name != ".."
  }

  /** A listing names exactly the children of its directory; what lists is a directory; nothing is both kinds. */
  ghost predicate Coherent(fs: Fs, dir: Path) {
    && fs.list(dir).Some?
    && (forall e | e in fs.list(dir).value :: e != [] && Parent(e) == dir && Ordinary(e[|e| - 1]))
    && (forall name | Ordinary(name) && fs.isDir(dir + [name]) :: dir + [name] in fs.list(dir).value)
    && (forall p | fs.list(p).Some? :: fs.isDir(p))
    && (forall p :: !(fs.isDir(p) && fs.isFile(p)))
  }

  lemma ChildIsJoined(fs: Fs, dir: Path, e: Path)
    requires Coherent(fs, dir) && e in fs.list(dir).value
    ensures e == dir + [Name(e)] && Ordinary(Name(e))
  {
    assert e == e[..|e| - 1] + [e[|e| - 1]];
  }

  lemma FlatOrderIs(ctx: Context, a: Path, b: Path)
    ensures ByKey(FlatKey(ctx), FlatLe)(a, b) <==>
            var x, y := FlatKey(ctx)(a).rule, FlatKey(ctx)(b).rule;
            x < y || (x == y && PathLe(a, b))
  {
    assert ByKey(FlatKey(ctx), FlatLe)(a, b) == FlatLe(FlatKey(ctx)(a), FlatKey(ctx)(b));
  }

  lemma FlatOrder(ctx: Context)
    ensures TotalOrder(ByKey(FlatKey(ctx), FlatLe))
    ensures forall s: seq<Path> :: NoTies(s, ByKey(FlatKey(ctx), FlatLe))
  {
    var le := ByKey(FlatKey(ctx), FlatLe);
    forall a, b
      ensures le(a, b) || le(b, a)
      ensures le(a, b) && le(b, a) ==> a == b
    {
      FlatOrderIs(ctx, a, b);
      FlatOrderIs(ctx, b, a);
      PathLeTotal(a, b);
    }
    forall a, b, c | le(a, b) && le(b, c)
      ensures le(a, c)
    {
      FlatOrderIs(ctx, a, b);
      FlatOrderIs(ctx, b, c);
      FlatOrderIs(ctx, a, c);
      if PathLe(a, b) && PathLe(b, c) { PathLeTransitive(a, b, c); }
    }
  }

  lemma FlatsNamedMembers(ctx: Context, files: seq<Path>, name: string)
    ensures forall f :: f in FlatsNamed(ctx, files, name) <==> f in files && FlatNamed(ctx, name)(f)
  {
    FlatOrder(ctx);
    SortMembers(Filter(files, FlatNamed(ctx, name)), ByKey(FlatKey(ctx), FlatLe));
  }

  ghost predicate Contributes(d: Path, files: seq<Path>, ctx: Context, fs: Fs, s: Shadowed) {
    ShadowsFor(d, files, ctx, fs).Some? && s in ShadowsFor(d, files, ctx, fs).value
  }

  lemma ShadowsMembers(dirs: seq<Path>, files: seq<Path>, ctx: Context, fs: Fs, s: Shadowed)
    requires Shadows(dirs, files, ctx, fs).Some?
    ensures forall d | d in dirs :: ShadowsFor(d, files, ctx, fs).Some?
    ensures s in Shadows(dirs, files, ctx, fs).value <==> exists d | d in dirs :: Contributes(d, files, ctx, fs, s)
  {
    var part := ShadowsIn(files, ctx, fs);
    CollectMembers(dirs, part, s);
    assert forall d :: part(d) == ShadowsFor(d, files, ctx, fs);
  }

  /** What one folder contributes, read off its shape. */
  lemma ShadowsForMembers(d: Path, files: seq<Path>, ctx: Context, fs: Fs, s: Shadowed)
    requires ShadowsFor(d, files, ctx, fs).Some?
    ensures s in ShadowsFor(d, files, ctx, fs).value <==>
            var flats := FlatsNamed(ctx, files, Name(d));
            || (&& s.hidden in files && FlatNamed(ctx, Name(d))(s.hidden)
                && Shape(d, ctx, fs) == Some(HasInit) && s == HiddenByFolder(d)(s.hidden))
            || (&& flats != [] && Shape(d, ctx, fs) == Some(Empty)
                && s == Shadowed(d, flats[0], Name(d), EmptyFolder))
  {
    FlatsNamedMembers(ctx, files, Name(d));
    var flats := FlatsNamed(ctx, files, Name(d));
    if flats != [] && Shape(d, ctx, fs) == Some(HasInit) {
      var hidden := Map(flats, HiddenByFolder(d));
      if s.hidden in flats && s == HiddenByFolder(d)(s.hidden) {
        var i :| 0 <= i < |flats| && flats[i] == s.hidden;
        assert hidden[i] == s;
      }
    }
  }

  ghost predicate RecordsHidden(layout: DirLayout, e: Path, w: Path) {
    exists s | s in layout.shadowed :: s.hidden == e && s.winner == w
  }

  lemma EntriesOfClass(listing: seq<Path>, ctx: Context, fs: Fs, c: Class)
    ensures forall e :: e in Filter(Sort(listing, PathLe), OfClass(ctx, fs, c)) <==>
                        e in listing && ClassOf(ctx, fs, e) == c
  {
    PathLeIsTotalOrder();
    SortMembers(listing, PathLe);
  }

  /** What hides a file is exactly a listed folder of its name whose shape is `HasInit`. */
  lemma HiddenFile(dir: Path, ctx: Context, fs: Fs, e: Path, layout: DirLayout, w: Path)
    requires LayoutOf(dir, ctx, fs) == Some(layout)
    requires e in fs.list(dir).value && ClassOf(ctx, fs, e) != Folder
    ensures RecordsHidden(layout, e, w) <==>
            && ClassOf(ctx, fs, e) == File && FlatNamed(ctx, Name(w))(e)
            && w in fs.list(dir).value && ClassOf(ctx, fs, w) == Folder && Shape(w, ctx, fs) == Some(HasInit)
  {
    var listing := fs.list(dir).value;
    var files := Filter(Sort(listing, PathLe), OfClass(ctx, fs, File));
    var dirs := Filter(Sort(listing, PathLe), OfClass(ctx, fs, Folder));
    EntriesOfClass(listing, ctx, fs, File);
    EntriesOfClass(listing, ctx, fs, Folder);
    if s :| s in layout.shadowed && s.hidden == e && s.winner == w {
      ShadowsMembers(dirs, files, ctx, fs, s);
      var d :| d in dirs && Contributes(d, files, ctx, fs, s);
      ShadowsForMembers(d, files, ctx, fs, s);
    }
    if && ClassOf(ctx, fs, e) == File && FlatNamed(ctx, Name(w))(e)
       && w in listing && ClassOf(ctx, fs, w) == Folder && Shape(w, ctx, fs) == Some(HasInit) {
      var s := HiddenByFolder(w)(e);
      ShadowsMembers(dirs, files, ctx, fs, s);
      ShadowsForMembers(w, files, ctx, fs, s);
      assert Contributes(w, files, ctx, fs, s);
      assert s in layout.shadowed && s.hidden == e && s.winner == w;
    }
  }

  lemma HiddenFolderHasReason(dirs: seq<Path>, files: seq<Path>, ctx: Context, fs: Fs, shadows: seq<Shadowed>,
                              e: Path, s: Shadowed)
    requires Shadows(dirs, files, ctx, fs) == Some(shadows) && s in shadows && s.hidden == e && e !in files
    ensures e in dirs && FlatsNamed(ctx, files, Name(e)) != [] && FlatsNamed(ctx, files, Name(e))[0] == s.winner
    ensures Shape(e, ctx, fs) == Some(Empty)
  {
    ShadowsMembers(dirs, files, ctx, fs, s);
    var d :| d in dirs && Contributes(d, files, ctx, fs, s);
    ShadowsForMembers(d, files, ctx, fs, s);
  }

  lemma EmptyFolderIsHidden(dirs: seq<Path>, files: seq<Path>, ctx: Context, fs: Fs, shadows: seq<Shadowed>,
                            e: Path, w: Path)
    requires Shadows(dirs, files, ctx, fs) == Some(shadows) && e in dirs
    requires FlatsNamed(ctx, files, Name(e)) != [] && FlatsNamed(ctx, files, Name(e))[0] == w
    requires Shape(e, ctx, fs) == Some(Empty)
    ensures Shadowed(e, w, Name(e), EmptyFolder) in shadows
  {
    var s := Shadowed(e, w, Name(e), EmptyFolder);
    ShadowsMembers(dirs, files, ctx, fs, s);
    ShadowsForMembers(e, files, ctx, fs, s);
    assert Contributes(e, files, ctx, fs, s);
  }

  /** A folder is recorded as hidden exactly when it is empty, by the first flat file of its name. */
  lemma HiddenFolder(dir: Path, ctx: Context, fs: Fs, e: Path, layout: DirLayout, w: Path)
    requires LayoutOf(dir, ctx, fs) == Some(layout)
    requires e in fs.list(dir).value && ClassOf(ctx, fs, e) == Folder
    ensures RecordsHidden(layout, e, w) <==>
            var flats := FlatsNamed(ctx, Filter(Sort(fs.list(dir).value, PathLe), OfClass(ctx, fs, File)), Name(e));
            flats != [] && flats[0] == w && Shape(e, ctx, fs) == Some(Empty)
  {
    hide Shape, FlatsNamed, Shadows, Sort, Filter;
    var listing := fs.list(dir).value;
    var files := Filter(Sort(listing, PathLe), OfClass(ctx, fs, File));
    var dirs := Filter(Sort(listing, PathLe), OfClass(ctx, fs, Folder));
    EntriesOfClass(listing, ctx, fs, File);
    EntriesOfClass(listing, ctx, fs, Folder);
    if s :| s in layout.shadowed && s.hidden == e && s.winner == w {
      HiddenFolderHasReason(dirs, files, ctx, fs, layout.shadowed, e, s);
    }
    var flats := FlatsNamed(ctx, files, Name(e));
    if flats != [] && flats[0] == w && Shape(e, ctx, fs) == Some(Empty) {
      EmptyFolderIsHidden(dirs, files, ctx, fs, layout.shadowed, e, w);
      var s := Shadowed(e, w, Name(e), EmptyFolder);
      assert s in layout.shadowed && s.hidden == e && s.winner == w;
    }
  }

  lemma FlatsIgnoreOrder(ctx: Context, fs: Fs, listing: seq<Path>, name: string)
    ensures FlatsNamed(ctx, Filter(Sort(listing, PathLe), OfClass(ctx, fs, File)), name) ==
            FlatsNamed(ctx, Filter(listing, OfClass(ctx, fs, File)), name)
  {
    var sorted := Sort(listing, PathLe);
    PathLeIsTotalOrder();
    SortSorts(listing, PathLe);
    FilterIgnoresOrder(sorted, listing, OfClass(ctx, fs, File));
    var a, b := Filter(sorted, OfClass(ctx, fs, File)), Filter(listing, OfClass(ctx, fs, File));
    FilterIgnoresOrder(a, b, FlatNamed(ctx, name));
    FlatOrder(ctx);
    SortIgnoresOrder(Filter(a, FlatNamed(ctx, name)), Filter(b, FlatNamed(ctx, name)), ByKey(FlatKey(ctx), FlatLe));
  }

  /**
   The single-path answer and the whole-directory answer are the same: for an entry that is listed, not
   excluded and of one kind, `ShadowingForm` names `w` exactly when the layout of the parent records the entry
   as hidden by `w`.
   */
  lemma FormsAgree(dir: Path, ctx: Context, fs: Fs, e: Path, layout: DirLayout, form: Option<Path>, w: Path)
    requires Coherent(fs, dir) && e in fs.list(dir).value && !IsExcluded(ctx, e) && (fs.isFile(e) || fs.isDir(e))
    requires LayoutOf(dir, ctx, fs) == Some(layout) && FormOf(e, ctx, fs) == Some(form)
    requires fs.isFile(e) && FlatName(ctx, e).Some? ==> Ordinary(FlatName(ctx, e).value.1)
    ensures form == Some(w) <==> RecordsHidden(layout, e, w)
  {
    if fs.isDir(e) {
      FolderFormsAgree(dir, ctx, fs, e, layout, form, w);
    } else {
      FlatFormsAgree(dir, ctx, fs, e, layout, form, w);
    }
  }

  lemma FolderFormsAgree(dir: Path, ctx: Context, fs: Fs, e: Path, layout: DirLayout, form: Option<Path>, w: Path)
    requires e != [] && Parent(e) == dir && fs.list(dir).Some? && e in fs.list(dir).value
    requires !IsExcluded(ctx, e) && fs.isDir(e) && !fs.isFile(e)
    requires LayoutOf(dir, ctx, fs) == Some(layout) && FormOf(e, ctx, fs) == Some(form)
    ensures form == Some(w) <==> RecordsHidden(layout, e, w)
  {
    HiddenFolder(dir, ctx, fs, e, layout, w);
    FlatsIgnoreOrder(ctx, fs, fs.list(dir).value, Name(e));
  }

  lemma FlatFormsAgree(dir: Path, ctx: Context, fs: Fs, e: Path, layout: DirLayout, form: Option<Path>, w: Path)
    requires Coherent(fs, dir) && e in fs.list(dir).value && !IsExcluded(ctx, e) && fs.isFile(e)
    requires LayoutOf(dir, ctx, fs) == Some(layout) && FormOf(e, ctx, fs) == Some(form)
    requires FlatName(ctx, e).Some? ==> Ordinary(FlatName(ctx, e).value.1)
    ensures form == Some(w) <==> RecordsHidden(layout, e, w)
  {
    HiddenFile(dir, ctx, fs, e, layout, w);
    assert e != [] && Parent(e) == dir;
    FlatFormIs(dir, ctx, fs, e, form, w);
    if Init(ctx, e).None? && FlatName(ctx, e).Some? && Shape(w, ctx, fs) == Some(HasInit) {
      SameFolder(dir, ctx, fs, FlatName(ctx, e).value.1, w);
    }
  }

  lemma FlatFormIs(dir: Path, ctx: Context, fs: Fs, e: Path, form: Option<Path>, w: Path)
    requires e != [] && Parent(e) == dir && !fs.isDir(e) && FormOf(e, ctx, fs) == Some(form)
    ensures form == Some(w) <==>
            && Init(ctx, e).None? && FlatName(ctx, e).Some?
            && w == Join(dir, FlatName(ctx, e).value.1)
            && fs.isDir(w) && !IsExcluded(ctx, w) && Shape(w, ctx, fs) == Some(HasInit)
  {
  }

  /** The folder entry named `name` and the directory at the joined path are the same thing. */
  lemma SameFolder(dir: Path, ctx: Context, fs: Fs, name: string, w: Path)
    requires Coherent(fs, dir) && Ordinary(name) && Shape(w, ctx, fs) == Some(HasInit)
    ensures w in fs.list(dir).value && Name(w) == name && ClassOf(ctx, fs, w) == Folder <==>
            w == dir + [name] && fs.isDir(w) && !IsExcluded(ctx, w)
  {
    if w in fs.list(dir).value { ChildIsJoined(fs, dir, w); }
  }

  /**
   A flat file whose instance name is not an ordinary path component (a file named exactly like a rule's
   suffix, say) is never hidden by the layout of its directory; the single-path answer differs exactly when
   the joined path happens to list, and to have the shape `HasInit`.
   */
  lemma OddNamesAgreeIff(dir: Path, ctx: Context, fs: Fs, e: Path, layout: DirLayout, form: Option<Path>)
    requires Coherent(fs, dir) && e in fs.list(dir).value && !IsExcluded(ctx, e) && fs.isFile(e)
    requires LayoutOf(dir, ctx, fs) == Some(layout) && FormOf(e, ctx, fs) == Some(form)
    requires Init(ctx, e).None? && FlatName(ctx, e).Some? && !Ordinary(FlatName(ctx, e).value.1)
    ensures forall w :: !RecordsHidden(layout, e, w)
    ensures var folder := Join(dir, FlatName(ctx, e).value.1);
            form.Some? <==> fs.isDir(folder) && !IsExcluded(ctx, folder) && Shape(folder, ctx, fs) == Some(HasInit)
  {
    forall w
      ensures !RecordsHidden(layout, e, w)
    {
      if w in fs.list(dir).value { ChildIsJoined(fs, dir, w); }
      OddNamesAreNotHidden(dir, ctx, fs, e, layout, w);
    }
    var folder := Join(dir, FlatName(ctx, e).value.1);
    assert e != [] && Parent(e) == dir;
    FlatFormIs(dir, ctx, fs, e, form, folder);
    if form.Some? { FlatFormIs(dir, ctx, fs, e, form, form.value); }
  }

  lemma OddNamesAreNotHidden(dir: Path, ctx: Context, fs: Fs, e: Path, layout: DirLayout, w: Path)
    requires LayoutOf(dir, ctx, fs) == Some(layout) && e in fs.list(dir).value && fs.isFile(e)
    requires FlatName(ctx, e).Some? && !Ordinary(FlatName(ctx, e).value.1)
    requires w in fs.list(dir).value ==> Ordinary(Name(w))
    ensures !RecordsHidden(layout, e, w)
  {
    HiddenFile(dir, ctx, fs, e, layout, w);
  }

  // ---------------------------------------------------------------------------
  // Partition and determinism
  // ---------------------------------------------------------------------------

  /** Where a listed entry ends up. */
  datatype Place = InStaging | Dropped | AnInit | AChild | Shadow

  function PlaceOf(ctx: Context, fs: Fs, layout: DirLayout, e: Path): Place {
    match ClassOf(ctx, fs, e)
    case Staging => InStaging
    case Excluded => Dropped
    case InitFile => AnInit
    case _ => if e in Hidden(layout.shadowed) then Shadow else AChild
  }

  function Paths(inits: seq<InitCandidate>): seq<Path> {
    Map(inits, (c: InitCandidate) => c.path)
  }

  lemma {:induction false} InitPaths(ctx: Context, paths: seq<Path>)
    ensures Paths(Map(paths, InitOf(ctx))) == paths
  {
    forall i | 0 <= i < |paths|
      ensures InitOf(ctx)(paths[i]).path == paths[i]
    {
      InitKeepsPath(ctx, paths[i], 0);
    }
  }

  lemma {:induction false} InitKeepsPath(ctx: Context, path: Path, i: nat)
    ensures InitFrom(ctx, path, i).Some? ==> InitFrom(ctx, path, i).value.path == path
    decreases |ctx.rules| - i
  {
    if i < |ctx.rules| { InitKeepsPath(ctx, path, i + 1); }
  }

  lemma CandidateOrder()
    ensures TotalOrder(CandidateLe)
  {
    forall a, b
      ensures CandidateLe(a, b) || CandidateLe(b, a)
    {
      PathLeTotal(a.path, b.path);
    }
    forall a, b, c | CandidateLe(a, b) && CandidateLe(b, c)
      ensures CandidateLe(a, c)
    {
      if PathLe(a.path, b.path) && PathLe(b.path, c.path) { PathLeTransitive(a.path, b.path, c.path); }
    }
  }

  /** How often a path occurs in a list. */
  function Count(s: seq<Path>, e: Path): nat {
    multiset(s)[e]
  }

  lemma InitCounts(ctx: Context, paths: seq<Path>, e: Path)
    ensures Count(Paths(Sort(Map(paths, InitOf(ctx)), CandidateLe)), e) == Count(paths, e)
  {
    CandidateOrder();
    SortMap(paths, InitOf(ctx), CandidateLe);
    var order := ByKey(InitOf(ctx), CandidateLe);
    InitPaths(ctx, Sort(paths, order));
    assert TotalOrder(order) by { KeyedOrder(InitOf(ctx), CandidateLe); }
    SortSorts(paths, order);
  }

  lemma KeyedOrder<T(!new), U(!new)>(f: T -> U, le: (U, U) -> bool)
    requires TotalOrder(le)
    ensures TotalOrder(ByKey(f, le))
  {
    var order := ByKey(f, le);
    assert forall a, b :: order(a, b) == le(f(a), f(b));
  }

  /**
   Nothing is lost and nothing is doubled: every listed entry lands in exactly one of staging, the dropped entries,
   the inits, the children and the shadows; in staging, inits and children as often as it is listed.
   */
  lemma EntriesArePartitioned(dir: Path, ctx: Context, fs: Fs, layout: DirLayout, e: Path)
    requires LayoutOf(dir, ctx, fs) == Some(layout)
    ensures var n := Count(fs.list(dir).value, e);
            var place := PlaceOf(ctx, fs, layout, e);
            && Count(layout.staging, e) == (if place == InStaging then n else 0)
            && Count(Paths(layout.inits), e) == (if place == AnInit then n else 0)
            && Count(layout.children, e) == (if place == AChild then n else 0)
            && (n > 0 ==> (place == Shadow <==> exists w :: RecordsHidden(layout, e, w)))
  {
    hide Sort, Filter, Shadows, Shape, Init;
    var listing := fs.list(dir).value;
    var entries := Sort(listing, PathLe);
    PathLeIsTotalOrder();
    SortSorts(listing, PathLe);
    FilterCounts(entries, OfClass(ctx, fs, Staging), e);
    InitCounts(ctx, Filter(entries, OfClass(ctx, fs, InitFile)), e);
    FilterCounts(entries, OfClass(ctx, fs, InitFile), e);
    ChildrenCount(entries, ctx, fs, layout.shadowed, e);
    HiddenIsRecorded(layout, e);
    if e in listing { ShadowsAreFilesOrFolders(dir, ctx, fs, layout, e); }
  }

  /** No element is listed twice. */
  ghost predicate Once(s: seq<Path>) {
    forall e :: Count(s, e) <= 1
  }

  function HiddenPath(s: Shadowed): Path {
    s.hidden
  }

  /** What is hidden, record by record. */
  function HiddenPaths(shadows: seq<Shadowed>): seq<Path> {
    Map(shadows, HiddenPath)
  }

  lemma HiddenPathsAppend(a: seq<Shadowed>, b: seq<Shadowed>, e: Path)
    ensures Count(HiddenPaths(a + b), e) == Count(HiddenPaths(a), e) + Count(HiddenPaths(b), e)
  {
    assert HiddenPaths(a + b) == HiddenPaths(a) + HiddenPaths(b);
  }

  lemma HiddenPathsMembers(shadows: seq<Shadowed>, e: Path)
    ensures Count(HiddenPaths(shadows), e) > 0 <==> exists s | s in shadows :: s.hidden == e
  {
    var hidden := HiddenPaths(shadows);
    assert Count(hidden, e) > 0 <==> e in hidden;
    if s :| s in shadows && s.hidden == e {
      var i :| 0 <= i < |shadows| && shadows[i] == s;
      assert hidden[i] == e;
    }
  }

  /** One folder hides an entry at most once. */
  lemma FolderHidesOnce(d: Path, files: seq<Path>, ctx: Context, fs: Fs, e: Path)
    requires Once(files) && ShadowsFor(d, files, ctx, fs).Some?
    ensures Count(HiddenPaths(ShadowsFor(d, files, ctx, fs).value), e) <= 1
  {
    hide Shape;
    var flats := FlatsNamed(ctx, files, Name(d));
    FlatOrder(ctx);
    SortSorts(Filter(files, FlatNamed(ctx, Name(d))), ByKey(FlatKey(ctx), FlatLe));
    FilterCounts(files, FlatNamed(ctx, Name(d)), e);
    assert Count(flats, e) <= Count(files, e) <= 1;
    assert HiddenPaths(Map(flats, HiddenByFolder(d))) == flats;
    assert flats != [] ==> HiddenPaths([Shadowed(d, flats[0], Name(d), EmptyFolder)]) == [d];
    assert HiddenPaths([]) == [];
  }

  /** Files and folders of one directory: none twice, and no two folders of one name. */
  ghost predicate Siblings(dirs: seq<Path>, files: seq<Path>) {
    && Once(dirs) && Once(files) && (forall x | x in dirs :: x !in files)
    && forall c, d | c in dirs && d in dirs && Name(c) == Name(d) :: c == d
  }

  /** Only one folder can hide an entry: the one of its name, or the entry itself. */
  lemma OnlyOneHides(c: Path, d: Path, files: seq<Path>, ctx: Context, fs: Fs, s: Shadowed, t: Shadowed)
    requires Contributes(c, files, ctx, fs, s) && Contributes(d, files, ctx, fs, t) && s.hidden == t.hidden
    requires c !in files && d !in files
    ensures Name(c) == Name(d)
  {
    ShadowsForMembers(c, files, ctx, fs, s);
    ShadowsForMembers(d, files, ctx, fs, t);
  }

  lemma {:induction false} ShadowsHideOnce(dirs: seq<Path>, files: seq<Path>, ctx: Context, fs: Fs, e: Path)
    requires Siblings(dirs, files) && Shadows(dirs, files, ctx, fs).Some?
    ensures Count(HiddenPaths(Shadows(dirs, files, ctx, fs).value), e) <= 1
  {
    if dirs == [] {
      assert HiddenPaths([]) == [];
    } else {
      var n := |dirs| - 1;
      var before, d := dirs[..n], dirs[n];
      ShadowsSplit(dirs, files, ctx, fs);
      SiblingsBefore(dirs, files);
      ShadowsHideOnce(before, files, ctx, fs, e);
      FolderHidesOnce(d, files, ctx, fs, e);
      var a, b := Shadows(before, files, ctx, fs).value, ShadowsFor(d, files, ctx, fs).value;
      hide Shadows, ShadowsFor, Siblings, Once;
      HiddenPathsAppend(a, b, e);
      HiddenPathsMembers(a, e);
      HiddenPathsMembers(b, e);
      if s, t :| s in a && s.hidden == e && t in b && t.hidden == e {
        ShadowsMembers(before, files, ctx, fs, s);
        var c :| c in before && Contributes(c, files, ctx, fs, s);
        OnlyOneHides(c, d, files, ctx, fs, s, t);
      }
    }
  }

  lemma ShadowsSplit(dirs: seq<Path>, files: seq<Path>, ctx: Context, fs: Fs)
    requires dirs != [] && Shadows(dirs, files, ctx, fs).Some?
    ensures var n := |dirs| - 1;
            var a, b := Shadows(dirs[..n], files, ctx, fs), ShadowsFor(dirs[n], files, ctx, fs);
            a.Some? && b.Some? && Shadows(dirs, files, ctx, fs).value == a.value + b.value
  {
    hide ShadowsFor;
  }

  lemma SiblingsBefore(dirs: seq<Path>, files: seq<Path>)
    requires dirs != [] && Siblings(dirs, files)
    ensures var n := |dirs| - 1;
            && Siblings(dirs[..n], files) && dirs[n] !in files
            && forall c | c in dirs[..n] :: Name(c) != Name(dirs[n]) && c !in files
  {
    var n := |dirs| - 1;
    assert dirs == dirs[..n] + [dirs[n]];
    forall e
      ensures Count(dirs, e) == Count(dirs[..n], e) + (if e == dirs[n] then 1 else 0)
    {
    }
    assert Count(dirs, dirs[n]) <= 1;
    assert dirs[n] !in dirs[..n];
  }

  /** In a directory that lists nothing twice, a hidden entry has exactly one record, any other none. */
  lemma ShadowsAreRecordedOnce(dir: Path, ctx: Context, fs: Fs, layout: DirLayout, e: Path)
    requires Coherent(fs, dir) && LayoutOf(dir, ctx, fs) == Some(layout) && Once(fs.list(dir).value)
    requires e in fs.list(dir).value
    ensures Count(HiddenPaths(layout.shadowed), e) == if PlaceOf(ctx, fs, layout, e) == Shadow then 1 else 0
  {
    hide LayoutOf, PlaceOf, Sort, Filter, Shadows, Siblings, Once, HiddenPaths;
    var entries := Sort(fs.list(dir).value, PathLe);
    LayoutShadows(dir, ctx, fs, layout);
    ListedSiblings(dir, ctx, fs);
    ShadowsHideOnce(Filter(entries, OfClass(ctx, fs, Folder)), Filter(entries, OfClass(ctx, fs, File)), ctx, fs, e);
    HiddenPathsMembers(layout.shadowed, e);
    ShadowIff(dir, ctx, fs, layout, e);
  }

  lemma LayoutShadows(dir: Path, ctx: Context, fs: Fs, layout: DirLayout)
    requires LayoutOf(dir, ctx, fs) == Some(layout)
    ensures var entries := Sort(fs.list(dir).value, PathLe);
            Shadows(Filter(entries, OfClass(ctx, fs, Folder)), Filter(entries, OfClass(ctx, fs, File)), ctx, fs)
            == Some(layout.shadowed)
  {
    hide Sort, Filter, Shadows;
  }

  lemma ShadowIff(dir: Path, ctx: Context, fs: Fs, layout: DirLayout, e: Path)
    requires LayoutOf(dir, ctx, fs) == Some(layout) && e in fs.list(dir).value
    ensures PlaceOf(ctx, fs, layout, e) == Shadow <==> exists s | s in layout.shadowed :: s.hidden == e
  {
    EntriesArePartitioned(dir, ctx, fs, layout, e);
    hide LayoutOf, PlaceOf, Paths;
    RecordedIff(layout, e);
  }

  lemma RecordedIff(layout: DirLayout, e: Path)
    ensures (exists w :: RecordsHidden(layout, e, w)) <==> exists s | s in layout.shadowed :: s.hidden == e
  {
    if s :| s in layout.shadowed && s.hidden == e { assert RecordsHidden(layout, e, s.winner); }
  }

  lemma ListedSiblings(dir: Path, ctx: Context, fs: Fs)
    requires Coherent(fs, dir) && Once(fs.list(dir).value)
    ensures var entries := Sort(fs.list(dir).value, PathLe);
            Siblings(Filter(entries, OfClass(ctx, fs, Folder)), Filter(entries, OfClass(ctx, fs, File)))
  {
    var listing := fs.list(dir).value;
    var entries := Sort(listing, PathLe);
    var files, dirs := Filter(entries, OfClass(ctx, fs, File)), Filter(entries, OfClass(ctx, fs, Folder));
    PathLeIsTotalOrder();
    SortSorts(listing, PathLe);
    EntriesOfClass(listing, ctx, fs, File);
    EntriesOfClass(listing, ctx, fs, Folder);
    forall e
      ensures Count(files, e) <= 1 && Count(dirs, e) <= 1
    {
      FilterCounts(entries, OfClass(ctx, fs, File), e);
      FilterCounts(entries, OfClass(ctx, fs, Folder), e);
      assert Count(listing, e) <= 1;
    }
    forall c, d | c in dirs && d in dirs && Name(c) == Name(d)
      ensures c == d
    {
      ChildIsJoined(fs, dir, c);
      ChildIsJoined(fs, dir, d);
    }
  }

  lemma HiddenIsRecorded(layout: DirLayout, e: Path)
    ensures e in Hidden(layout.shadowed) <==> exists w :: RecordsHidden(layout, e, w)
  {
    if s :| s in layout.shadowed && s.hidden == e { assert RecordsHidden(layout, e, s.winner); }
  }

  lemma ChildrenCount(entries: seq<Path>, ctx: Context, fs: Fs, shadowed: seq<Shadowed>, e: Path)
    ensures var files := Filter(entries, OfClass(ctx, fs, File));
            var dirs := Filter(entries, OfClass(ctx, fs, Folder));
            var c := ClassOf(ctx, fs, e);
            Count(Sort(Filter(files + dirs, NotHidden(shadowed)), PathLe), e) ==
            if (c == File || c == Folder) && e !in Hidden(shadowed) then Count(entries, e) else 0
  {
    var files := Filter(entries, OfClass(ctx, fs, File));
    var dirs := Filter(entries, OfClass(ctx, fs, Folder));
    PathLeIsTotalOrder();
    SortSorts(Filter(files + dirs, NotHidden(shadowed)), PathLe);
    FilterCounts(files + dirs, NotHidden(shadowed), e);
    FilterCounts(entries, OfClass(ctx, fs, File), e);
    FilterCounts(entries, OfClass(ctx, fs, Folder), e);
  }

  lemma ShadowsAreFilesOrFolders(dir: Path, ctx: Context, fs: Fs, layout: DirLayout, e: Path)
    requires LayoutOf(dir, ctx, fs) == Some(layout) && e in fs.list(dir).value
    ensures e in Hidden(layout.shadowed) ==> ClassOf(ctx, fs, e) == File || ClassOf(ctx, fs, e) == Folder
  {
    if s :| s in layout.shadowed && s.hidden == e {
      if ClassOf(ctx, fs, e) != Folder {
        assert RecordsHidden(layout, e, s.winner);
        HiddenFile(dir, ctx, fs, e, layout, s.winner);
      }
    }
  }

  /** What wins over a shadow stays a child: nothing disappears altogether. */
  lemma WinnersAreChildren(dir: Path, ctx: Context, fs: Fs, layout: DirLayout, s: Shadowed)
    requires Coherent(fs, dir) && LayoutOf(dir, ctx, fs) == Some(layout) && s in layout.shadowed
    ensures s.winner in layout.children
  {
    var listing := fs.list(dir).value;
    var files := Filter(Sort(listing, PathLe), OfClass(ctx, fs, File));
    var dirs := Filter(Sort(listing, PathLe), OfClass(ctx, fs, Folder));
    EntriesOfClass(listing, ctx, fs, File);
    EntriesOfClass(listing, ctx, fs, Folder);
    ShadowsMembers(dirs, files, ctx, fs, s);
    var d :| d in dirs && Contributes(d, files, ctx, fs, s);
    ShadowsForMembers(d, files, ctx, fs, s);
    WinnerIsSeen(dir, ctx, fs, layout, d, s);
    ChildrenAre(files, dirs, layout.shadowed, s.winner);
  }

  lemma ChildrenAre(files: seq<Path>, dirs: seq<Path>, shadowed: seq<Shadowed>, e: Path)
    requires (e in files || e in dirs) && e !in Hidden(shadowed)
    ensures e in Sort(Filter(files + dirs, NotHidden(shadowed)), PathLe)
  {
    PathLeIsTotalOrder();
    SortMembers(Filter(files + dirs, NotHidden(shadowed)), PathLe);
  }

  /** The winner is a file or folder entry that nothing hides in turn. */
  lemma WinnerIsSeen(dir: Path, ctx: Context, fs: Fs, layout: DirLayout, d: Path, s: Shadowed)
    requires Coherent(fs, dir) && LayoutOf(dir, ctx, fs) == Some(layout)
    requires d in fs.list(dir).value && ClassOf(ctx, fs, d) == Folder
    requires var files := Filter(Sort(fs.list(dir).value, PathLe), OfClass(ctx, fs, File));
             var flats := FlatsNamed(ctx, files, Name(d));
             || (s.hidden in files && Shape(d, ctx, fs) == Some(HasInit) && s == HiddenByFolder(d)(s.hidden))
             || (flats != [] && Shape(d, ctx, fs) == Some(Empty) && s == Shadowed(d, flats[0], Name(d), EmptyFolder))
    ensures s.winner in fs.list(dir).value && s.winner !in Hidden(layout.shadowed)
    ensures ClassOf(ctx, fs, s.winner) == File || ClassOf(ctx, fs, s.winner) == Folder
  {
    var listing := fs.list(dir).value;
    var files := Filter(Sort(listing, PathLe), OfClass(ctx, fs, File));
    EntriesOfClass(listing, ctx, fs, File);
    FlatsNamedMembers(ctx, files, Name(d));
    if s.reason == FolderHasInit {
      FolderWithInitIsSeen(dir, ctx, fs, layout, d);
    } else {
      assert s.winner in FlatsNamed(ctx, files, Name(d));
      FlatOverEmptyIsSeen(dir, ctx, fs, layout, d, s.winner);
    }
  }

  lemma FolderWithInitIsSeen(dir: Path, ctx: Context, fs: Fs, layout: DirLayout, d: Path)
    requires LayoutOf(dir, ctx, fs) == Some(layout)
    requires d in fs.list(dir).value && ClassOf(ctx, fs, d) == Folder && Shape(d, ctx, fs) == Some(HasInit)
    ensures d !in Hidden(layout.shadowed)
  {
    if t :| t in layout.shadowed && t.hidden == d {
      assert RecordsHidden(layout, d, t.winner);
      HiddenFolder(dir, ctx, fs, d, layout, t.winner);
    }
  }

  lemma FlatOverEmptyIsSeen(dir: Path, ctx: Context, fs: Fs, layout: DirLayout, d: Path, f: Path)
    requires Coherent(fs, dir) && LayoutOf(dir, ctx, fs) == Some(layout)
    requires d in fs.list(dir).value && ClassOf(ctx, fs, d) == Folder && Shape(d, ctx, fs) == Some(Empty)
    requires f in fs.list(dir).value && ClassOf(ctx, fs, f) == File && FlatNamed(ctx, Name(d))(f)
    ensures f !in Hidden(layout.shadowed)
  {
    if t :| t in layout.shadowed && t.hidden == f {
      assert RecordsHidden(layout, f, t.winner);
      HiddenFile(dir, ctx, fs, f, layout, t.winner);
      ChildIsJoined(fs, dir, d);
      ChildIsJoined(fs, dir, t.winner);
    }
  }

  /** The same directories listed in another order. */
  ghost predicate SameUpToOrder(a: Fs, b: Fs) {
    && (forall p :: a.isDir(p) == b.isDir(p))
    && (forall p :: a.isFile(p) == b.isFile(p))
    && (forall p :: a.list(p).Some? == b.list(p).Some?)
    && (forall p | a.list(p).Some? :: multiset(a.list(p).value) == multiset(b.list(p).value))
  }

  lemma ShapeIgnoresOrder(dir: Path, ctx: Context, a: Fs, b: Fs)
    requires SameUpToOrder(a, b)
    ensures Shape(dir, ctx, a) == Shape(dir, ctx, b)
  {
    if a.list(dir).Some? {
      var x, y := a.list(dir).value, b.list(dir).value;
      forall e
        ensures e in x <==> e in y
        ensures DefinesFolder(ctx, a, e) <==> DefinesFolder(ctx, b, e)
        ensures Projects(ctx, a, e) <==> Projects(ctx, b, e)
      {
        assert e in multiset(x) <==> e in multiset(y);
      }
    }
  }

  lemma {:induction false} SameFilter(s: seq<Path>, p: Path -> bool, q: Path -> bool)
    requires forall e | e in s :: p(e) == q(e)
    ensures Filter(s, p) == Filter(s, q)
  {
    if s != [] { SameFilter(s[1..], p, q); }
  }

  lemma {:induction false} SameCollect<T>(dirs: seq<Path>, p: Path -> Option<seq<T>>, q: Path -> Option<seq<T>>)
    requires forall d | d in dirs :: p(d) == q(d)
    ensures Collect(dirs, p) == Collect(dirs, q)
  {
    if dirs != [] { SameCollect(dirs[..|dirs| - 1], p, q); }
  }

  lemma ClassesIgnoreOrder(entries: seq<Path>, ctx: Context, a: Fs, b: Fs, c: Class)
    requires SameUpToOrder(a, b)
    ensures Filter(entries, OfClass(ctx, a, c)) == Filter(entries, OfClass(ctx, b, c))
  {
    SameFilter(entries, OfClass(ctx, a, c), OfClass(ctx, b, c));
  }

  /** The layout of a directory does not depend on the order in which any directory is listed. */
  lemma LayoutIgnoresListingOrder(dir: Path, ctx: Context, a: Fs, b: Fs)
    requires SameUpToOrder(a, b)
    ensures LayoutOf(dir, ctx, a) == LayoutOf(dir, ctx, b)
  {
    if a.list(dir).Some? {
      var x, y := a.list(dir).value, b.list(dir).value;
      PathLeIsTotalOrder();
      assert NoTies(x, PathLe);
      SortIgnoresOrder(x, y, PathLe);
      var entries := Sort(x, PathLe);
      ClassesIgnoreOrder(entries, ctx, a, b, File);
      ClassesIgnoreOrder(entries, ctx, a, b, Folder);
      ClassesIgnoreOrder(entries, ctx, a, b, InitFile);
      ClassesIgnoreOrder(entries, ctx, a, b, Staging);
      var files := Filter(entries, OfClass(ctx, a, File));
      var dirs := Filter(entries, OfClass(ctx, a, Folder));
      ShadowsIgnoreOrder(dirs, files, ctx, a, b);
    }
  }

  lemma ShadowsIgnoreOrder(dirs: seq<Path>, files: seq<Path>, ctx: Context, a: Fs, b: Fs)
    requires SameUpToOrder(a, b)
    ensures Shadows(dirs, files, ctx, a) == Shadows(dirs, files, ctx, b)
  {
    forall d | d in dirs
      ensures ShadowsIn(files, ctx, a)(d) == ShadowsIn(files, ctx, b)(d)
    {
      ShapeIgnoresOrder(d, ctx, a, b);
    }
    SameCollect(dirs, ShadowsIn(files, ctx, a), ShadowsIn(files, ctx, b));
  }

  /** Nor does the single-path answer. */
  lemma FormIgnoresListingOrder(path: Path, ctx: Context, a: Fs, b: Fs)
    requires SameUpToOrder(a, b)
    ensures FormOf(path, ctx, a) == FormOf(path, ctx, b)
  {
    if a.isDir(path) {
      FolderFormIgnoresOrder(path, ctx, a, b);
    } else if FlatName(ctx, path).Some? {
      FlatFormIgnoresOrder(Join(Parent(path), FlatName(ctx, path).value.1), ctx, a, b);
    }
  }

  lemma FolderFormIgnoresOrder(path: Path, ctx: Context, a: Fs, b: Fs)
    requires SameUpToOrder(a, b)
    ensures FolderForm(path, ctx, a) == FolderForm(path, ctx, b)
  {
    ShapeIgnoresOrder(path, ctx, a, b);
    if a.list(Parent(path)).Some? {
      FlatsOfSiblings(a.list(Parent(path)).value, b.list(Parent(path)).value, Name(path), ctx, a, b);
    }
  }

  lemma FlatFormIgnoresOrder(folder: Path, ctx: Context, a: Fs, b: Fs)
    requires SameUpToOrder(a, b)
    ensures FlatForm(folder, ctx, a) == FlatForm(folder, ctx, b)
  {
    ShapeIgnoresOrder(folder, ctx, a, b);
  }

  lemma FlatsOfSiblings(x: seq<Path>, y: seq<Path>, name: string, ctx: Context, a: Fs, b: Fs)
    requires SameUpToOrder(a, b) && multiset(x) == multiset(y)
    ensures FlatsNamed(ctx, Filter(x, OfClass(ctx, a, File)), name) ==
            FlatsNamed(ctx, Filter(y, OfClass(ctx, b, File)), name)
  {
    ClassesIgnoreOrder(x, ctx, a, b, File);
    FilterIgnoresOrder(x, y, OfClass(ctx, b, File));
    var u, v := Filter(x, OfClass(ctx, b, File)), Filter(y, OfClass(ctx, b, File));
    FilterIgnoresOrder(u, v, FlatNamed(ctx, name));
    FlatOrder(ctx);
    SortIgnoresOrder(Filter(u, FlatNamed(ctx, name)), Filter(v, FlatNamed(ctx, name)), ByKey(FlatKey(ctx), FlatLe));
  }

  // ---------------------------------------------------------------------------
  // Where the two answers part
  // ---------------------------------------------------------------------------

  const ODD: string := ".server.luau"
  const INIT: string := "init.luau"

  function OddContext(): Context {
    Context([SyncRule(Instance(0), Some((p: Path) => true), Some((n: string) => n == INIT), p => false, Some(ODD))],
            p => false, (m, p) => true)
  }

  /** One directory `d` with two files: the init of `d`, and one whose whole name is a rule's suffix. */
  function OddFs(): Fs {
    Fs(p => if p == ["d"] then Some([["d", INIT], ["d", ODD]]) else None,
       p => p == ["d"],
       p => p == ["d", INIT] || p == ["d", ODD])
  }

  /** Asked for by itself, `ODD` gives way to the directory it is in; in the layout of `d` nothing hides it. */
  lemma OddNameExample() returns (layout: DirLayout)
    ensures Coherent(OddFs(), ["d"])
    ensures LayoutOf(["d"], OddContext(), OddFs()) == Some(layout)
    ensures FormOf(["d", ODD], OddContext(), OddFs()) == Some(Some(["d"]))
    ensures forall w :: !RecordsHidden(layout, ["d", ODD], w)
  {
    var ctx, fs, e := OddContext(), OddFs(), ["d", ODD];
    OddFsIsCoherent();
    OddForm();
    OddLayoutReads();
    OddReadings();
    layout := LayoutOf(["d"], ctx, fs).value;
    forall w
      ensures !RecordsHidden(layout, e, w)
    {
      if w in fs.list(["d"]).value { ChildIsJoined(fs, ["d"], w); }
      OddNamesAreNotHidden(["d"], ctx, fs, e, layout, w);
    }
  }

  lemma OddFsIsCoherent()
    ensures Coherent(OddFs(), ["d"])
  {
    assert |INIT| == 9 && |ODD| == 12;
    assert Parent(["d", INIT]) == ["d"] && Parent(["d", ODD]) == ["d"];
    assert forall name: string :: ["d"] + [name] != ["d"] by {
      assert forall name: string :: |["d"] + [name]| == 2;
    }
  }

  lemma OddForm()
    ensures FormOf(["d", ODD], OddContext(), OddFs()) == Some(Some(["d"]))
  {
    OddReadings();
    assert Parent(["d", ODD]) == ["d"];
    assert ["d", ODD] != ["d"] && ["d", INIT] != ["d"] by { assert |["d"]| == 1 && |["d", ODD]| == 2 && |["d", INIT]| == 2; }
    ShapeHasInit(["d"], OddContext(), OddFs(), ["d", INIT]);
    assert Join(["d"], "") == ["d"];
  }

  lemma ShapeHasInit(dir: Path, ctx: Context, fs: Fs, e: Path)
    requires fs.list(dir).Some? && e in fs.list(dir).value && DefinesFolder(ctx, fs, e)
    ensures Shape(dir, ctx, fs) == Some(HasInit)
  {
  }

  lemma NonEmptyHasMember(s: seq<Path>)
    ensures s != [] ==> exists e :: e in s
  {
    if s != [] { assert s[0] in s; }
  }

  lemma OddLayoutReads()
    ensures LayoutOf(["d"], OddContext(), OddFs()).Some?
  {
    var ctx, fs := OddContext(), OddFs();
    var listing := fs.list(["d"]).value;
    OddHasNoFolders();
    hide Sort, Filter, OfClass, OddContext, OddFs;
    EntriesOfClass(listing, ctx, fs, Folder);
    var files := Filter(Sort(listing, PathLe), OfClass(ctx, fs, File));
    var dirs := Filter(Sort(listing, PathLe), OfClass(ctx, fs, Folder));
    NonEmptyHasMember(dirs);
    assert Shadows(dirs, files, ctx, fs) == Some([]);
  }

  lemma OddHasNoFolders()
    ensures OddFs().list(["d"]).Some?
    ensures forall e | e in OddFs().list(["d"]).value :: ClassOf(OddContext(), OddFs(), e) != Folder
  {
    OddReadings();
  }

  lemma OddReadings()
    ensures FlatName(OddContext(), ["d", ODD]) == Some((0, ""))
    ensures Init(OddContext(), ["d", ODD]) == None && Init(OddContext(), ["d", INIT]).Some?
    ensures !IsExcluded(OddContext(), ["d"]) && !IsExcluded(OddContext(), ["d", INIT])
    ensures !IsExcluded(OddContext(), ["d", ODD])
  {
    assert INIT[0] != ODD[0];
    assert |INIT| == 9 && |ODD| == 12 && |RESHAPE_SUFFIX| == 14;
    assert ODD[|ODD| - |ODD|..] == ODD;
  }
}

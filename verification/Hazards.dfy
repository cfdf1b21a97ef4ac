/**
 The hazard scanner's walk: a depth-first search on a graph whose nodes are canonical paths. Links on disk and
 paths mapped by projects are edges, so the graph may have cycles.
 */
module Hazards {
  import opened Basics

  type Context = nat

  datatype Project = Project(path: Path, context: Context, mapped: seq<Path>)

  /** What reading one directory yields for the walk. */
  datatype Listing =
    | Unreadable
    | DefinedByProject(winner: Path)
    | Children(paths: seq<Path>)

  /** The disk, as the scanner sees it: any answers. */
  datatype World = World(
    canonical: Path -> Path,
    layout: (Path, Context) -> Listing,
    load: (Path, Context) -> Option<Project>,
    excluded: (Path, Context) -> bool,
    isProjectFile: (Path, Context) -> bool,
    present: Path -> bool,
    isDir: Path -> bool,
    isFile: Path -> bool,
    maxDepth: nat)

  /** The `scan-error` hazards. */
  datatype ScanError =
    | ContainsItself(path: Path)
    | DoesNotLoad(path: Path)
    | TooDeep(path: Path)
    | CannotRead(path: Path)

  /** One thing the scanner walks. */
  datatype Task = WalkDirectory(dir: Path, context: Context) | WalkProject(project: Project)

  /** Where a nested project file leads. */
  function ProjectTarget(w: World, path: Path, context: Context): set<Path> {
    match w.load(path, context)
    case Some(project) => {w.canonical(project.path)}
    case None => {}
  }

  /** Where one mapped path of a project leads. */
  function MappedTarget(w: World, path: Path, context: Context): set<Path> {
    if !w.present(path) || w.excluded(path, context) then {}
    else if w.isDir(path) then {w.canonical(path)}
    else if w.isFile(path) && w.isProjectFile(path, context) then ProjectTarget(w, path, context)
    else {}
  }

  /** The nodes a walk of this task must go on to. */
  ghost function Successors(w: World, t: Task): set<Path> {
    match t
    case WalkDirectory(dir, context) =>
      (match w.layout(dir, context)
       case Unreadable => {}
       case DefinedByProject(winner) => ProjectTarget(w, winner, context)
       case Children(paths) => set p | p in paths && w.isDir(p) :: w.canonical(p))
    case WalkProject(project) =>
      set p, q | p in project.mapped && q in MappedTarget(w, p, project.context) :: q
  }

  /** One thing the scanner walks, and how many levels below the scanned project it met it. */
  datatype Spot = Spot(task: Task, depth: nat)

  /** The directory or project file a task is about. */
  function Place(t: Task): Path {
    match t case WalkDirectory(dir, _) => dir case WalkProject(project) => project.path
  }

  /** Path `p` is mapped as a project file: it is there, not excluded, and a file some rule takes for a project. */
  predicate MapsProject(w: World, p: Path, context: Context) {
    w.present(p) && !w.excluded(p, context) && !w.isDir(p) && w.isFile(p) && w.isProjectFile(p, context)
  }

  predicate MapsDirectory(w: World, p: Path, context: Context) {
    w.present(p) && !w.excluded(p, context) && w.isDir(p)
  }

  /** Walking `a` means loading the project file `p`. */
  ghost predicate Loads(w: World, a: Spot, p: Path, context: Context) {
    match a.task
    case WalkDirectory(dir, c) => context == c && w.layout(dir, c) == DefinedByProject(p)
    case WalkProject(project) => context == project.context && p in project.mapped && MapsProject(w, p, context)
  }

  /**
   Walking `a` goes on to `b`: from a directory to its child directories or to the project that defines it, one
   level further down; from a project to what it maps, one level further for a directory, two for a project.
   */
  ghost predicate Leads(w: World, a: Spot, b: Spot) {
    match b.task
    case WalkDirectory(dir, context) =>
      && b.depth == a.depth + 1
      && (match a.task
          case WalkDirectory(parent, c) =>
            c == context && w.layout(parent, c).Children? && dir in w.layout(parent, c).paths && w.isDir(dir)
          case WalkProject(project) =>
            context == project.context && dir in project.mapped && MapsDirectory(w, dir, context))
    case WalkProject(project) =>
      && b.depth == a.depth + (if a.task.WalkDirectory? then 1 else 2)
      && exists p, context :: Loads(w, a, p, context) && w.load(p, context) == Some(project)
  }

  /** A way down from the scanned project. */
  ghost predicate Chain(w: World, root: Project, trail: seq<Spot>) {
    && trail != [] && trail[0] == Spot(WalkProject(root), 0)
    && forall i | 0 <= i < |trail| - 1 :: Leads(w, trail[i], trail[i + 1])
  }

  function Last(trail: seq<Spot>): Spot
    requires trail != []
  {
    trail[|trail| - 1]
  }

  lemma ChainGoesOn(w: World, root: Project, trail: seq<Spot>, b: Spot)
    requires Chain(w, root, trail) && Leads(w, Last(trail), b)
    ensures Chain(w, root, trail + [b])
  {
    hide Leads;
  }

  /** How deep a way down ends: one level a step, and one more for each project mapped by a project. */
  lemma {:induction false} DepthCountsLevels(w: World, root: Project, trail: seq<Spot>)
    requires Chain(w, root, trail)
    ensures Last(trail).depth == |trail| - 1 + |MappedProjects(trail)|
    decreases |trail|
  {
    var n := |trail| - 1;
    if n > 0 {
      assert Leads(w, trail[n - 1], trail[(n - 1) + 1]);
      ShorterChain(w, root, trail);
      DepthCountsLevels(w, root, trail[..n]);
      MappedProjectsGrow(trail);
    } else {
      assert MappedProjects(trail) == {};
    }
  }

  ghost function MappedProjects(trail: seq<Spot>): set<nat> {
    set i | 0 <= i < |trail| && MappedByProject(trail, i)
  }

  predicate MappedByProject(trail: seq<Spot>, i: nat)
    requires i < |trail|
  {
    i > 0 && trail[i].task.WalkProject? && trail[i - 1].task.WalkProject?
  }

  lemma MappedProjectsGrow(trail: seq<Spot>)
    requires |trail| >= 2
    ensures var n := |trail| - 1;
            |MappedProjects(trail)| == |MappedProjects(trail[..n])|
              + (if MappedByProject(trail, n) then 1 else 0)
  {
    var n := |trail| - 1;
    var before := MappedProjects(trail[..n]);
    assert forall i | 0 <= i < n :: MappedByProject(trail[..n], i) == MappedByProject(trail, i);
    if MappedByProject(trail, n) {
      assert MappedProjects(trail) == before + {n};
    } else {
      assert MappedProjects(trail) == before;
    }
  }

  /** What `e` reports is to be met at the end of a way down. */
  ghost predicate Causes(w: World, root: Project, trail: seq<Spot>, e: ScanError) {
    && Chain(w, root, trail)
    && var a := Last(trail);
       match e
       case TooDeep(dir) => a.task.WalkDirectory? && a.task.dir == dir && a.depth > w.maxDepth
       case CannotRead(dir) => a.task.WalkDirectory? && a.task.dir == dir && w.layout(dir, a.task.context).Unreadable?
       case DoesNotLoad(p) => exists context :: Loads(w, a, p, context) && w.load(p, context).None?
       case ContainsItself(p) => Place(a.task) == p && ComesBack(w, trail)
  }

  /** The last spot stands for the same node as an earlier one. */
  ghost predicate ComesBack(w: World, trail: seq<Spot>)
    requires trail != []
  {
    exists i | 0 <= i < |trail| - 1 :: w.canonical(Place(trail[i].task)) == w.canonical(Place(Last(trail).task))
  }

  ghost predicate HasCause(w: World, root: Project, e: ScanError) {
    exists trail :: Causes(w, root, trail, e)
  }

  /** The end of a way down is within the depth limit, reads, loads what it asks for, and is new. */
  ghost predicate Harmless(w: World, trail: seq<Spot>)
    requires trail != []
  {
    var a := Last(trail);
    && (a.task.WalkDirectory? ==> a.depth <= w.maxDepth && !w.layout(a.task.dir, a.task.context).Unreadable?)
    && (forall p, context | Loads(w, a, p, context) :: w.load(p, context).Some?)
    && !ComesBack(w, trail)
  }

  lemma HarmlessCausesNothing(w: World, root: Project, e: ScanError)
    requires forall trail | Chain(w, root, trail) :: Harmless(w, trail)
    ensures !HasCause(w, root, e)
  {
    forall trail | Chain(w, root, trail)
      ensures !Causes(w, root, trail, e)
    {
      assert Harmless(w, trail);
    }
  }

  /** Nothing was wrong where `a` goes on to: what it loads loads, what it walks reads, nothing is too deep. */
  ghost predicate Healthy(w: World, a: Spot) {
    match a.task
    case WalkDirectory(dir, context) =>
      (match w.layout(dir, context)
       case Unreadable => false
       case DefinedByProject(winner) => w.load(winner, context).Some?
       case Children(paths) => forall p | p in paths && w.isDir(p) :: a.depth + 1 <= w.maxDepth)
    case WalkProject(project) => forall p | p in project.mapped :: HealthyMapping(w, p, project.context, a.depth + 1)
  }

  ghost predicate HealthyMapping(w: World, p: Path, context: Context, depth: nat) {
    && (MapsDirectory(w, p, context) ==> depth <= w.maxDepth)
    && (MapsProject(w, p, context) ==> w.load(p, context).Some?)
  }

  /** A way down ends here. */
  ghost predicate Reached(w: World, root: Project, a: Spot) {
    exists trail :: Chain(w, root, trail) && Last(trail) == a
  }

  /** The task reads the entries of a directory. */
  predicate Reads(w: World, t: Task) {
    t.WalkDirectory? && !w.layout(t.dir, t.context).Unreadable?
  }

  /** The successors of a task are the nodes it leads to. */
  lemma SuccessorsAreLedTo(w: World, a: Spot, y: Path)
    ensures y in Successors(w, a.task) <==> exists b :: Leads(w, a, b) && w.canonical(Place(b.task)) == y
  {
    if y in Successors(w, a.task) {
      var b := LedTo(w, a, y);
    }
    if b :| Leads(w, a, b) && w.canonical(Place(b.task)) == y {
      LeadsToSuccessor(w, a, b);
    }
  }

  lemma LeadsToSuccessor(w: World, a: Spot, b: Spot)
    requires Leads(w, a, b)
    ensures w.canonical(Place(b.task)) in Successors(w, a.task)
  {
    if b.task.WalkProject? {
      var p, context :| Loads(w, a, p, context) && w.load(p, context) == Some(b.task.project);
      assert w.canonical(Place(b.task)) in ProjectTarget(w, p, context);
      if a.task.WalkProject? { assert w.canonical(Place(b.task)) in MappedTarget(w, p, context); }
    } else if a.task.WalkProject? {
      assert w.canonical(Place(b.task)) in MappedTarget(w, b.task.dir, b.task.context);
    }
  }

  lemma LedTo(w: World, a: Spot, y: Path) returns (b: Spot)
    requires y in Successors(w, a.task)
    ensures Leads(w, a, b) && w.canonical(Place(b.task)) == y
  {
    match a.task
    case WalkDirectory(dir, context) =>
      if w.layout(dir, context).Children? {
        var p :| p in w.layout(dir, context).paths && w.isDir(p) && w.canonical(p) == y;
        b := Spot(WalkDirectory(p, context), a.depth + 1);
      } else {
        var winner := w.layout(dir, context).winner;
        assert Loads(w, a, winner, context);
        b := Spot(WalkProject(w.load(winner, context).value), a.depth + 1);
      }
    case WalkProject(project) =>
      var p :| p in project.mapped && y in MappedTarget(w, p, project.context);
      if w.isDir(p) {
        b := Spot(WalkDirectory(p, project.context), a.depth + 1);
      } else {
        assert Loads(w, a, p, project.context);
        b := Spot(WalkProject(w.load(p, project.context).value), a.depth + 2);
      }
  }

  /** `v` is listed strictly before `u`. */
  ghost predicate Before(order: seq<Path>, v: Path, u: Path) {
    exists i, j | 0 <= i < j < |order| :: order[i] == v && order[j] == u
  }

  /** An edge the walk may have followed: its target is finished, or deeper on the stack than its source. */
  ghost predicate Forward(ancestors: seq<Path>, finished: seq<Path>, u: Path, v: Path) {
    || Before(finished, v, u)
    || (u in ancestors && v in finished)
    || Before(ancestors, u, v)
  }

  /** Everything visited is either on the stack or left for good, and never both or twice. */
  ghost predicate Stacked(visited: set<Path>, ancestors: seq<Path>, finished: seq<Path>) {
    && (forall x :: x in visited <==> x in ancestors || x in finished)
    && (forall x :: !(x in ancestors && x in finished))
    && NoDuplicates(ancestors) && NoDuplicates(finished)
  }

  ghost predicate AllForward(edges: set<(Path, Path)>, ancestors: seq<Path>, finished: seq<Path>) {
    forall u, v | (u, v) in edges :: Forward(ancestors, finished, u, v)
  }

  lemma BeforeAppend(order: seq<Path>, u: Path, v: Path, x: Path)
    requires Before(order, u, v)
    ensures Before(order + [x], u, v)
  {
    var i, j :| 0 <= i < j < |order| && order[i] == u && order[j] == v;
    assert (order + [x])[i] == u && (order + [x])[j] == v;
  }

  lemma BeforeLast(order: seq<Path>, u: Path, x: Path)
    requires u in order
    ensures Before(order + [x], u, x)
  {
    var i :| 0 <= i < |order| && order[i] == u;
    assert (order + [x])[i] == u && (order + [x])[|order|] == x;
  }

  /** Entering a new node below the top of the stack. */
  lemma EnterForward(edges: set<(Path, Path)>, ancestors: seq<Path>, finished: seq<Path>, c: Path)
    requires AllForward(edges, ancestors, finished)
    ensures AllForward(edges, ancestors + [c], finished)
    ensures ancestors != [] ==> Forward(ancestors + [c], finished, ancestors[|ancestors| - 1], c)
  {
    forall u, v | (u, v) in edges
      ensures Forward(ancestors + [c], finished, u, v)
    {
      if Before(ancestors, u, v) { BeforeAppend(ancestors, u, v, c); }
    }
    if ancestors != [] { BeforeLast(ancestors, ancestors[|ancestors| - 1], c); }
  }

  /** Leaving the top of the stack: it finishes after everything it points to. */
  lemma LeaveForward(edges: set<(Path, Path)>, ancestors: seq<Path>, finished: seq<Path>, top: Path)
    requires AllForward(edges, ancestors + [top], finished)
    ensures AllForward(edges, ancestors, finished + [top])
  {
    forall u, v | (u, v) in edges
      ensures Forward(ancestors, finished + [top], u, v)
    {
      LeaveEdge(ancestors, finished, top, u, v);
    }
  }

  lemma LeaveEdge(ancestors: seq<Path>, finished: seq<Path>, top: Path, u: Path, v: Path)
    requires Forward(ancestors + [top], finished, u, v)
    ensures Forward(ancestors, finished + [top], u, v)
  {
    if Before(finished, v, u) {
      BeforeAppend(finished, v, u, top);
    } else if u in ancestors + [top] && v in finished {
      if u !in ancestors { BeforeLast(finished, v, top); }
    } else {
      var i, j :| 0 <= i < j < |ancestors + [top]| && (ancestors + [top])[i] == u && (ancestors + [top])[j] == v;
      assert ancestors[i] == u;
      if j < |ancestors| { assert ancestors[j] == v; }
    }
  }

  /** A path along edges. */
  ghost predicate IsWalk(edges: set<(Path, Path)>, p: seq<Path>) {
    forall i | 0 <= i < |p| - 1 :: (p[i], p[i + 1]) in edges
  }

  ghost predicate HasCycle(edges: set<(Path, Path)>) {
    exists p :: IsWalk(edges, p) && |p| >= 2 && p[0] == p[|p| - 1]
  }

  ghost predicate ReportsCycle(errors: seq<ScanError>) {
    exists e | e in errors :: e.ContainsItself?
  }

  /** Meeting a node of the stack again closes a cycle of followed edges. */
  lemma ClosesCycle(edges: set<(Path, Path)>, ancestors: seq<Path>, c: Path)
    requires IsWalk(edges, ancestors) && c in ancestors && (ancestors[|ancestors| - 1], c) in edges
    ensures HasCycle(edges)
  {
    var j :| 0 <= j < |ancestors| && ancestors[j] == c;
    var p := ancestors[j..] + [c];
    forall i | 0 <= i < |p| - 1
      ensures (p[i], p[i + 1]) in edges
    {
      assert p[i] == ancestors[j + i];
      if i < |p| - 2 { assert p[i + 1] == ancestors[j + i + 1]; }
    }
    assert IsWalk(edges, p);
  }

  lemma LeaveStacked(visited: set<Path>, ancestors: seq<Path>, finished: seq<Path>)
    requires Stacked(visited, ancestors, finished) && ancestors != []
    ensures Stacked(visited, ancestors[..|ancestors| - 1], finished + [ancestors[|ancestors| - 1]])
    ensures ancestors[|ancestors| - 1] !in finished
  {
    var n := |ancestors| - 1;
    var top := ancestors[n];
    assert top in ancestors;
    assert forall x :: x in ancestors <==> x in ancestors[..n] || x == top;
    assert top !in ancestors[..n];
  }

  lemma LeaveWalk(edges: set<(Path, Path)>, ancestors: seq<Path>)
    requires IsWalk(edges, ancestors) && ancestors != []
    ensures IsWalk(edges, ancestors[..|ancestors| - 1])
  {
  }

  /** The edges once the top of the stack is seen to lead to `c`. */
  ghost function Followed(edges: set<(Path, Path)>, ancestors: seq<Path>, c: Path): set<(Path, Path)> {
    edges + if ancestors == [] then {} else {(ancestors[|ancestors| - 1], c)}
  }

  /** Meeting a node: on the stack it closes a cycle, left already it is a forward edge, new it goes on the stack. */
  lemma MeetsNode(edges: set<(Path, Path)>, visited: set<Path>, ancestors: seq<Path>, finished: seq<Path>, c: Path,
                  errors: seq<ScanError>)
    requires Stacked(visited, ancestors, finished) && IsWalk(edges, ancestors)
    requires ReportsCycle(errors) ==> HasCycle(edges)
    requires errors == [] ==> AllForward(edges, ancestors, finished)
    ensures var edges' := Followed(edges, ancestors, c);
            && edges <= edges' && IsWalk(edges', ancestors)
            && (ReportsCycle(errors) ==> HasCycle(edges'))
            && (c in ancestors ==> c in visited && HasCycle(edges'))
            && (c in visited && c !in ancestors && errors == [] ==> AllForward(edges', ancestors, finished))
            && (c !in visited ==>
                  && Stacked(visited + {c}, ancestors + [c], finished) && IsWalk(edges', ancestors + [c])
                  && (errors == [] ==> AllForward(edges', ancestors + [c], finished)))
  {
    var edges' := Followed(edges, ancestors, c);
    if c in ancestors {
      ClosesCycle(edges', ancestors, c);
    } else if c !in visited {
      if errors == [] { EnterForward(edges, ancestors, finished, c); }
    }
  }

  /**
   Whatever the walk can enter lies in one finite set of canonical paths: directories on disk and project files
   that load. Nothing is said of paths that do not exist, which stand for themselves.
   */
  ghost predicate Bounded(w: World, places: set<Path>) {
    && (forall p | w.isDir(p) :: w.canonical(p) in places)
    && (forall p, c | w.load(p, c).Some? :: w.canonical(w.load(p, c).value.path) in places)
  }

  lemma BoundedHas(w: World, places: set<Path>, p: Path)
    requires Bounded(w, places) && w.isDir(p)
    ensures w.canonical(p) in places
  {
  }

  /** The stack is a way down. */
  ghost predicate Traced(w: World, root: Project, trail: seq<Spot>, ancestors: seq<Path>) {
    && |trail| == |ancestors| && (trail != [] ==> Chain(w, root, trail))
    && forall i | 0 <= i < |trail| :: w.canonical(Place(trail[i].task)) == ancestors[i]
  }

  lemma TracedGoesOn(w: World, root: Project, trail: seq<Spot>, ancestors: seq<Path>, a: Spot)
    requires Traced(w, root, trail, ancestors) && Chain(w, root, trail + [a])
    ensures Traced(w, root, trail + [a], ancestors + [w.canonical(Place(a.task))])
  {
    hide Chain;
  }

  lemma TracedGoesBack(w: World, root: Project, trail: seq<Spot>, ancestors: seq<Path>)
    requires ancestors != [] && Traced(w, root, trail, ancestors)
    ensures trail != [] && Traced(w, root, trail[..|trail| - 1], ancestors[..|ancestors| - 1])
    ensures Reached(w, root, Last(trail)) && w.canonical(Place(Last(trail).task)) == ancestors[|ancestors| - 1]
  {
    ShorterChain(w, root, trail);
    hide Chain;
  }

  ghost predicate Caused(w: World, root: Project, errors: seq<ScanError>) {
    forall e | e in errors :: HasCause(w, root, e)
  }

  lemma CausedToo(w: World, root: Project, errors: seq<ScanError>, e: ScanError)
    requires Caused(w, root, errors) && HasCause(w, root, e)
    ensures Caused(w, root, errors + [e])
  {
    hide HasCause;
    assert forall x :: x in errors + [e] <==> x in errors || x == e;
  }

  /** Everything left for good was walked where some way down met it, and read if it is a directory that can be. */
  ghost predicate Walked(w: World, root: Project, finished: seq<Path>, walked: map<Path, Spot>, read: set<Path>) {
    forall x | x in finished ::
      && x in walked && w.canonical(Place(walked[x].task)) == x && Reached(w, root, walked[x])
      && (x in read <==> Reads(w, walked[x].task))
  }

  /** Everything left for good had all its successors followed, and nothing wrong with them. */
  ghost predicate Explored(w: World, finished: seq<Path>, walked: map<Path, Spot>, edges: set<(Path, Path)>) {
    forall x | x in finished ::
      && x in walked && Healthy(w, walked[x])
      && forall y | y in Successors(w, walked[x].task) :: (x, y) in edges
  }

  lemma ExploredGrows(w: World, finished: seq<Path>, walked: map<Path, Spot>, a: set<(Path, Path)>, b: set<(Path, Path)>)
    requires Explored(w, finished, walked, a) && a <= b
    ensures Explored(w, finished, walked, b)
  {
    hide Healthy, Successors;
  }

  /** One more node left for good. */
  lemma WalkedToo(w: World, root: Project, finished: seq<Path>, walked: map<Path, Spot>, read: set<Path>, a: Spot)
    requires Walked(w, root, finished, walked, read) && Reached(w, root, a)
    requires var top := w.canonical(Place(a.task)); top !in finished && (top in read <==> Reads(w, a.task))
    ensures var top := w.canonical(Place(a.task)); Walked(w, root, finished + [top], walked[top := a], read)
  {
    hide Reached, Reads;
  }

  /** Reading a directory that is not left yet. */
  lemma WalkedReads(w: World, root: Project, finished: seq<Path>, walked: map<Path, Spot>, read: set<Path>, top: Path)
    requires Walked(w, root, finished, walked, read) && top !in finished
    ensures Walked(w, root, finished, walked, read + {top})
  {
    hide Reached, Reads;
  }

  lemma TopIsOpen(visited: set<Path>, ancestors: seq<Path>, finished: seq<Path>)
    requires Stacked(visited, ancestors, finished) && ancestors != []
    ensures ancestors[|ancestors| - 1] in visited && ancestors[|ancestors| - 1] !in finished
  {
    assert ancestors[|ancestors| - 1] in ancestors;
  }

  /** The first `n` mapped paths were followed, with nothing wrong. */
  ghost predicate MappingsFollowed(w: World, project: Project, n: nat, depth: nat, here: Path, edges: set<(Path, Path)>)
    requires n <= |project.mapped|
  {
    forall k | 0 <= k < n ::
      && HealthyMapping(w, project.mapped[k], project.context, depth)
      && forall y | y in MappedTarget(w, project.mapped[k], project.context) :: (here, y) in edges
  }

  lemma OneMoreMapping(w: World, project: Project, n: nat, depth: nat, here: Path, a: set<(Path, Path)>, b: set<(Path, Path)>)
    requires n < |project.mapped| && MappingsFollowed(w, project, n, depth, here, a) && a <= b
    requires var p := project.mapped[n];
             w.present(p) ==>
               && HealthyMapping(w, p, project.context, depth)
               && forall y | y in MappedTarget(w, p, project.context) :: (here, y) in b
    ensures MappingsFollowed(w, project, n + 1, depth, here, b)
  {
  }

  lemma AllMappingsFollowed(w: World, project: Project, depth: nat, here: Path, edges: set<(Path, Path)>)
    requires MappingsFollowed(w, project, |project.mapped|, depth + 1, here, edges)
    ensures Healthy(w, Spot(WalkProject(project), depth))
    ensures forall y | y in Successors(w, WalkProject(project)) :: (here, y) in edges
  {
    hide HealthyMapping, MappedTarget;
  }

  lemma ExploredToo(w: World, finished: seq<Path>, walked: map<Path, Spot>, edges: set<(Path, Path)>, top: Path, a: Spot)
    requires Explored(w, finished, walked, edges) && top !in finished && Healthy(w, a)
    requires forall y | y in Successors(w, a.task) :: (top, y) in edges
    ensures Explored(w, finished + [top], walked[top := a], edges)
  {
    hide Healthy, Successors;
  }

  class Scanner {
    const world: World
    ghost const root: Project
    ghost const universe: set<Path>
    var visited: set<Path>
    var ancestors: seq<Path>
    var errors: seq<ScanError>
    var directories: nat
    /** The order in which nodes were left, what was walked for each, and every edge met on the way. */
    ghost var finished: seq<Path>
    ghost var walked: map<Path, Spot>
    ghost var edges: set<(Path, Path)>
    /** The directories whose entries were read. */
    ghost var read: set<Path>
    /** The way down to where the walk is. */
    ghost var trail: seq<Spot>

    constructor (w: World, ghost project: Project, ghost places: set<Path>)
      requires Bounded(w, places)
      ensures world == w && root == project && universe == places
      ensures Valid() && visited == {} && ancestors == [] && errors == [] && finished == [] && edges == {} && trail == []
    {
      world, root, universe := w, project, places;
      visited, ancestors, errors, directories := {}, [], [], 0;
      finished, walked, edges, read, trail := [], map[], {}, {}, [];
    }

    ghost predicate Valid()
      reads this
    {
      && Bounded(world, universe)
      && Stacked(visited, ancestors, finished) && visited <= universe
      && read <= visited && |read| == directories
      && IsWalk(edges, ancestors)
      && (ReportsCycle(errors) ==> HasCycle(edges))
      && Traced(world, root, trail, ancestors) && Caused(world, root, errors)
      && Walked(world, root, finished, walked, read)
      && (errors == [] ==> AllForward(edges, ancestors, finished) && Explored(world, finished, walked, edges))
    }

    /** What every part of the walk keeps: where it stands, and what was found before. */
    twostate predicate Grew()
      reads this
    {
      && ancestors == old(ancestors) && trail == old(trail)
      && old(visited) <= visited && old(edges) <= edges && old(finished) <= finished && old(errors) <= errors
      && forall x | x in old(visited) :: x in read <==> x in old(read)
    }

    /** The walk may go on to `a`. */
    ghost predicate Ahead(a: Spot)
      reads this
    {
      Chain(world, root, trail + [a])
    }

    /** Reports something that is the matter at the end of a way down. */
    method Report(e: ScanError, ghost way: seq<Spot>)
      requires Valid() && Causes(world, root, way, e) && !e.ContainsItself?
      modifies this`errors
      ensures Valid() && errors == old(errors) + [e]
    {
      hide HasCycle, Stacked, IsWalk, AllForward, Causes, Caused, Traced, Walked, Explored;
      assert HasCause(world, root, e);
      CausedToo(world, root, errors, e);
      assert errors + [e] != [];
      errors := errors + [e];
    }

    /** Meets the node `path` stands for. A new one goes on the stack; of one on the stack a cycle is reported. */
    method Enter(path: Path, ghost spot: Spot) returns (entered: bool)
      requires Valid() && world.canonical(path) in universe
      requires Place(spot.task) == path && Ahead(spot)
      modifies this`visited, this`ancestors, this`errors, this`edges, this`trail
      ensures Valid()
      ensures edges == old(edges) + (if old(ancestors) == [] then {} else {(old(ancestors)[|old(ancestors)| - 1], world.canonical(path))})
      ensures entered <==> world.canonical(path) !in old(visited)
      ensures entered ==>
                && errors == old(errors) && visited == old(visited) + {world.canonical(path)}
                && ancestors == old(ancestors) + [world.canonical(path)] && trail == old(trail) + [spot]
      ensures !entered ==> visited == old(visited) && ancestors == old(ancestors) && trail == old(trail)
      ensures errors == old(errors) + (if world.canonical(path) in old(ancestors) then [ContainsItself(path)] else [])
    {
      hide HasCycle, Stacked, IsWalk, AllForward, ReportsCycle, Caused, Traced, Walked, Explored, HasCause, Chain;
      var c := world.canonical(path);
      MeetsNode(edges, visited, ancestors, finished, c, errors);
      TracedGoesOn(world, root, trail, ancestors, spot);
      if errors == [] { ExploredGrows(world, finished, walked, edges, Followed(edges, ancestors, c)); }
      if c in ancestors {
        ComingBack(world, root, trail, ancestors, spot);
        CausedToo(world, root, errors, ContainsItself(path));
      }
      edges := Followed(edges, ancestors, c);
      if c in ancestors {
        assert errors + [ContainsItself(path)] != [];
        errors := errors + [ContainsItself(path)];
        return false;
      }
      if c in visited {
        return false;
      }
      visited := visited + {c};
      ancestors := ancestors + [c];
      trail := trail + [spot];
      return true;
    }

    /** Leaves the node on top of the stack, once everything it leads to was followed. */
    method Leave(ghost spot: Spot)
      requires Valid() && ancestors != [] && Last(trail) == spot
      requires ancestors[|ancestors| - 1] in read <==> Reads(world, spot.task)
      requires errors == [] ==> Healthy(world, spot)
      requires errors == [] ==> forall y | y in Successors(world, spot.task) :: (ancestors[|ancestors| - 1], y) in edges
      modifies this`ancestors, this`finished, this`walked, this`trail
      ensures Valid()
      ensures ancestors == old(ancestors)[..|old(ancestors)| - 1] && trail == old(trail)[..|old(trail)| - 1]
      ensures finished == old(finished) + [old(ancestors)[|old(ancestors)| - 1]]
    {
      hide HasCycle, Stacked, IsWalk, AllForward, ReportsCycle, Caused, Traced, Walked, Explored, Reads, Healthy, Successors,
           Bounded;
      ghost var n := |ancestors| - 1;
      ghost var top := ancestors[n];
      assert ancestors == ancestors[..n] + [top];
      if errors == [] { LeaveForward(edges, ancestors[..n], finished, top); }
      LeaveStacked(visited, ancestors, finished);
      LeaveWalk(edges, ancestors);
      TracedGoesBack(world, root, trail, ancestors);
      WalkedToo(world, root, finished, walked, read, spot);
      if errors == [] { ExploredToo(world, finished, walked, edges, top, spot); }
      ancestors := ancestors[..|ancestors| - 1];
      trail := trail[..|trail| - 1];
      finished := finished + [top];
      walked := walked[top := spot];
    }

    method ScanProject(project: Project, depth: nat)
      requires Valid() && world.canonical(project.path) in universe && Ahead(Spot(WalkProject(project), depth))
      modifies this
      ensures Valid() && Grew()
      ensures old(ancestors) != [] ==> (old(ancestors)[|old(ancestors)| - 1], world.canonical(project.path)) in edges
      ensures errors == [] ==> world.canonical(project.path) in visited
      decreases universe - visited, 0
    {
      hide HasCycle, Stacked, IsWalk, AllForward, ReportsCycle, Caused, Walked, Explored, Traced, Chain, Bounded,
           Healthy, Successors;
      assert read <= visited;
      hide Valid;
      var entered := Enter(project.path, Spot(WalkProject(project), depth));
      if !entered {
        return;
      }
      Popped(old(ancestors), world.canonical(project.path));
      Popped(old(trail), Spot(WalkProject(project), depth));
      ScanMapped(project, depth);
      Leave(Spot(WalkProject(project), depth));
    }

    method ScanMapped(project: Project, depth: nat)
      requires Valid() && ancestors != [] && Last(trail) == Spot(WalkProject(project), depth)
      modifies this
      ensures Valid() && Grew()
      ensures errors == [] ==>
                && Healthy(world, Spot(WalkProject(project), depth))
                && forall y | y in Successors(world, WalkProject(project)) :: (ancestors[|ancestors| - 1], y) in edges
      decreases universe - visited, 3
    {
      assert MappingsFollowed(world, project, 0, depth + 1, ancestors[|ancestors| - 1], edges);
      hide HasCycle, Stacked, IsWalk, AllForward, ReportsCycle, Caused, Walked, Explored, Chain, Healthy, Successors,
           MappingsFollowed, Bounded;
      ghost var here := ancestors[|ancestors| - 1];
      for i := 0 to |project.mapped|
        invariant Valid() && Grew()
        invariant errors == [] ==> MappingsFollowed(world, project, i, depth + 1, here, edges)
      {
        var path := project.mapped[i];
        ghost var before := edges;
        if world.present(path) {
          ScanPath(path, project.context, depth + 1);
        }
        if errors == [] { OneMoreMapping(world, project, i, depth + 1, here, before, edges); }
      }
      if errors == [] { AllMappingsFollowed(world, project, depth, here, edges); }
    }

    method ScanPath(path: Path, context: Context, depth: nat)
      requires Valid() && ancestors != [] && world.present(path)
      requires Last(trail).task.WalkProject? && depth == Last(trail).depth + 1
      requires path in Last(trail).task.project.mapped && context == Last(trail).task.project.context
      modifies this
      ensures Valid() && Grew()
      ensures errors == [] ==>
                && HealthyMapping(world, path, context, depth)
                && forall y | y in MappedTarget(world, path, context) :: (ancestors[|ancestors| - 1], y) in edges
      decreases universe - visited, 2
    {
      hide HasCycle, Stacked, IsWalk, AllForward, ReportsCycle, Caused, Walked, Explored;
      if world.excluded(path, context) {
        return;
      }
      if world.isDir(path) {
        ChainGoesOn(world, root, trail, Spot(WalkDirectory(path, context), depth));
        ScanDir(path, context, depth);
      } else if world.isFile(path) && world.isProjectFile(path, context) {
        ScanNestedProject(path, context, depth);
      }
    }

    method ScanNestedProject(path: Path, context: Context, depth: nat)
      requires Valid() && ancestors != [] && Loads(world, Last(trail), path, context)
      requires depth == Last(trail).depth + if Last(trail).task.WalkDirectory? then 0 else 1
      modifies this
      ensures Valid() && Grew()
      ensures errors == [] ==>
                && world.load(path, context).Some?
                && forall y | y in ProjectTarget(world, path, context) :: (ancestors[|ancestors| - 1], y) in edges
      decreases universe - visited, 1
    {
      hide HasCycle, Stacked, IsWalk, AllForward, ReportsCycle, Caused, Walked, Explored;
      var loaded := world.load(path, context);
      if loaded.Some? {
        ChainGoesOn(world, root, trail, Spot(WalkProject(loaded.value), depth + 1));
        ScanProject(loaded.value, depth + 1);
      } else {
        Report(DoesNotLoad(path), trail);
      }
    }

    method ScanDir(dir: Path, context: Context, depth: nat)
      requires Valid() && ancestors != [] && world.isDir(dir) && Ahead(Spot(WalkDirectory(dir, context), depth))
      modifies this
      ensures Valid() && Grew()
      ensures errors == [] ==>
                && depth <= world.maxDepth
                && (ancestors[|ancestors| - 1], world.canonical(dir)) in edges && world.canonical(dir) in visited
      decreases universe - visited, 0
    {
      hide HasCycle, Stacked, IsWalk, AllForward, ReportsCycle, Caused, Walked, Explored, Traced, Chain, Causes,
           Bounded;
      BoundedHas(world, universe, dir);
      assert read <= visited;
      hide Valid;
      ghost var spot := Spot(WalkDirectory(dir, context), depth);
      if depth > world.maxDepth {
        TooDeepHere(world, root, trail + [spot]);
        Report(TooDeep(dir), trail + [spot]);
        return;
      }
      var entered := Enter(dir, spot);
      if !entered {
        return;
      }
      assert world.canonical(dir) in universe - old(visited) && world.canonical(dir) !in universe - visited;
      Popped(old(ancestors), world.canonical(dir));
      Popped(old(trail), spot);
      FinishDir(dir, context, depth);
    }

    /** Walks the directory on top of the stack and leaves it. */
    method FinishDir(dir: Path, context: Context, depth: nat)
      requires Valid() && ancestors != [] && Last(trail) == Spot(WalkDirectory(dir, context), depth)
      requires world.canonical(dir) !in read
      modifies this
      ensures Valid()
      ensures ancestors == old(ancestors)[..|old(ancestors)| - 1] && trail == old(trail)[..|old(trail)| - 1]
      ensures old(visited) <= visited && old(edges) <= edges && old(finished) <= finished && old(errors) <= errors
      ensures forall x | x in old(visited) && x != world.canonical(dir) :: x in read <==> x in old(read)
      decreases universe - visited, 3
    {
      assert ancestors[|ancestors| - 1] == world.canonical(dir);
      hide HasCycle, Stacked, IsWalk, AllForward, ReportsCycle, Caused, Walked, Explored, Healthy, Successors,
           Traced, Bounded, Reads;
      WalkDir(dir, context, depth);
      Leave(Spot(WalkDirectory(dir, context), depth));
    }

    method WalkDir(dir: Path, context: Context, depth: nat)
      requires Valid() && ancestors != [] && Last(trail) == Spot(WalkDirectory(dir, context), depth)
      requires world.canonical(dir) !in read
      modifies this
      ensures Valid() && ancestors == old(ancestors) && trail == old(trail)
      ensures old(visited) <= visited && old(edges) <= edges && old(finished) <= finished && old(errors) <= errors
      ensures forall x | x in old(visited) && x != world.canonical(dir) :: x in read <==> x in old(read)
      ensures world.canonical(dir) in read <==> Reads(world, WalkDirectory(dir, context))
      ensures errors == [] ==>
                && Healthy(world, Spot(WalkDirectory(dir, context), depth))
                && forall y | y in Successors(world, WalkDirectory(dir, context)) :: (ancestors[|ancestors| - 1], y) in edges
      decreases universe - visited, 2
    {
      hide HasCycle, Stacked, IsWalk, AllForward, ReportsCycle, Caused, Walked, Explored, Traced, Chain, Causes,
           Bounded;
      CannotReadHere(world, root, trail, ancestors);
      hide Valid;
      match world.layout(dir, context)
      case Unreadable =>
        Report(CannotRead(dir), trail);
      case DefinedByProject(winner) =>
        CountDirectory(dir);
        ScanNestedProject(winner, context, depth);
      case Children(paths) =>
        CountDirectory(dir);
        ScanChildren(dir, paths, context, depth);
    }

    method ScanChildren(ghost dir: Path, paths: seq<Path>, context: Context, depth: nat)
      requires Valid() && ancestors != [] && Last(trail) == Spot(WalkDirectory(dir, context), depth)
      requires world.layout(dir, context) == Children(paths)
      modifies this
      ensures Valid() && Grew()
      ensures errors == [] ==>
                forall p | p in paths && world.isDir(p) ::
                  depth + 1 <= world.maxDepth && (ancestors[|ancestors| - 1], world.canonical(p)) in edges
      decreases universe - visited, 1
    {
      hide HasCycle, Stacked, IsWalk, AllForward, ReportsCycle, Caused, Walked, Explored, Successors;
      ghost var here := ancestors[|ancestors| - 1];
      for i := 0 to |paths|
        invariant Valid() && Grew()
        invariant errors == [] ==>
                    forall k | 0 <= k < i && world.isDir(paths[k]) ::
                      depth + 1 <= world.maxDepth && (here, world.canonical(paths[k])) in edges
      {
        if world.isDir(paths[i]) {
          ChainGoesOn(world, root, trail, Spot(WalkDirectory(paths[i], context), depth + 1));
          ScanDir(paths[i], context, depth + 1);
        }
      }
    }

    method CountDirectory(dir: Path)
      requires Valid() && ancestors != [] && ancestors[|ancestors| - 1] == world.canonical(dir)
      requires world.canonical(dir) !in read
      modifies this`directories, this`read
      ensures Valid() && read == old(read) + {world.canonical(dir)}
    {
      TopIsOpen(visited, ancestors, finished);
      WalkedReads(world, root, finished, walked, read, world.canonical(dir));
      hide HasCycle, Stacked, IsWalk, AllForward, ReportsCycle, Caused, Walked, Explored, Traced;
      directories := directories + 1;
      read := read + {world.canonical(dir)};
    }
  }

  lemma Popped<T>(s: seq<T>, x: T)
    ensures (s + [x])[..|s|] == s
  {
  }

  lemma TooDeepHere(w: World, root: Project, way: seq<Spot>)
    requires Chain(w, root, way) && Last(way).task.WalkDirectory? && Last(way).depth > w.maxDepth
    ensures Causes(w, root, way, TooDeep(Last(way).task.dir))
  {
    hide Chain;
  }

  lemma CannotReadHere(w: World, root: Project, way: seq<Spot>, ancestors: seq<Path>)
    requires Traced(w, root, way, ancestors) && ancestors != [] && Last(way).task.WalkDirectory?
    ensures w.layout(Last(way).task.dir, Last(way).task.context).Unreadable? ==>
              Causes(w, root, way, CannotRead(Last(way).task.dir))
    ensures ancestors[|ancestors| - 1] == w.canonical(Last(way).task.dir)
  {
    hide Chain;
  }

  /** Meeting a node of the stack again is what a cycle report means. */
  lemma ComingBack(w: World, root: Project, trail: seq<Spot>, ancestors: seq<Path>, spot: Spot)
    requires Chain(w, root, trail + [spot]) && Traced(w, root, trail, ancestors)
    requires w.canonical(Place(spot.task)) in ancestors
    ensures HasCause(w, root, ContainsItself(Place(spot.task)))
  {
    hide Chain;
    var way := trail + [spot];
    var i :| 0 <= i < |ancestors| && ancestors[i] == w.canonical(Place(spot.task));
    assert way[i] == trail[i] && Last(way) == spot;
    assert Causes(w, root, way, ContainsItself(Place(spot.task)));
  }

  lemma ShorterChain(w: World, root: Project, trail: seq<Spot>)
    requires Chain(w, root, trail)
    ensures |trail| > 1 ==> Chain(w, root, trail[..|trail| - 1])
  {
    hide Leads;
  }

  // ---------------------------------------------------------------------------
  // What a scan means
  // ---------------------------------------------------------------------------

  /** Everything in `order` was walked with nothing wrong, and everything it leads to comes strictly before it. */
  ghost predicate FinishOrder(w: World, order: seq<Path>, walked: map<Path, Spot>) {
    && NoDuplicates(order)
    && forall x | x in order ::
         && x in walked && Healthy(w, walked[x])
         && forall y | y in Successors(w, walked[x].task) :: Before(order, y, x)
  }

  /** Every node of the order was met at the end of a way down from the project. */
  ghost predicate AllReached(w: World, root: Project, order: seq<Path>, walked: map<Path, Spot>) {
    forall x | x in order ::
      x in walked && w.canonical(Place(walked[x].task)) == x && Reached(w, root, walked[x])
  }

  /**
   Scans everything a project maps. The scan always ends; it reads no canonical directory twice and leaves the
   stack as it found it. A clean scan yields a finish order of everything it reached, with nothing wrong anywhere; a
   reported self-containment is a real cycle of followed edges. Every error has its cause at the end of a way down
   from the project, so where every way down is harmless the scan is clean.
   */
  method Scan(w: World, project: Project, ghost places: set<Path>) returns (clean: bool, s: Scanner)
    requires Bounded(w, places) && w.canonical(project.path) in places
    ensures s.Valid() && s.world == w && s.ancestors == []
    ensures clean <==> s.errors == []
    ensures clean ==> FinishOrder(w, s.finished, s.walked) && w.canonical(project.path) in s.finished
    ensures AllReached(w, project, s.finished, s.walked)
    ensures ReportsCycle(s.errors) ==> HasCycle(s.edges)
    ensures forall e | e in s.errors :: HasCause(w, project, e)
    ensures (forall trail | Chain(w, project, trail) :: Harmless(w, trail)) ==> clean
    ensures s.directories == |s.read|
    ensures forall d :: d in s.read <==> d in s.finished && Reads(w, s.walked[d].task)
  {
    s := new Scanner(w, project, places);
    assert [] + [Spot(WalkProject(project), 0)] == [Spot(WalkProject(project), 0)];
    s.ScanProject(project, 0);
    clean := s.errors == [];
    assert |s.errors| > 0 ==> s.errors[0] in s.errors;
    if forall trail | Chain(w, project, trail) :: Harmless(w, trail) {
      forall e
        ensures !HasCause(w, project, e)
      {
        HarmlessCausesNothing(w, project, e);
      }
    }
  }

  /** A walk along successors. */
  ghost predicate Follows(w: World, walked: map<Path, Spot>, p: seq<Path>) {
    forall i | 0 <= i < |p| - 1 :: p[i] in walked && p[i + 1] in Successors(w, walked[p[i]].task)
  }

  /** After a clean scan, whatever can be reached was entered, and finished before where it was reached from. */
  lemma {:induction false} CleanScansReachEverything(w: World, order: seq<Path>, walked: map<Path, Spot>, p: seq<Path>)
    requires FinishOrder(w, order, walked) && Follows(w, walked, p) && |p| >= 2 && p[0] in order
    ensures p[|p| - 1] in order && Before(order, p[|p| - 1], p[0])
    decreases |p|
  {
    var n := |p| - 1;
    if n == 1 {
      assert p[1] in Successors(w, walked[p[0]].task);
    } else {
      var q := p[..n];
      assert forall i | 0 <= i < |q| :: q[i] == p[i];
      CleanScansReachEverything(w, order, walked, q);
      assert p[n - 1] in walked && p[(n - 1) + 1] in Successors(w, walked[p[n - 1]].task);
    }
  }

  /** After a clean scan nothing that was reached leads back to itself. */
  lemma CleanScansAreAcyclic(w: World, order: seq<Path>, walked: map<Path, Spot>, p: seq<Path>)
    requires FinishOrder(w, order, walked) && Follows(w, walked, p) && |p| >= 2 && p[0] in order
    ensures p[0] != p[|p| - 1]
  {
    CleanScansReachEverything(w, order, walked, p);
  }
}

// Which binaries an application bundle needs, and where they go.
module DependencyGraph {
  import opened Optional
  import opened Paths

  // What a binary says of itself.
  datatype Info = Info(architecture: string, tooNew: bool, mentionsFltk: bool, kind: nat,
    rpaths: seq<string>, loads: seq<string>)

  // Every path that is a file, with the resolved path it stands for, and the binaries.
  datatype Disk = Disk(files: map<Path, Path>, binaries: map<Path, Info>)

  datatype Dependency = System(value: string) | File(path: Path)

  datatype Node = Node(target: Path, edges: map<string, Dependency>)

  datatype Work = Work(source: Path, inherited: seq<Path>)

  datatype Error =
    | NotABinary(source: Path)
    | Refused(source: Path)
    | Unsupported(source: Path)
    | Collision(source: Path, other: Path)
    | Unresolved(source: Path, rpaths: seq<Path>, value: string)
    | ContextDependent(source: Path, inherited: seq<Path>)

  datatype Result<T> = Ok(value: T) | Err(error: Error)

  const DYLIB: nat := 6

  const LOADER: string := "@loader_path/"
  const EXECUTABLE: string := "@executable_path/"
  const RPATH: string := "@rpath/"

  function Parent(p: Path): Path {
    if p == [] then [] else p[..|p| - 1]
  }

  function Last(p: Path): string {
    if p == [] then "" else p[|p| - 1]
  }

  // base / value: an absolute value stands alone.
  function Join(base: Path, value: string): Path {
    if "/" <= value then Parse(value) else base + Parse(value)
  }

  function Expand(value: string, loader: Path, executable: Path): Option<Path> {
    if LOADER <= value then Some(Join(Parent(loader), value[|LOADER|..]))
    else if EXECUTABLE <= value then Some(Join(Parent(executable), value[|EXECUTABLE|..]))
    else if "/" <= value then Some(Parse(value))
    else None
  }

  function ExpandAll(values: seq<string>, loader: Path, executable: Path): seq<Path> {
    if values == [] then []
    else
      var rest := ExpandAll(values[1..], loader, executable);
      match Expand(values[0], loader, executable)
      case Some(p) => [p] + rest
      case None => rest
  }

  // Exactly two leading slashes are another root.
  predicate SystemPath(value: string) {
    && "/" <= value && !("//" <= value && !("///" <= value))
    && (["usr", "lib"] <= Normal(Parse(value)) || ["System", "Library"] <= Normal(Parse(value)))
  }

  // ---- Resolving one load ----

  function Candidates(value: string, loader: Path, executable: Path, rpaths: seq<Path>): seq<Path> {
    if RPATH <= value then
      seq(|rpaths|, i requires 0 <= i < |rpaths| => Join(rpaths[i], value[|RPATH|..]))
    else
      match Expand(value, loader, executable)
      case Some(p) => [p]
      case None => []
  }

  function Found(disk: Disk, candidates: seq<Path>): set<Path> {
    set i | 0 <= i < |candidates| && candidates[i] in disk.files :: disk.files[candidates[i]]
  }

  // The dependency that a load stands for.
  predicate Resolves(disk: Disk, value: string, loader: Path, executable: Path, rpaths: seq<Path>, d: Dependency) {
    if SystemPath(value) then d == System(value)
    else d.File? && Found(disk, Candidates(value, loader, executable, rpaths)) == {d.path}
  }

  lemma ResolvesOnce(disk: Disk, value: string, loader: Path, executable: Path, rpaths: seq<Path>,
      d: Dependency, e: Dependency)
    requires Resolves(disk, value, loader, executable, rpaths, d)
    requires Resolves(disk, value, loader, executable, rpaths, e)
    ensures d == e
  {
    if !SystemPath(value) {
      assert d.path in Found(disk, Candidates(value, loader, executable, rpaths));
    }
  }

  method ResolveLoad(disk: Disk, value: string, loader: Path, executable: Path, rpaths: seq<Path>)
    returns (r: Result<Dependency>)
    ensures r.Ok? ==> Resolves(disk, value, loader, executable, rpaths, r.value)
    ensures r.Err? <==> !SystemPath(value) && |Found(disk, Candidates(value, loader, executable, rpaths))| != 1
    ensures r.Err? ==> r.error == Unresolved(loader, rpaths, value)
  {
    if SystemPath(value) {
      return Ok(System(value));
    }
    var candidates := Candidates(value, loader, executable, rpaths);
    var found: set<Path> := {};
    for i := 0 to |candidates|
      invariant found == Found(disk, candidates[..i])
    {
      FoundNext(disk, candidates, i);
      if candidates[i] in disk.files {
        found := found + {disk.files[candidates[i]]};
      }
    }
    assert candidates[..|candidates|] == candidates;
    if |found| != 1 {
      return Err(Unresolved(loader, rpaths, value));
    }
    var p :| p in found;
    OnlyOne(found, p);
    return Ok(File(p));
  }

  lemma OnlyOne(s: set<Path>, p: Path)
    requires |s| == 1 && p in s
    ensures s == {p}
  {
    assert |s - {p}| == 0;
  }

  lemma FoundNext(disk: Disk, candidates: seq<Path>, i: nat)
    requires i < |candidates|
    ensures Found(disk, candidates[..i + 1]) ==
      Found(disk, candidates[..i]) + if candidates[i] in disk.files then {disk.files[candidates[i]]} else {}
  {
    var all, some := candidates[..i + 1], candidates[..i];
    forall x ensures x in Found(disk, all) <==>
      x in Found(disk, some) || (candidates[i] in disk.files && x == disk.files[candidates[i]])
    {
      if x in Found(disk, some) {
        var k :| 0 <= k < |some| && some[k] in disk.files && disk.files[some[k]] == x;
        assert all[k] == some[k];
      }
      if candidates[i] in disk.files && x == disk.files[candidates[i]] {
        assert all[i] == candidates[i];
      }
    }
  }

  // ---- The loads of one binary ----

  // Its own run paths come before those it inherits.
  function Rpaths(disk: Disk, executable: Path, source: Path, inherited: seq<Path>): seq<Path>
    requires source in disk.binaries
  {
    ExpandAll(disk.binaries[source].rpaths, source, executable) + inherited
  }

  // Every load and nothing else, each resolved in this context.
  ghost predicate Edges(disk: Disk, executable: Path, source: Path, inherited: seq<Path>,
      edges: map<string, Dependency>)
  {
    && source in disk.binaries
    && (forall v :: v in edges <==> v in disk.binaries[source].loads)
    && (forall v :: v in edges ==>
          Resolves(disk, v, source, executable, Rpaths(disk, executable, source, inherited), edges[v]))
  }

  lemma EdgesOnce(disk: Disk, executable: Path, source: Path, inherited: seq<Path>,
      a: map<string, Dependency>, b: map<string, Dependency>)
    requires Edges(disk, executable, source, inherited, a) && Edges(disk, executable, source, inherited, b)
    ensures a == b
  {
    forall v | v in a ensures v in b && a[v] == b[v] {
      ResolvesOnce(disk, v, source, executable, Rpaths(disk, executable, source, inherited), a[v], b[v]);
    }
    assert a.Keys == b.Keys;
  }

  // A load that in this context stands for no file or for several.
  ghost predicate NotResolved(disk: Disk, executable: Path, source: Path, inherited: seq<Path>, e: Error) {
    && source in disk.binaries && e.Unresolved? && e.source == source
    && e.rpaths == Rpaths(disk, executable, source, inherited)
    && e.value in disk.binaries[source].loads && !SystemPath(e.value)
    && |Found(disk, Candidates(e.value, source, executable, e.rpaths))| != 1
  }

  method FindEdges(disk: Disk, executable: Path, source: Path, inherited: seq<Path>)
    returns (r: Result<map<string, Dependency>>, order: seq<string>)
    requires source in disk.binaries
    ensures r.Ok? ==> Edges(disk, executable, source, inherited, r.value)
    ensures r.Ok? ==> forall v :: v in order <==> v in r.value
    ensures r.Err? ==> NotResolved(disk, executable, source, inherited, r.error)
  {
    var loads, rpaths := disk.binaries[source].loads, Rpaths(disk, executable, source, inherited);
    var edges: map<string, Dependency> := map[];
    order := [];
    for i := 0 to |loads|
      invariant forall v :: v in edges <==> v in loads[..i]
      invariant forall v :: v in order <==> v in edges
      invariant forall v :: v in edges ==> Resolves(disk, v, source, executable, rpaths, edges[v])
    {
      var resolved := ResolveLoad(disk, loads[i], source, executable, rpaths);
      if resolved.Err? {
        return Err(resolved.error), order;
      }
      assert loads[..i + 1] == loads[..i] + [loads[i]];
      if loads[i] !in edges {
        order := order + [loads[i]];
      }
      edges := edges[loads[i] := resolved.value];
    }
    assert loads[..|loads|] == loads;
    return Ok(edges), order;
  }

  // ---- Targets ----

  predicate Within(app: Path, p: Path) { app <= p }

  predicate Supported(disk: Disk, app: Path, source: Path) {
    source in disk.binaries &&
    (Within(app, source) || (disk.binaries[source].kind == DYLIB && !InFramework(source)))
  }

  predicate Mentions(c: string, word: string) {
    exists i :: 0 <= i <= |c| && word <= c[i..]
  }

  predicate InFramework(p: Path) {
    exists i :: 0 <= i < |p| && Mentions(p[i], ".framework")
  }

  function Target(app: Path, source: Path): Path {
    if Within(app, source) then source[|app|..] else ["Contents", "Frameworks", Last(source)]
  }

  predicate Acceptable(disk: Disk, executable: Path, source: Path) {
    && source in disk.binaries && executable in disk.binaries
    && disk.binaries[source].architecture == disk.binaries[executable].architecture
    && !disk.binaries[source].tooNew && !disk.binaries[source].mentionsFltk
  }

  // ---- What is met by following loads ----

  // Binary a loads that work, in the context a gives.
  ghost predicate Loads(disk: Disk, executable: Path, a: Work, w: Work) {
    && a.source in disk.binaries
    && w.inherited == Rpaths(disk, executable, a.source, a.inherited)
    && exists v :: v in disk.binaries[a.source].loads
         && Resolves(disk, v, a.source, executable, w.inherited, File(w.source))
  }

  ghost predicate Chain(disk: Disk, executable: Path, start: seq<Work>, chain: seq<Work>) {
    && chain != [] && chain[0] in start
    && forall i, j {:trigger chain[i], chain[j]} :: 0 <= i && j == i + 1 < |chain| ==>
         Loads(disk, executable, chain[i], chain[j])
  }

  // Some chain of loads from the start leads to this binary in this context.
  ghost predicate Arises(disk: Disk, executable: Path, start: seq<Work>, w: Work) {
    exists chain :: Chain(disk, executable, start, chain) && chain[|chain| - 1] == w
  }

  lemma StartArises(disk: Disk, executable: Path, start: seq<Work>, w: Work)
    requires w in start
    ensures Arises(disk, executable, start, w)
  {
    assert Chain(disk, executable, start, [w]);
  }

  lemma LoadedArises(disk: Disk, executable: Path, start: seq<Work>, a: Work, w: Work)
    requires Arises(disk, executable, start, a) && Loads(disk, executable, a, w)
    ensures Arises(disk, executable, start, w)
  {
    hide Loads;
    var chain :| Chain(disk, executable, start, chain) && chain[|chain| - 1] == a;
    assert Chain(disk, executable, start, chain + [w]);
  }

  // ---- The graph ----

  type Graph = map<Path, Node>

  // The node of a binary that was first met in this context.
  ghost predicate NodeOk(disk: Disk, app: Path, executable: Path, source: Path, inherited: seq<Path>, n: Node) {
    && Acceptable(disk, executable, source) && Supported(disk, app, source)
    && n.target == Target(app, source)
    && Edges(disk, executable, source, inherited, n.edges)
  }

  // A binary has its node, with the same edges when it is met in this context.
  ghost predicate Met(disk: Disk, executable: Path, nodes: Graph, w: Work) {
    w.source in nodes && Edges(disk, executable, w.source, w.inherited, nodes[w.source].edges)
  }

  ghost predicate NodesOk(disk: Disk, app: Path, executable: Path, nodes: Graph, contexts: map<Path, seq<Path>>) {
    && nodes.Keys == contexts.Keys
    && (forall s :: s in nodes ==> NodeOk(disk, app, executable, s, contexts[s], nodes[s]))
  }

  // What one binary's edge asks for.
  function Asks(disk: Disk, executable: Path, s: Path, inherited: seq<Path>, d: Dependency): Work
    requires s in disk.binaries && d.File?
  {
    Work(d.path, Rpaths(disk, executable, s, inherited))
  }

  // Everything asked for is met or still to come.
  ghost predicate Asked(disk: Disk, executable: Path, nodes: Graph, contexts: map<Path, seq<Path>>, pending: seq<Work>)
  {
    forall s, v ::
      (s in nodes && s in contexts && s in disk.binaries && v in nodes[s].edges && nodes[s].edges[v].File?) ==>
      var w := Asks(disk, executable, s, contexts[s], nodes[s].edges[v]);
      w in pending || Met(disk, executable, nodes, w)
  }

  ghost predicate Started(disk: Disk, executable: Path, nodes: Graph, start: seq<Work>, pending: seq<Work>) {
    forall w :: w in start ==> w in pending || Met(disk, executable, nodes, w)
  }

  // A set that holds the starting points and whatever its members load.
  ghost predicate Closed(nodes: Graph, start: seq<Work>, whole: set<Path>) {
    && (forall w :: w in start ==> w.source in whole)
    && (forall s, v :: s in nodes && s in whole && v in nodes[s].edges && nodes[s].edges[v].File? ==>
          nodes[s].edges[v].path in whole)
  }

  // Nothing but what is needed.
  ghost predicate Needed(nodes: Graph, start: seq<Work>, pending: seq<Work>) {
    forall whole :: Closed(nodes, start, whole) ==>
      nodes.Keys <= whole && forall w :: w in pending ==> w.source in whole
  }

  ghost predicate Injective(nodes: Graph) {
    forall s, t :: s in nodes && t in nodes && nodes[s].target == nodes[t].target ==> s == t
  }

  ghost predicate Complete(disk: Disk, app: Path, executable: Path, start: seq<Work>, nodes: Graph,
      contexts: map<Path, seq<Path>>)
  {
    && NodesOk(disk, app, executable, nodes, contexts)
    && Asked(disk, executable, nodes, contexts, [])
    && Started(disk, executable, nodes, start, [])
    && Needed(nodes, start, [])
    && Injective(nodes)
  }

  function Start(disk: Disk, executable: Path, initial: seq<Path>): seq<Work>
    requires executable in disk.binaries
  {
    var rpaths := ExpandAll(disk.binaries[executable].rpaths, executable, executable);
    seq(|initial|, i requires 0 <= i < |initial| => Work(initial[i], rpaths))
  }

  // What a new node adds to the work: its files, in the order of its loads.
  function Children(edges: map<string, Dependency>, order: seq<string>, rpaths: seq<Path>): (r: seq<Work>)
    requires forall v :: v in order ==> v in edges
    ensures forall w :: w in r <==> exists v :: v in order && edges[v] == File(w.source) && w.inherited == rpaths
  {
    if order == [] then []
    else
      var rest := Children(edges, order[1..], rpaths);
      assert forall v :: v in order <==> v == order[0] || v in order[1..];
      if edges[order[0]].File? then [Work(edges[order[0]].path, rpaths)] + rest else rest
  }

  // What each round of the work keeps.
  ghost predicate Progress(disk: Disk, app: Path, executable: Path, start: seq<Work>, nodes: Graph,
      contexts: map<Path, seq<Path>>, names: map<Path, Path>, pending: seq<Work>)
  {
    && NodesOk(disk, app, executable, nodes, contexts)
    && Named(app, nodes, names)
    && Asked(disk, executable, nodes, contexts, pending)
    && Started(disk, executable, nodes, start, pending)
    && Needed(nodes, start, pending)
    && Grounded(disk, executable, start, contexts, pending)
  }

  // Every context in which a binary was first met, and everything still to come, arises.
  ghost predicate Grounded(disk: Disk, executable: Path, start: seq<Work>, contexts: map<Path, seq<Path>>,
      pending: seq<Work>)
  {
    && (forall s :: s in contexts ==> Arises(disk, executable, start, Work(s, contexts[s])))
    && (forall w :: w in pending ==> Arises(disk, executable, start, w))
  }

  // What may be wrong with the piece of work met next, given the graph so far.
  ghost predicate Wrong(disk: Disk, app: Path, executable: Path, nodes: Graph, contexts: map<Path, seq<Path>>,
      names: map<Path, Path>, w: Work, e: Error)
  {
    e.source == w.source &&
    match e
    case NotABinary(s) => s !in disk.binaries
    case Refused(s) => s in disk.binaries && !Acceptable(disk, executable, s)
    case Unsupported(s) =>
      s in disk.binaries && !Within(app, s) && (disk.binaries[s].kind != DYLIB || InFramework(s))
    case Collision(s, t) => s != t && Target(app, s) in names && names[Target(app, s)] == t
    case Unresolved(s, _, _) => NotResolved(disk, executable, s, w.inherited, e)
    case ContextDependent(s, inherited) =>
      && inherited == w.inherited && s in nodes && s in contexts
      && exists edges :: Edges(disk, executable, s, inherited, edges) && edges != nodes[s].edges
  }

  // Every error names what is wrong with what some round of the work meets.
  ghost predicate Justified(disk: Disk, app: Path, executable: Path, start: seq<Work>, e: Error) {
    exists nodes, contexts, names, pending: seq<Work> ::
      Progress(disk, app, executable, start, nodes, contexts, names, pending)
      && pending != [] && Wrong(disk, app, executable, nodes, contexts, names, pending[|pending| - 1], e)
  }

  // Nothing that arises is unfit, and no two things that arise disagree.
  ghost predicate Faultless(disk: Disk, app: Path, executable: Path, start: seq<Work>) {
    && (forall w :: Arises(disk, executable, start, w) ==> Fit(disk, app, executable, w))
    && (forall w, x :: Arises(disk, executable, start, w) && Arises(disk, executable, start, x) ==>
          Agree(disk, app, executable, w, x))
  }

  ghost predicate Fit(disk: Disk, app: Path, executable: Path, w: Work) {
    && Acceptable(disk, executable, w.source) && Supported(disk, app, w.source)
    && exists edges :: Edges(disk, executable, w.source, w.inherited, edges)
  }

  ghost predicate Agree(disk: Disk, app: Path, executable: Path, w: Work, x: Work) {
    && (Target(app, w.source) == Target(app, x.source) ==> w.source == x.source)
    && (w.source == x.source ==> forall a, b ::
          (Edges(disk, executable, w.source, w.inherited, a) && Edges(disk, executable, x.source, x.inherited, b)) ==>
            a == b)
  }

  // No error is justified where nothing is wrong.
  lemma FaultlessHasNoError(disk: Disk, app: Path, executable: Path, start: seq<Work>, e: Error)
    requires Justified(disk, app, executable, start, e)
    ensures !Faultless(disk, app, executable, start)
  {
    var nodes, contexts, names, pending: seq<Work> :|
      Progress(disk, app, executable, start, nodes, contexts, names, pending)
      && pending != [] && Wrong(disk, app, executable, nodes, contexts, names, pending[|pending| - 1], e);
    var w := pending[|pending| - 1];
    hide Progress, Wrong, Arises, Faultless;
    WorkArises(disk, app, executable, start, nodes, contexts, names, pending);
    if Faultless(disk, app, executable, start) {
      FaultlessAt(disk, app, executable, start, w, w);
      if e.Collision? || e.ContextDependent? {
        var x := Disagrees(disk, app, executable, start, nodes, contexts, names, pending, e);
        FaultlessAt(disk, app, executable, start, w, x);
      } else {
        FitIsRight(disk, app, executable, nodes, contexts, names, w, e);
      }
    }
  }

  lemma WorkArises(disk: Disk, app: Path, executable: Path, start: seq<Work>, nodes: Graph,
      contexts: map<Path, seq<Path>>, names: map<Path, Path>, pending: seq<Work>)
    requires Progress(disk, app, executable, start, nodes, contexts, names, pending) && pending != []
    ensures Arises(disk, executable, start, pending[|pending| - 1])
  {
    hide NodesOk, Named, Asked, Started, Needed, Arises;
  }

  // The binary that the one met next collides with, or itself where it was first met.
  lemma Disagrees(disk: Disk, app: Path, executable: Path, start: seq<Work>, nodes: Graph,
      contexts: map<Path, seq<Path>>, names: map<Path, Path>, pending: seq<Work>, e: Error) returns (x: Work)
    requires Progress(disk, app, executable, start, nodes, contexts, names, pending) && pending != []
    requires Wrong(disk, app, executable, nodes, contexts, names, pending[|pending| - 1], e)
    requires e.Collision? || e.ContextDependent?
    ensures Arises(disk, executable, start, x) && !Agree(disk, app, executable, pending[|pending| - 1], x)
  {
    hide Asked, Started, Needed, Arises, Target, Edges, Resolves;
    var s := if e.Collision? then e.other else e.source;
    x := Work(s, contexts[s]);
    assert NodeOk(disk, app, executable, s, contexts[s], nodes[s]);
  }

  lemma FitIsRight(disk: Disk, app: Path, executable: Path, nodes: Graph, contexts: map<Path, seq<Path>>,
      names: map<Path, Path>, w: Work, e: Error)
    requires Fit(disk, app, executable, w) && !e.Collision? && !e.ContextDependent?
    ensures !Wrong(disk, app, executable, nodes, contexts, names, w, e)
  {
    hide InFramework, Candidates;
  }

  lemma FaultlessAt(disk: Disk, app: Path, executable: Path, start: seq<Work>, w: Work, x: Work)
    requires Faultless(disk, app, executable, start)
    requires Arises(disk, executable, start, w) && Arises(disk, executable, start, x)
    ensures Fit(disk, app, executable, w) && Agree(disk, app, executable, w, x)
  {
  }

  // May this binary be packaged, and is its target free?
  method CheckSource(disk: Disk, app: Path, executable: Path, source: Path, names: map<Path, Path>)
    returns (failure: Option<Error>)
    requires executable in disk.binaries && forall t :: t in names ==> Target(app, names[t]) == t
    ensures failure.None? <==>
      Acceptable(disk, executable, source) && Supported(disk, app, source)
      && (Target(app, source) in names ==> names[Target(app, source)] == source)
    ensures failure.None? ==> source in disk.binaries
    ensures failure.Some? ==> forall nodes, contexts, inherited ::
      Wrong(disk, app, executable, nodes, contexts, names, Work(source, inherited), failure.value)
  {
    hide Mentions, InFramework;
    if source !in disk.binaries {
      return Some(NotABinary(source));
    }
    if !Acceptable(disk, executable, source) {
      return Some(Refused(source));
    }
    if !Within(app, source) && (disk.binaries[source].kind != DYLIB || InFramework(source)) {
      return Some(Unsupported(source));
    }
    var target := Target(app, source);
    if target in names && names[target] != source {
      return Some(Collision(source, names[target]));
    }
    return None;
  }

  method MakeGraph(disk: Disk, app: Path, executable: Path, initial: seq<Path>)
    returns (r: Result<Graph>, ghost contexts: map<Path, seq<Path>>)
    ensures r.Ok? ==> executable in disk.binaries
    ensures r.Ok? ==> Complete(disk, app, executable, Start(disk, executable, initial), r.value, contexts)
    ensures executable !in disk.binaries ==> r == Err(NotABinary(executable))
    ensures r.Err? && executable in disk.binaries ==>
      Justified(disk, app, executable, Start(disk, executable, initial), r.error)
    ensures executable in disk.binaries && Faultless(disk, app, executable, Start(disk, executable, initial)) ==> r.Ok?
  {
    hide Progress, Left, Complete, Acceptable, Edges, Supported, Target, Rpaths, Children, Start;
    hide Justified, Wrong, NotResolved, Faultless;
    contexts := map[];
    if executable !in disk.binaries {
      return Err(NotABinary(executable)), contexts;
    }
    var start := Start(disk, executable, initial);
    var pending := start;
    var nodes: Graph := map[];
    var names: map<Path, Path> := map[];
    NothingYet(disk, app, executable, start);
    while pending != []
      invariant Progress(disk, app, executable, start, nodes, contexts, names, pending)
      decreases Left(disk, nodes), |pending|
    {
      var last := |pending| - 1;
      var work := pending[last];
      var source := work.source;
      NamesLeadBack(disk, app, executable, start, nodes, contexts, names, pending);
      var failure := CheckSource(disk, app, executable, source, names);
      if failure.Some? {
        assert work == Work(source, work.inherited);
        IsJustified(disk, app, executable, start, nodes, contexts, names, pending, failure.value);
        return Err(failure.value), contexts;
      }
      var target := Target(app, source);
      var found, order := FindEdges(disk, executable, source, work.inherited);
      if found.Err? {
        JustUnresolved(disk, app, executable, nodes, contexts, names, work, found.error);
        IsJustified(disk, app, executable, start, nodes, contexts, names, pending, found.error);
        return Err(found.error), contexts;
      }
      var edges := found.value;
      if source in nodes {
        if edges != nodes[source].edges {
          JustContext(disk, app, executable, start, nodes, contexts, names, pending, edges);
          IsJustified(disk, app, executable, start, nodes, contexts, names, pending,
            ContextDependent(source, work.inherited));
          return Err(ContextDependent(source, work.inherited)), contexts;
        }
        OneLess(disk, app, executable, start, nodes, contexts, names, pending, edges);
        names := names[target := source];
        pending := pending[..last];
      } else {
        var children := Children(edges, order, Rpaths(disk, executable, source, work.inherited));
        OneMore(disk, app, executable, start, nodes, contexts, names, pending, edges, order);
        FewerLeft(disk, nodes, source, Node(target, edges));
        names := names[target := source];
        nodes := nodes[source := Node(target, edges)];
        contexts := contexts[source := work.inherited];
        pending := pending[..last] + children;
      }
    }
    Finished(disk, app, executable, start, nodes, contexts, names);
    return Ok(nodes), contexts;
  }

  // The target of each node leads back to it.
  ghost predicate Named(app: Path, nodes: Graph, names: map<Path, Path>) {
    && (forall s :: s in nodes ==> nodes[s].target in names && names[nodes[s].target] == s)
    && (forall t :: t in names ==> Target(app, names[t]) == t && names[t] in nodes)
    && (forall s :: s in nodes ==> nodes[s].target == Target(app, s))
  }

  lemma NamedNext(app: Path, nodes: Graph, names: map<Path, Path>, source: Path)
    requires Named(app, nodes, names)
    requires Target(app, source) in names ==> names[Target(app, source)] == source
    ensures forall edges ::
      Named(app, nodes[source := Node(Target(app, source), edges)], names[Target(app, source) := source])
    ensures source in nodes ==> Named(app, nodes, names[Target(app, source) := source])
  {
    hide Target;
  }

  lemma NamedInjective(app: Path, nodes: Graph, names: map<Path, Path>)
    requires Named(app, nodes, names)
    ensures Injective(nodes)
  {
  }

  lemma IsJustified(disk: Disk, app: Path, executable: Path, start: seq<Work>, nodes: Graph,
      contexts: map<Path, seq<Path>>, names: map<Path, Path>, pending: seq<Work>, e: Error)
    requires Progress(disk, app, executable, start, nodes, contexts, names, pending) && pending != []
    requires Wrong(disk, app, executable, nodes, contexts, names, pending[|pending| - 1], e)
    ensures Justified(disk, app, executable, start, e) && !Faultless(disk, app, executable, start)
  {
    hide Progress, Wrong, Faultless;
    FaultlessHasNoError(disk, app, executable, start, e);
  }

  lemma JustUnresolved(disk: Disk, app: Path, executable: Path, nodes: Graph, contexts: map<Path, seq<Path>>,
      names: map<Path, Path>, w: Work, e: Error)
    requires NotResolved(disk, executable, w.source, w.inherited, e)
    ensures Wrong(disk, app, executable, nodes, contexts, names, w, e)
  {
  }

  lemma NothingYet(disk: Disk, app: Path, executable: Path, start: seq<Work>)
    ensures Progress(disk, app, executable, start, map[], map[], map[], start)
  {
    hide Arises;
    forall w | w in start ensures Arises(disk, executable, start, w) {
      StartArises(disk, executable, start, w);
    }
  }

  lemma NamesLeadBack(disk: Disk, app: Path, executable: Path, start: seq<Work>, nodes: Graph,
      contexts: map<Path, seq<Path>>, names: map<Path, Path>, pending: seq<Work>)
    requires Progress(disk, app, executable, start, nodes, contexts, names, pending)
    ensures forall t :: t in names ==> Target(app, names[t]) == t
  {
  }

  lemma JustContext(disk: Disk, app: Path, executable: Path, start: seq<Work>, nodes: Graph,
      contexts: map<Path, seq<Path>>, names: map<Path, Path>, pending: seq<Work>, edges: map<string, Dependency>)
    requires Progress(disk, app, executable, start, nodes, contexts, names, pending) && pending != []
    requires var w := pending[|pending| - 1];
      w.source in nodes && nodes[w.source].edges != edges && Edges(disk, executable, w.source, w.inherited, edges)
    ensures var w := pending[|pending| - 1];
      Wrong(disk, app, executable, nodes, contexts, names, w, ContextDependent(w.source, w.inherited))
  {
    hide Edges, Asked, Started, Needed, Named, Grounded;
  }

  lemma Finished(disk: Disk, app: Path, executable: Path, start: seq<Work>, nodes: Graph,
      contexts: map<Path, seq<Path>>, names: map<Path, Path>)
    requires Progress(disk, app, executable, start, nodes, contexts, names, [])
    ensures Complete(disk, app, executable, start, nodes, contexts)
  {
    hide NodesOk, Asked, Started, Needed, Grounded;
    NamedInjective(app, nodes, names);
  }

  lemma OneLess(disk: Disk, app: Path, executable: Path, start: seq<Work>, nodes: Graph,
      contexts: map<Path, seq<Path>>, names: map<Path, Path>, pending: seq<Work>, edges: map<string, Dependency>)
    requires Progress(disk, app, executable, start, nodes, contexts, names, pending) && pending != []
    requires var w := pending[|pending| - 1];
      && w.source in nodes && nodes[w.source].edges == edges
      && Edges(disk, executable, w.source, w.inherited, edges)
      && (Target(app, w.source) in names ==> names[Target(app, w.source)] == w.source)
    ensures var w := pending[|pending| - 1];
      Progress(disk, app, executable, start, nodes, contexts, names[Target(app, w.source) := w.source],
        pending[..|pending| - 1])
  {
    hide NodesOk, Asked, Started, Needed, Named, Edges, Arises;
    LastOf(pending);
    NamedNext(app, nodes, names, pending[|pending| - 1].source);
    MetAgain(disk, app, executable, nodes, contexts, start, pending);
  }

  lemma OneMore(disk: Disk, app: Path, executable: Path, start: seq<Work>, nodes: Graph,
      contexts: map<Path, seq<Path>>, names: map<Path, Path>, pending: seq<Work>, edges: map<string, Dependency>,
      order: seq<string>)
    requires Progress(disk, app, executable, start, nodes, contexts, names, pending) && pending != []
    requires var w := pending[|pending| - 1];
      && w.source !in nodes && Acceptable(disk, executable, w.source) && Supported(disk, app, w.source)
      && Edges(disk, executable, w.source, w.inherited, edges)
      && (Target(app, w.source) in names ==> names[Target(app, w.source)] == w.source)
    requires forall v :: v in order <==> v in edges
    ensures var w := pending[|pending| - 1];
      Progress(disk, app, executable, start, nodes[w.source := Node(Target(app, w.source), edges)],
        contexts[w.source := w.inherited], names[Target(app, w.source) := w.source],
        pending[..|pending| - 1] + Children(edges, order, Rpaths(disk, executable, w.source, w.inherited)))
  {
    hide NodesOk, Asked, Started, Needed, Named, Edges, Acceptable, Supported, Target, Rpaths, Children, Grounded;
    GroundedNext(disk, executable, start, contexts, pending, edges, order);
    NamedNext(app, nodes, names, pending[|pending| - 1].source);
    NewNode(disk, app, executable, nodes, contexts, start, pending, edges, order);
  }

  // What a new node loads arises too.
  lemma GroundedNext(disk: Disk, executable: Path, start: seq<Work>, contexts: map<Path, seq<Path>>,
      pending: seq<Work>, edges: map<string, Dependency>, order: seq<string>)
    requires Grounded(disk, executable, start, contexts, pending) && pending != []
    requires var w := pending[|pending| - 1]; Edges(disk, executable, w.source, w.inherited, edges)
    requires forall v :: v in order <==> v in edges
    ensures var w := pending[|pending| - 1];
      Grounded(disk, executable, start, contexts[w.source := w.inherited],
        pending[..|pending| - 1] + Children(edges, order, Rpaths(disk, executable, w.source, w.inherited)))
  {
    hide Arises;
    LastOf(pending);
    var w := pending[|pending| - 1];
    var children := Children(edges, order, Rpaths(disk, executable, w.source, w.inherited));
    assert w == Work(w.source, w.inherited);
    forall x | x in children ensures Arises(disk, executable, start, x) {
      var v :| v in order && edges[v] == File(x.source);
      assert Loads(disk, executable, w, x);
      LoadedArises(disk, executable, start, w, x);
    }
  }

  // The binaries that have no node yet.
  ghost function Left(disk: Disk, nodes: Graph): nat {
    |disk.binaries.Keys - nodes.Keys|
  }

  lemma FewerLeft(disk: Disk, nodes: Graph, source: Path, node: Node)
    requires source in disk.binaries && source !in nodes
    ensures Left(disk, nodes[source := node]) < Left(disk, nodes)
  {
    var all, done := disk.binaries.Keys, nodes.Keys;
    assert nodes[source := node].Keys == done + {source};
    assert all - done == (all - (done + {source})) + {source};
  }

  lemma LastOf(pending: seq<Work>)
    requires pending != []
    ensures forall w :: w in pending <==> w == pending[|pending| - 1] || w in pending[..|pending| - 1]
  {
    assert pending == pending[..|pending| - 1] + [pending[|pending| - 1]];
  }

  // Met again in a context that agrees: one piece of work less.
  lemma MetAgain(disk: Disk, app: Path, executable: Path, nodes: Graph, contexts: map<Path, seq<Path>>,
      start: seq<Work>, pending: seq<Work>)
    requires NodesOk(disk, app, executable, nodes, contexts) && pending != []
    requires Asked(disk, executable, nodes, contexts, pending) && Started(disk, executable, nodes, start, pending)
    requires Needed(nodes, start, pending)
    requires Met(disk, executable, nodes, pending[|pending| - 1])
    ensures Asked(disk, executable, nodes, contexts, pending[..|pending| - 1])
    ensures Started(disk, executable, nodes, start, pending[..|pending| - 1])
    ensures Needed(nodes, start, pending[..|pending| - 1])
  {
    hide Met, NodeOk;
    LastOf(pending);
  }

  lemma NewNode(disk: Disk, app: Path, executable: Path, nodes: Graph, contexts: map<Path, seq<Path>>,
      start: seq<Work>, pending: seq<Work>, edges: map<string, Dependency>, order: seq<string>)
    requires NodesOk(disk, app, executable, nodes, contexts) && pending != []
    requires Asked(disk, executable, nodes, contexts, pending) && Started(disk, executable, nodes, start, pending)
    requires Needed(nodes, start, pending)
    requires pending[|pending| - 1].source !in nodes
    requires var work := pending[|pending| - 1];
      NodeOk(disk, app, executable, work.source, work.inherited, Node(Target(app, work.source), edges))
    requires forall v :: v in order <==> v in edges
    ensures var work := pending[|pending| - 1];
      var next := nodes[work.source := Node(Target(app, work.source), edges)];
      var after := contexts[work.source := work.inherited];
      var left := pending[..|pending| - 1]
        + Children(edges, order, Rpaths(disk, executable, work.source, work.inherited));
      && NodesOk(disk, app, executable, next, after)
      && Asked(disk, executable, next, after, left)
      && Started(disk, executable, next, start, left)
      && Needed(next, start, left)
  {
    var work := pending[|pending| - 1];
    var source := work.source;
    var next := nodes[source := Node(Target(app, source), edges)];
    var rpaths := Rpaths(disk, executable, source, work.inherited);
    var left := pending[..|pending| - 1] + Children(edges, order, rpaths);
    LastOf(pending);
    MetStays(disk, executable, nodes, next);
    assert Met(disk, executable, next, work);
    forall w | w in pending ensures w in left || Met(disk, executable, next, w) {
    }
    forall v | v in edges && edges[v].File? ensures Work(edges[v].path, rpaths) in left {
      assert edges[v] == File(edges[v].path);
    }
    NeededNext(nodes, start, pending, source, Node(Target(app, source), edges), order, rpaths);
  }

  lemma MetStays(disk: Disk, executable: Path, nodes: Graph, next: Graph)
    requires forall s :: s in nodes ==> s in next && next[s] == nodes[s]
    ensures forall w :: Met(disk, executable, nodes, w) ==> Met(disk, executable, next, w)
  {
    hide Edges;
  }

  lemma NeededNext(nodes: Graph, start: seq<Work>, pending: seq<Work>, source: Path, node: Node,
      order: seq<string>, rpaths: seq<Path>)
    requires Needed(nodes, start, pending) && pending != [] && pending[|pending| - 1].source == source
    requires source !in nodes && forall v :: v in order <==> v in node.edges
    ensures Needed(nodes[source := node], start, pending[..|pending| - 1] + Children(node.edges, order, rpaths))
  {
    var next := nodes[source := node];
    var left := pending[..|pending| - 1] + Children(node.edges, order, rpaths);
    LastOf(pending);
    forall whole | Closed(next, start, whole)
      ensures next.Keys <= whole && forall w :: w in left ==> w.source in whole
    {
      assert Closed(nodes, start, whole) by {
        assert forall s :: s in nodes ==> s in next && next[s] == nodes[s];
      }
      assert source in whole;
      forall w | w in Children(node.edges, order, rpaths) ensures w.source in whole {
        var v :| v in order && node.edges[v] == File(w.source);
        assert next[source].edges[v].path == w.source;
      }
    }
  }

  // ---- What a finished graph promises ----

  // Every binary it starts from and every file a node loads has a node, and no two nodes
  // share a target.
  lemma CompleteIsClosed(disk: Disk, app: Path, executable: Path, start: seq<Work>, nodes: Graph,
      contexts: map<Path, seq<Path>>)
    requires Complete(disk, app, executable, start, nodes, contexts)
    ensures Closed(nodes, start, nodes.Keys)
    ensures forall whole :: Closed(nodes, start, whole) ==> nodes.Keys <= whole
    ensures Injective(nodes)
  {
    forall s, v | s in nodes && v in nodes[s].edges && nodes[s].edges[v].File?
      ensures nodes[s].edges[v].path in nodes
    {
      assert NodeOk(disk, app, executable, s, contexts[s], nodes[s]);
      var w := Asks(disk, executable, s, contexts[s], nodes[s].edges[v]);
      assert w in [] || Met(disk, executable, nodes, w);
    }
    forall w | w in start ensures w.source in nodes {
      assert w in [] || Met(disk, executable, nodes, w);
    }
  }

  // Every load of every node: the system's, or a node found in that node's context, whose
  // own edges are also right in the context it is loaded from.
  lemma CompleteLoads(disk: Disk, app: Path, executable: Path, start: seq<Work>, nodes: Graph,
      contexts: map<Path, seq<Path>>, s: Path, v: string)
    requires Complete(disk, app, executable, start, nodes, contexts)
    requires s in nodes && s in disk.binaries && v in disk.binaries[s].loads
    ensures s in contexts && v in nodes[s].edges
    ensures SystemPath(v) ==> nodes[s].edges[v] == System(v)
    ensures !SystemPath(v) ==>
      && nodes[s].edges[v].File? && nodes[s].edges[v].path in nodes
      && Found(disk, Candidates(v, s, executable, Rpaths(disk, executable, s, contexts[s]))) == {nodes[s].edges[v].path}
      && Met(disk, executable, nodes, Asks(disk, executable, s, contexts[s], nodes[s].edges[v]))
  {
    hide Found, Candidates, SystemPath, Rpaths;
    assert NodeOk(disk, app, executable, s, contexts[s], nodes[s]);
    if !SystemPath(v) {
      var w := Asks(disk, executable, s, contexts[s], nodes[s].edges[v]);
      assert w in [] || Met(disk, executable, nodes, w);
    }
  }

  // Where each binary was first met determines the whole graph.
  lemma OneGraph(disk: Disk, app: Path, executable: Path, start: seq<Work>, nodes: Graph, others: Graph,
      contexts: map<Path, seq<Path>>)
    requires Complete(disk, app, executable, start, nodes, contexts)
    requires Complete(disk, app, executable, start, others, contexts)
    ensures nodes == others
  {
    hide Edges, Acceptable, Supported, Target, Asked, Started, Needed, Injective;
    forall s | s in nodes ensures s in others && nodes[s] == others[s] {
      assert s in contexts;
      assert NodeOk(disk, app, executable, s, contexts[s], nodes[s]);
      assert NodeOk(disk, app, executable, s, contexts[s], others[s]);
      EdgesOnce(disk, executable, s, contexts[s], nodes[s].edges, others[s].edges);
    }
    assert nodes.Keys == others.Keys;
  }

  // What each node of a finished graph is: fit for the package, and placed at its own path in
  // the bundle, or else a plain library among the frameworks, under its own name.
  lemma CompleteIsFit(disk: Disk, app: Path, executable: Path, start: seq<Work>, nodes: Graph,
      contexts: map<Path, seq<Path>>, s: Path)
    requires Complete(disk, app, executable, start, nodes, contexts) && s in nodes && s != []
    ensures s in disk.binaries && executable in disk.binaries
    ensures disk.binaries[s].architecture == disk.binaries[executable].architecture
    ensures !disk.binaries[s].tooNew && !disk.binaries[s].mentionsFltk
    ensures app <= s ==> app + nodes[s].target == s
    ensures !(app <= s) ==>
      && nodes[s].target == ["Contents", "Frameworks", s[|s| - 1]]
      && disk.binaries[s].kind == 6 && !InFramework(s)
  {
    assert NodeOk(disk, app, executable, s, contexts[s], nodes[s]);
    hide Edges, Asked, Started, Needed, InFramework;
  }

  // The run paths in force: those the binary gives, each from its place, and those inherited.
  lemma RpathsExactly(disk: Disk, executable: Path, source: Path, inherited: seq<Path>, p: Path)
    requires source in disk.binaries
    ensures p in Rpaths(disk, executable, source, inherited) <==>
      p in inherited || exists v :: v in disk.binaries[source].rpaths && Expand(v, source, executable) == Some(p)
  {
    hide Expand;
    ExpandedExactly(disk.binaries[source].rpaths, source, executable, p);
  }

  lemma {:induction false} ExpandedExactly(values: seq<string>, loader: Path, executable: Path, p: Path)
    ensures p in ExpandAll(values, loader, executable) <==>
      exists v :: v in values && Expand(v, loader, executable) == Some(p)
  {
    hide Expand;
    if values != [] {
      ExpandedExactly(values[1..], loader, executable, p);
      assert forall v :: v in values <==> v == values[0] || v in values[1..];
    }
  }

  // A load from the run paths is looked for under each of them.
  lemma RpathCandidates(p: Path, loader: Path, executable: Path, rpaths: seq<Path>)
    requires Names(p)
    ensures var c := Candidates("@rpath/" + Show(p), loader, executable, rpaths);
      |c| == |rpaths| && forall i :: 0 <= i < |rpaths| ==> c[i] == rpaths[i] + p
  {
    ShowRelative(p);
    ParseShow(p);
    var value := RPATH + Show(p);
    assert value[|RPATH|..] == Show(p);
    hide Parse, Show;
  }

  // The system's libraries are told by where the path really leads.
  lemma SystemPathIs(p: Path)
    requires Names(p)
    ensures SystemPath("/" + Show(p)) <==> ["usr", "lib"] <= Normal(p) || ["System", "Library"] <= Normal(p)
  {
    RootParsed(p);
    ShowRelative(p);
    hide Parse, Show, Normal;
    assert Show(p) == ("/" + Show(p))[1..];
  }

  // What each prefix stands for: the directory of the loader, that of the executable, or the
  // root.
  lemma ExpandBases(p: Path, loader: Path, executable: Path)
    requires Names(p)
    ensures Expand("@loader_path/" + Show(p), loader, executable) == Some(Parent(loader) + p)
    ensures Expand("@executable_path/" + Show(p), loader, executable) == Some(Parent(executable) + p)
    ensures Expand("/" + Show(p), loader, executable) == Some(p)
  {
    ShowRelative(p);
    ParseShow(p);
    hide Parse, Show;
    var l, e, r := LOADER + Show(p), EXECUTABLE + Show(p), "/" + Show(p);
    assert l[|LOADER|..] == Show(p) && e[|EXECUTABLE|..] == Show(p);
    assert e[1] == 'e' && LOADER[1] == 'l' && r[0] == '/' && LOADER[0] == '@' && EXECUTABLE[0] == '@';
    RootParsed(p);
  }

  lemma RootParsed(p: Path)
    requires Names(p)
    ensures Parse("/" + Show(p)) == p
  {
    var s := "/" + Show(p);
    SlashOfName("", s);
    assert "" + s == s;
    assert s[1..] == Show(p) && s[..0] == "";
    ParseShow(p);
  }

  // ---- Rewritten loads ----

  function Rewritten(target: Path, dependency: Path): string {
    LOADER + Show(Relative(dependency, Parent(target)))
  }

  lemma ShowRelative(p: Path)
    requires Names(p)
    ensures !("/" <= Show(p))
  {
    assert "/"[0] == '/';
    if p == [] {
      assert Show(p)[0] == '.';
    } else {
      assert Show(p)[0] == p[0][0];
      assert p[0][0] in p[0];
    }
  }

  // Paths are resolved, and no binary is the bundle directory itself.
  ghost predicate ResolvedDisk(disk: Disk, app: Path) {
    Canonical(app) && app !in disk.binaries && forall s :: s in disk.binaries ==> Canonical(s) && s != []
  }

  lemma TargetCanonical(disk: Disk, app: Path, source: Path)
    requires ResolvedDisk(disk, app) && source in disk.binaries
    ensures Canonical(Target(app, source)) && Target(app, source) != []
  {
    var t := Target(app, source);
    if Within(app, source) {
      assert t == [] ==> app == source;
      assert forall i :: 0 <= i < |t| ==> t[i] == source[|app| + i];
    } else {
      assert Last(source) == source[|source| - 1];
    }
  }

  // Read from its place in the staged bundle, a rewritten load is the dependency's target.
  lemma RewrittenResolves(staged: Path, executable: Path, target: Path, dependency: Path)
    requires Canonical(staged) && Canonical(target) && Canonical(dependency) && target != []
    ensures var e := Expand(Rewritten(target, dependency), staged + target, executable);
      e.Some? && Normal(e.value) == staged + dependency
  {
    hide Normal, Relative, Show, Parse;
    var up := Relative(dependency, Parent(target));
    var value := Rewritten(target, dependency);
    RelativeNames(dependency, Parent(target));
    ParseShow(up);
    ShowRelative(up);
    assert value[|LOADER|..] == Show(up);
    assert Parent(staged + target) == staged + Parent(target);
    RelativeLeads(staged, Parent(target), dependency);
  }

  // So every rewritten load of a finished graph leads to the target of the node it stands for.
  lemma EveryRewrittenResolves(disk: Disk, app: Path, executable: Path, start: seq<Work>, nodes: Graph,
      contexts: map<Path, seq<Path>>, staged: Path, main: Path, s: Path, v: string)
    requires Complete(disk, app, executable, start, nodes, contexts) && ResolvedDisk(disk, app) && Canonical(staged)
    requires s in nodes && v in nodes[s].edges && nodes[s].edges[v].File?
    ensures var d := nodes[s].edges[v].path;
      d in nodes &&
      var e := Expand(Rewritten(nodes[s].target, nodes[d].target), staged + nodes[s].target, main);
      e.Some? && Normal(e.value) == staged + nodes[d].target
  {
    hide Rewritten, Expand, Normal;
    assert NodeOk(disk, app, executable, s, contexts[s], nodes[s]);
    CompleteIsClosed(disk, app, executable, start, nodes, contexts);
    var d := nodes[s].edges[v].path;
    assert NodeOk(disk, app, executable, d, contexts[d], nodes[d]);
    TargetCanonical(disk, app, s);
    TargetCanonical(disk, app, d);
    RewrittenResolves(staged, main, nodes[s].target, nodes[d].target);
  }
}

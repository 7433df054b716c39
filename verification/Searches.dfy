/** The two searches from end to end, run by one worker: scope, traversal, result graph, pruning. */
module Searches {
  import opened Correlation
  import opened Protocol
  import opened Accounting
  import opened Rooted
  import opened Fixpoint
  import opened Sequential
  import opened Neighbourhood
  import opened PoolDepth
  import opened Walks
  import opened Graphs
  import opened Results

  /** The tables a result graph is built from, without the rest of the shared state. */
  function TablesOf(nodes: map<Class, NodeState>, lineQueries: map<LineKey, map<Query, nat>>): Shared {
    Shared([], true, 0, false, map[], nodes, lineQueries, multiset{}, multiset{}, [])
  }

  lemma BuiltFrom(env: Env, sh: Shared, tables: Shared, g: Graph)
    requires Built(env, tables, g) && sh.nodes == tables.nodes && sh.lineQueries == tables.lineQueries
    ensures Built(env, sh, g)
  {
    assert KnownNodes(sh, g.nodeID) == KnownNodes(tables, g.nodeID) && GraphLines(sh) == GraphLines(tables);
  }

  lemma TablesFit(env: Env, s: State)
    requires ValidEnv(env) && Reachable(env, s)
    ensures Tables(env, s.sh)
  {
    var run :| IsRun(env, run) && run[|run| - 1] == s;
    ShapeAlong(env, run, |run| - 1);
  }

  /** A traversal by one worker and the graph built from it; `s` is the state in which a run of the
      protocol ends with the same tables. */
  method Traverse(env: Env, data: Data, ghost universe: set<Query>) returns (g: Graph, t: Traverser, ghost s: State)
    requires ValidEnv(env) && Covers(data, env) && Bounded(env, universe)
    ensures fresh(g) && g.nodeID == data.nodeID && Built(env, s.sh, g)
    ensures t.env == env && s.sh.nodes == t.nodes && (env.limit <= 0 ==> Finished(env, t.nodes, t.lv))
    ensures Reachable(env, s) && ShuttingDown(s) && !s.sh.cancelled && s.sh.seen.Keys == t.lv.depthOf.Keys
  {
    t := new Traverser(env);
    t.Run(universe);
    s := t.st;
    TablesFit(env, s);
    g := BuildGraph(env, TablesOf(t.nodes, t.lineQueries), data);
    BuiltFrom(env, s.sh, TablesOf(t.nodes, t.lineQueries), g);
  }

  // ---- goal search ------------------------------------------------------------------------------------

  /** The node holds, up to IDs, exactly the derivable objects of its class. */
  ghost predicate HoldsDerivable(env: Env, n: Node) {
    forall key :: HasKey(env, n.cls, n.result, key) <==> DerivableKey(env, n.cls, key)
  }

  ghost predicate HasDerivable(env: Env, c: Class) { exists o :: DerivableObject(env, c, o) }

  /** The search for a path between nodes, given the edges. */
  type PathSearch = set<(nat, nat)> -> ((nat, nat) -> bool)

  ghost function EdgesOf(edges: set<(nat, nat)>): iset<(nat, nat)> { iset e | e in edges }

  ghost predicate FindsPaths(paths: PathSearch) {
    forall edges, u, v :: paths(edges)(u, v) <==> Reaches(EdgesOf(edges), u, v)
  }

  /** The IDs of the goals that have derivable objects. */
  ghost function DerivableGoals(env: Env, ids: map<Class, nat>, goals: seq<Class>): set<nat> {
    set c | c in goals && c in ids && HasDerivable(env, c) :: ids[c]
  }

  lemma BuiltHolds(env: Env, s: State, g: Graph)
    requires ValidEnv(env) && RespectsIds(env) && Reachable(env, s) && ShuttingDown(s) && Unlimited(env, s.sh)
    requires Built(env, s.sh, g)
    ensures forall i :: i in g.nodes ==> HoldsDerivable(env, g.nodes[i])
    ensures forall c :: c in g.nodeID ==>
              (HasDerivable(env, c) <==> g.nodeID[c] in g.nodes && g.nodes[g.nodeID[c]].result != [])
  {
    ComputesLeastFixpoint(env, s);
    forall c | c in g.nodeID
      ensures HasDerivable(env, c) <==> g.nodeID[c] in g.nodes && g.nodes[g.nodeID[c]].result != []
    {
      if HasDerivable(env, c) {
        var o :| DerivableObject(env, c, o);
        var key := KeyOf(env, c, o);
        assert DerivableKey(env, c, key);
        assert c in s.sh.nodes && HasKey(env, c, s.sh.nodes[c].result, key);
        assert c in GraphNodes(s.sh);
      }
      if g.nodeID[c] in g.nodes && g.nodes[g.nodeID[c]].result != [] {
        var n := g.nodes[g.nodeID[c]];
        assert Named(g.names, n);
        assert HasKey(env, c, n.result, KeyOf(env, c, n.result[0]));
      }
    }
  }

  /** What a goal search promises of its graph: it is goal-directed, and without a query limit every goal
      with derivable objects is in it and every node holds exactly the derivable objects of its class. */
  ghost predicate GoalGraph(env: Env, ids: map<Class, nat>, goals: seq<Class>, g: Graph, goalIDs: set<nat>)
    reads g
  {
    && g.Valid() && g.nodeID == ids && env.startClass in ids
    && GoalDirected(g.nodes.Keys, SlotEdges(g.lines), ids[env.startClass], goalIDs)
    && (forall i :: i in goalIDs ==> i in g.nodes && g.nodes[i].result != [] && g.nodes[i].cls in goals)
    && (env.limit <= 0 && RespectsIds(env) ==>
          goalIDs == DerivableGoals(env, ids, goals) && forall i :: i in g.nodes ==> HoldsDerivable(env, g.nodes[i]))
  }

  /** The search for paths, given the edges of the lines, finds the walks along the lines. */
  lemma PathsAlong(lines: map<Slot, Line>, edges: set<(nat, nat)>, paths: PathSearch)
    requires edges == (set slot | slot in lines :: (slot.from, slot.to)) && FindsPaths(paths)
    ensures forall u, v :: paths(edges)(u, v) <==> Reaches(SlotEdges(lines), u, v)
  {
    assert SlotEdges(lines) == EdgesOf(edges);
  }

  /** What the built graph holds, before pruning. */
  ghost predicate Found(env: Env, ids: map<Class, nat>, goals: seq<Class>, nodes: map<nat, Node>, goalIDs: set<nat>) {
    env.limit <= 0 && RespectsIds(env) ==>
      goalIDs == DerivableGoals(env, ids, goals) && forall i :: i in nodes ==> HoldsDerivable(env, nodes[i])
  }

  lemma BuiltFound(env: Env, s: State, g: Graph, goals: seq<Class>)
    requires ValidEnv(env) && env.maxDepth < 0 && Reachable(env, s) && ShuttingDown(s) && !s.sh.cancelled
    requires Built(env, s.sh, g)
    ensures Found(env, g.nodeID, goals, g.nodes, g.GoalIDs(goals))
  {
    hide Reachable, ShuttingDown, Built, HoldsDerivable;
    if env.limit <= 0 && RespectsIds(env) { BuiltHolds(env, s, g); }
  }

  /** Pruning keeps what was found. */
  lemma FoundGoals(env: Env, goals: seq<Class>, nodes: map<nat, Node>, kept: set<nat>, goalIDs: set<nat>, g: Graph)
    requires g.Valid() && g.nodes == KeptNodes(nodes, kept) && env.startClass in g.nodeID
    requires Found(env, g.nodeID, goals, nodes, goalIDs)
    requires GoalDirected(g.nodes.Keys, SlotEdges(g.lines), g.nodeID[env.startClass], goalIDs)
    requires forall i :: i in goalIDs ==> i in g.nodes && g.nodes[i].result != [] && g.nodes[i].cls in goals
    ensures GoalGraph(env, g.nodeID, goals, g, goalIDs)
  {
    hide GoalDirected, HoldsDerivable;
  }

  /** A goal search between known classes, with the scope already chosen. */
  method SearchGoals(env: Env, data: Data, goals: seq<Class>, paths: PathSearch, ghost universe: set<Query>)
    returns (g: Graph, ghost goalIDs: set<nat>)
    requires ValidEnv(env) && Covers(data, env) && env.maxDepth < 0 && Bounded(env, universe) && FindsPaths(paths)
    requires env.startClass in data.nodeID
    ensures GoalGraph(env, data.nodeID, goals, g, goalIDs)
  {
    hide Built, Reachable, ShuttingDown, Finished, FindsPaths, Covers, ValidEnv, GoalGraph;
    ghost var s: State;
    var t: Traverser;
    g, t, s := Traverse(env, data, universe);
    goalIDs := PruneBuilt(env, s, g, goals, paths);
  }

  /** The graph that `Goals` returns after any uncancelled run of the pool, with the scope already chosen. */
  method PoolGoals(env: Env, data: Data, goals: seq<Class>, paths: PathSearch, s: State)
    returns (g: Graph, ghost goalIDs: set<nat>)
    requires ValidEnv(env) && Covers(data, env) && env.maxDepth < 0 && FindsPaths(paths)
    requires env.startClass in data.nodeID
    requires Reachable(env, s) && ShuttingDown(s) && !s.sh.cancelled
    ensures GoalGraph(env, data.nodeID, goals, g, goalIDs)
  {
    hide Built, Reachable, ShuttingDown, FindsPaths, ValidEnv, GoalGraph;
    TablesFit(env, s);
    g := BuildGraph(env, s.sh, data);
    goalIDs := PruneBuilt(env, s, g, goals, paths);
  }

  /** Prunes the graph built from any final state of the pool. */
  method PruneBuilt(ghost env: Env, ghost s: State, g: Graph, goals: seq<Class>, paths: PathSearch)
    returns (ghost goalIDs: set<nat>)
    requires ValidEnv(env) && env.maxDepth < 0 && FindsPaths(paths) && env.startClass in g.nodeID
    requires Reachable(env, s) && ShuttingDown(s) && !s.sh.cancelled && Built(env, s.sh, g)
    modifies g`nodes, g`lines, g`allLines
    ensures GoalGraph(env, g.nodeID, goals, g, goalIDs)
  {
    hide Built, Reachable, ShuttingDown, GoalDirected, FindsPaths, Reaches, ValidEnv, GoalGraph;
    hide Found, KeptNodes, Prune;
    BuiltFound(env, s, g, goals);
    goalIDs := g.GoalIDs(goals);
    ghost var nodes, kept := g.nodes, Prune(g.nodes.Keys, SlotEdges(g.lines), goalIDs);
    var edges := set slot | slot in g.lines :: (slot.from, slot.to);
    PathsAlong(g.lines, edges, paths);
    PruneToGoals(env, s, g, goals, paths(edges));
    FoundGoals(env, goals, nodes, kept, goalIDs, g);
  }

  /** `Goals`: fails exactly if the start class or a goal is unknown. */
  method Goals(env: Env, data: Data, goals: seq<Class>, paths: PathSearch, ghost universe: set<Query>)
    returns (result: Option<Graph>, ghost goalIDs: set<nat>)
    requires ValidEnv(env) && Covers(data, env) && env.maxDepth < 0 && Bounded(env, universe) && FindsPaths(paths)
    ensures result.None? <==> env.startClass !in data.nodeID || exists c :: c in goals && c !in data.nodeID
    ensures result.Some? ==> GoalGraph(env, data.nodeID, goals, result.value, goalIDs)
  {
    hide GoalGraph;
    result, goalIDs := None, {};
    if env.startClass !in data.nodeID || exists c :: c in goals && c !in data.nodeID { return; }
    var g: Graph;
    g, goalIDs := SearchGoals(env, data, goals, paths, universe);
    result := Some(g);
  }

  // ---- neighbourhood search ---------------------------------------------------------------------------

  /** Finitely many queries are derivable in any number of rule applications. */
  lemma {:induction false} FinitelyMany(env: Env, n: nat) returns (universe: set<Query>)
    ensures forall q :: DerivedQuery(env, q, n) ==> q in universe
  {
    if n == 0 {
      universe := set q | q in env.startQueries;
    } else {
      var before := FinitelyMany(env, n - 1);
      var objects := (set o | o in env.startObjects) + set q, o | q in before && o in env.get(q) :: o;
      universe := before + set o, k, q | o in objects && k in env.lines && q in env.apply(k.rule, o) :: q;
      forall q | DerivedQuery(env, q, n) ensures q in universe {
        if !DerivedQuery(env, q, n - 1) {
          var c, o, r :| DerivedObject(env, c, o, n - 1) && Follows(env, c, o, r, q);
          assert o in objects;
          assert LineKey(c, r, q.cls).rule == r;
        }
      }
    }
  }

  lemma WithinDepth(env: Env, universe: set<Query>)
    requires env.maxDepth >= 0 && forall q :: DerivedQuery(env, q, env.maxDepth) ==> q in universe
    ensures Bounded(env, universe)
  {
    forall q, n: nat | !TooDeep(env, n) && DerivedQuery(env, q, n) ensures q in universe {
      DerivedMonotone(env, q, n, env.maxDepth);
    }
  }

  /** Everything derivable is of a class in scope. */
  lemma ClassInScope(env: Env, c: Class, o: Object, n: nat)
    requires ValidEnv(env) && DerivedObject(env, c, o, n)
    ensures c in NodeClasses(env)
  {
    if c != env.startClass {
      var q :| DerivedQuery(env, q, n) && q.cls == c && o in env.get(q);
      QueryInScope(env, q, n);
    }
  }

  lemma {:induction false} QueryInScope(env: Env, q: Query, n: nat)
    requires ValidEnv(env) && DerivedQuery(env, q, n)
    ensures q.cls in NodeClasses(env)
  {
    if n > 0 {
      if DerivedQuery(env, q, n - 1) {
        QueryInScope(env, q, n - 1);
      } else {
        var c, o, r :| DerivedObject(env, c, o, n - 1) && Follows(env, c, o, r, q);
        assert LineKey(c, r, q.cls).goal == q.cls;
      }
    }
  }

  /** A finished neighbourhood search holds, up to IDs, exactly the objects that all the rules derive
      within the depth. */
  lemma NeighborsHold(env: Env, depth: nat, nodes: map<Class, NodeState>, lv: Levels)
    requires ValidEnv(env) && RespectsIds(env) && Finished(Scoped(env, depth), nodes, lv)
    ensures HoldsKeysNear(env, depth, nodes)
  {
    var scoped := Scoped(env, depth);
    ScopedRespectsIds(env, depth);
    forall c, key | c in nodes && HasKey(env, c, nodes[c].result, key) ensures NearKey(env, depth, c, key) {
      var i :| 0 <= i < |nodes[c].result| && KeyOf(env, c, nodes[c].result[i]) == key;
      DerivedObjectMonotone(scoped, c, nodes[c].result[i], lv.labels[c][i], depth);
      ScopeLosesNoObject(env, depth, c, nodes[c].result[i], depth);
    }
    forall c, key | NearKey(env, depth, c, key) ensures c in nodes && HasKey(env, c, nodes[c].result, key) {
      var o :| DerivedObject(env, c, o, depth) && KeyOf(env, c, o) == key;
      ScopeLosesNoObject(env, depth, c, o, depth);
      ClassInScope(scoped, c, o, depth);
      ReachesObject(scoped, nodes, lv, c, o, depth);
      var i :| 0 <= i < |nodes[c].result| && KeyOf(scoped, c, nodes[c].result[i]) == KeyOf(scoped, c, o)
               && lv.labels[c][i] <= depth;
      assert KeyOf(env, c, nodes[c].result[i]) == key;
    }
  }

  /** What a neighbourhood search promises of its graph: it is rooted at the start class, and without a
      query limit the classes in it are exactly those with objects that the rules derive within `depth`
      applications, and every node holds exactly those objects. */
  ghost predicate NeighborGraph(env: Env, ids: map<Class, nat>, depth: nat, g: Graph)
    reads g
  {
    && g.Valid() && g.nodeID == ids && env.startClass in ids
    && RootedAt(g.nodes.Keys, SlotEdges(g.lines), ids[env.startClass])
    && (env.limit <= 0 && RespectsIds(env) ==>
          forall c, key :: NearKey(env, depth, c, key) <==>
            c in ids && ids[c] in g.nodes && HasKey(env, c, g.nodes[ids[c]].result, key))
  }

  /** A neighbourhood search over lines already selected. */
  method SearchScope(env: Env, data: Data, depth: nat, scope: map<LineKey, nat>) returns (g: Graph)
    requires ValidEnv(env) && Covers(data, env) && env.startClass in data.nodeID
    requires scope == NeighborScope(env.lines, env.startClass, depth)
    ensures NeighborGraph(env, data.nodeID, depth, g)
  {
    hide Built, Finished, Reachable, ShuttingDown, Bounded, NeighborGraph;
    var scoped := env.(lines := scope, maxDepth := depth);
    assert scoped == Scoped(env, depth);
    ghost var universe := FinitelyMany(scoped, depth);
    WithinDepth(scoped, universe);
    ghost var s: State;
    var t: Traverser;
    g, t, s := Traverse(scoped, data, universe);
    CoversKnown(data, scoped);
    if env.limit <= 0 && RespectsIds(env) { NeighborsHold(env, depth, t.nodes, t.lv); }
    FoundNeighbors(env, depth, s, g);
  }

  /** The graph of a traversal over the scoped rules that holds what is near is the one a neighbourhood
      search promises. */
  lemma FoundNeighbors(env: Env, depth: nat, s: State, g: Graph)
    requires ValidEnv(env) && env.startClass in g.nodeID && EndsIndexed(Scoped(env, depth), g.nodeID)
    requires Reachable(Scoped(env, depth), s) && ShuttingDown(s) && Built(Scoped(env, depth), s.sh, g)
    requires env.limit <= 0 && RespectsIds(env) ==> HoldsKeysNear(env, depth, s.sh.nodes)
    ensures NeighborGraph(env, g.nodeID, depth, g)
  {
    hide Reachable, ShuttingDown, RootedAt, HoldsKeysNear;
    BuiltIsRooted(Scoped(env, depth), s, g);
    if env.limit <= 0 && RespectsIds(env) {
      TablesFit(Scoped(env, depth), s);
      NearGraph(env, depth, Scoped(env, depth), s.sh, g);
    }
  }

  /** The graph that `Neighbors` returns after any uncancelled run of the pool, over lines already selected:
      rooted at the start class always, and exact if the scope is levelled. */
  method PoolNeighbors(env: Env, data: Data, depth: nat, scope: map<LineKey, nat>, s: State) returns (g: Graph)
    requires ValidEnv(env) && Covers(data, env) && env.startClass in data.nodeID
    requires scope == NeighborScope(env.lines, env.startClass, depth)
    requires Reachable(Scoped(env, depth), s) && ShuttingDown(s) && !s.sh.cancelled
    ensures g.Valid() && RootedAt(g.nodes.Keys, SlotEdges(g.lines), data.nodeID[env.startClass])
    ensures forall i :: i in g.nodes ==> WithinHops(env.lines, env.startClass, g.nodes[i].cls, depth)
    ensures Levelled(scope, env.startClass, depth) ==> NeighborGraph(env, data.nodeID, depth, g)
  {
    hide Built, Reachable, ShuttingDown, NeighborGraph, HoldsKeysNear, Levelled, WithinHops;
    var scoped := env.(lines := scope, maxDepth := depth);
    assert scoped == Scoped(env, depth);
    TablesFit(scoped, s);
    g := BuildGraph(scoped, s.sh, data);
    CoversKnown(data, scoped);
    BuiltIsRooted(scoped, s, g);
    NodesWithinHops(env, depth, s, g);
    if Levelled(scope, env.startClass, depth) {
      if env.limit <= 0 && RespectsIds(env) { LevelledIsExact(env, depth); }
      FoundNeighbors(env, depth, s, g);
    }
  }

  /** Whatever the interleaving, the nodes are of classes within the depth. */
  lemma NodesWithinHops(env: Env, depth: nat, s: State, g: Graph)
    requires ValidEnv(env) && Reachable(Scoped(env, depth), s) && Built(Scoped(env, depth), s.sh, g)
    ensures forall i :: i in g.nodes ==> WithinHops(env.lines, env.startClass, g.nodes[i].cls, depth)
  {
    hide WithinHops, Reachable;
    var scoped := Scoped(env, depth);
    OnlyDerivable(scoped, s);
    forall i | i in g.nodes ensures WithinHops(env.lines, env.startClass, g.nodes[i].cls, depth) {
      var n := g.nodes[i];
      var o := n.result[0];
      assert o in s.sh.nodes[n.cls].result;
      var m: nat :| DerivedObject(scoped, n.cls, o, m);
      if n.cls == env.startClass {
        StartWithinHops(env.lines, env.startClass, depth);
      } else {
        var q :| DerivedQuery(scoped, q, m) && q.cls == n.cls && o in env.get(q);
        ScopedWithinHops(env, depth, q, m);
      }
    }
  }

  /** `Neighbors`: fails exactly if the start class is unknown; it always ends. */
  method Neighbors(env: Env, data: Data, depth: nat) returns (result: Option<Graph>)
    requires ValidEnv(env) && Covers(data, env)
    ensures result.None? <==> env.startClass !in data.nodeID
    ensures result.Some? ==> NeighborGraph(env, data.nodeID, depth, result.value)
  {
    hide NeighborGraph;
    if env.startClass !in data.nodeID { return None; }
    var scope := WalkScope(env.lines, env.startClass, depth);
    var g := SearchScope(env, data, depth, scope);
    return Some(g);
  }

  lemma NearGraph(env: Env, depth: nat, scoped: Env, sh: Shared, g: Graph)
    requires Built(scoped, sh, g) && NodeClasses(scoped) <= g.nodeID.Keys && sh.nodes.Keys == NodeClasses(scoped)
    requires HoldsKeysNear(env, depth, sh.nodes)
    ensures forall c, key :: NearKey(env, depth, c, key) <==>
              c in g.nodeID && g.nodeID[c] in g.nodes && HasKey(env, c, g.nodes[g.nodeID[c]].result, key)
  {
    forall c, key | NearKey(env, depth, c, key)
      ensures c in g.nodeID && g.nodeID[c] in g.nodes && HasKey(env, c, g.nodes[g.nodeID[c]].result, key)
    {
      assert HasKey(env, c, sh.nodes[c].result, key);
      assert c in GraphNodes(sh);
    }
    forall c, key | c in g.nodeID && g.nodeID[c] in g.nodes && HasKey(env, c, g.nodes[g.nodeID[c]].result, key)
      ensures NearKey(env, depth, c, key)
    {
      assert Named(g.names, g.nodes[g.nodeID[c]]);
    }
  }
}

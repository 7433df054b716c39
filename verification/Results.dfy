/** From a finished traversal to the graph it returns, and the end-to-end result of a goal search. */
module Results {
  import opened Correlation
  import opened Protocol
  import opened Accounting
  import opened Queries
  import opened Recording
  import opened Rooted
  import opened Walks
  import opened Graphs

  // ---- whole graphs ----------------------------------------------------------------------------------

  /** Lines whose UIDs are their positions, between nodes named as in the data. */
  ghost predicate Dense(names: seq<Class>, lines: seq<Line>) {
    forall i :: 0 <= i < |lines| ==> lines[i].uid == i && Named(names, lines[i].from) && Named(names, lines[i].to)
  }

  /** A line has a slot that the copies of the lines before it do not have. */
  lemma NextIsFree(names: seq<Class>, table: map<Slot, Line>, copies: seq<Line>, lines: seq<Line>, i: nat)
    requires i < |lines| && Agrees(table, copies) && AreCopies(copies, lines[..i]) && Dense(names, lines)
    ensures SlotOf(lines[i]) !in table
  {
    forall o | o in lines[..i] ensures SlotOf(o) != SlotOf(lines[i]) {
      var j :| 0 <= j < i && lines[j] == o;
    }
    SlotIsFree(table, copies, lines[..i], lines[i]);
  }

  lemma CopiesAppend(copies: seq<Line>, lines: seq<Line>, i: nat, c: Line)
    requires i < |lines| && AreCopies(copies, lines[..i]) && IsCopy(c, lines[i])
    ensures AreCopies(copies + [c], lines[..i + 1])
  {
  }

  /** Copies the lines, whose UIDs are their positions, into an empty graph. */
  method CopyLines(g: Graph, lines: seq<Line>)
    requires g.Valid() && g.allLines == [] && g.nodes == map[] && Dense(g.names, lines)
    modifies g
    ensures g.Valid() && AreCopies(g.allLines, lines)
    ensures forall l :: l in g.allLines ==> fresh(l) && l.queries == map[]
    ensures forall id :: id in g.nodes ==> fresh(g.nodes[id]) && Blank(g.nodes[id])
  {
    hide Agrees, Wired, AreCopies, IsCopy;
    CopiesOfNone(g.allLines, lines);
    ghost var made: set<Line> := {};
    for i := 0 to |lines|
      invariant g.Valid() && AreCopies(g.allLines, lines[..i])
      invariant fresh(made) && forall l :: l in g.allLines ==> l in made && l.queries == map[]
      invariant forall id :: id in g.nodes ==> fresh(g.nodes[id]) && Blank(g.nodes[id])
    {
      NextIsFree(g.names, g.lines, g.allLines, lines, i);
      ghost var before := g.allLines;
      var c := g.CopyLine(lines[i]);
      CopiesAppend(before, lines, i, c);
      made := made + {c};
    }
    assert lines[..|lines|] == lines;
  }

  lemma CopiesOfNone(copies: seq<Line>, lines: seq<Line>)
    requires copies == []
    ensures AreCopies(copies, lines[..0])
  {
  }

  method CopyNodes(g: Graph, nodes: seq<Node>)
    requires g.Valid() && |g.names| == |nodes|
    requires forall i :: 0 <= i < |nodes| ==> nodes[i].id == i && Named(g.names, nodes[i])
    modifies g`nodes
    ensures g.Valid() && forall id: nat :: id in g.nodes <==> id < |nodes|
    ensures forall id :: id in g.nodes ==>
              if id in old(g.nodes) then g.nodes[id] == old(g.nodes)[id] else fresh(g.nodes[id]) && Blank(g.nodes[id])
  {
    ghost var made: set<Node> := {};
    for i := 0 to |nodes|
      invariant g.Valid() && old(g.nodes.Keys) <= g.nodes.Keys && forall j: nat :: j < i ==> j in g.nodes
      invariant fresh(made) && forall id :: id in g.nodes ==>
                  if id in old(g.nodes) then g.nodes[id] == old(g.nodes)[id]
                  else g.nodes[id] in made && Blank(g.nodes[id])
    {
      var c := g.CopyNode(nodes[i]);
      if i !in old(g.nodes) { made := made + {c}; }
    }
    assert forall id :: id in g.nodes ==> Named(g.names, g.nodes[id]);
  }

  /** `FullGraph`: fresh copies of every line and every node. */
  method FullGraph(data: Data) returns (g: Graph)
    requires data.Valid()
    ensures fresh(g) && g.Valid() && g.names == data.Names()
    ensures AreCopies(g.allLines, data.lines) && forall l :: l in g.allLines ==> fresh(l) && l.queries == map[]
    ensures forall id: nat :: id in g.nodes <==> id < |data.nodes|
    ensures forall id :: id in g.nodes ==>
              fresh(g.nodes[id]) && g.nodes[id].result == [] && g.nodes[id].queries == map[]
              && id < |data.nodes| && g.nodes[id].id == id && g.nodes[id].cls == data.nodes[id].cls
    ensures |g.allLines| == |data.lines|
    ensures forall i :: 0 <= i < |data.lines| ==>
              var c, l := g.allLines[i], data.lines[i];
              c.uid == i && c.rule == l.rule && c.from.id == l.from.id && c.to.id == l.to.id
  {
    g := new Graph(data);
    forall i | 0 <= i < |data.lines| ensures Named(g.names, data.lines[i].from) && Named(g.names, data.lines[i].to) {
      assert data.Holds(data.lines[i].from) && data.Holds(data.lines[i].to);
    }
    CopyLines(g, data.lines);
    CopyNodes(g, data.nodes);
    CopiesMatch(g.allLines, data.lines);
  }

  // ---- buildGraph ---------------------------------------------------------------------------------------

  /** The topology data has each line in scope under its UID. */
  ghost predicate Covers(data: Data, env: Env)
    reads data
  {
    && data.Valid()
    && (forall k :: k in env.lines ==> env.lines[k] < |data.lines| && KeyOfLine(data.lines[env.lines[k]]) == k)
  }

  /** Each class the graph indexes is the one named at its ID. */
  ghost predicate Indexed(ids: map<Class, nat>, names: seq<Class>) {
    forall c :: c in ids ==> ids[c] < |names| && names[ids[c]] == c
  }

  /** The ends of every line in scope have IDs. */
  ghost predicate EndsIndexed(env: Env, ids: map<Class, nat>) {
    forall k :: k in env.lines ==> k.start in ids && k.goal in ids
  }

  /** The classes with results that have an ID. */
  function KnownNodes(sh: Shared, ids: map<Class, nat>): set<Class> { GraphNodes(sh) * ids.Keys }

  function SlotFor(uids: map<LineKey, nat>, ids: map<Class, nat>, k: LineKey): Slot
    requires k.start in ids && k.goal in ids && k in uids
  {
    Slot(ids[k.start], ids[k.goal], uids[k])
  }

  ghost predicate Tables(env: Env, sh: Shared) {
    sh.nodes.Keys == NodeClasses(env) && sh.lineQueries.Keys == env.lines.Keys
  }

  /** The nodes stand for exactly these classes. */
  ghost predicate NodesPlaced(ids: map<Class, nat>, classes: set<Class>, nodes: map<nat, Node>) {
    && (forall c :: c in classes ==> c in ids && ids[c] in nodes && nodes[ids[c]].cls == c)
    && (forall i :: i in nodes ==> nodes[i].cls in classes && nodes[i].cls in ids && ids[nodes[i].cls] == i)
  }

  /** They hold the objects and query counts of their classes. */
  ghost predicate NodesFilled(sh: Shared, nodes: map<nat, Node>) {
    forall i :: i in nodes ==>
      var n := nodes[i]; n.cls in sh.nodes && n.result == sh.nodes[n.cls].result && n.queries == sh.nodes[n.cls].queries
  }

  /** The lines stand for exactly these keys. */
  ghost predicate LinesPlaced(uids: map<LineKey, nat>, ids: map<Class, nat>, keys: set<LineKey>,
                              lines: map<Slot, Line>) {
    && (forall k :: k in keys ==>
          k in uids && k.start in ids && k.goal in ids
          && SlotFor(uids, ids, k) in lines && KeyOfLine(lines[SlotFor(uids, ids, k)]) == k)
    && (forall s :: s in lines ==>
          var k := KeyOfLine(lines[s]);
          k in keys && k in uids && k.start in ids && k.goal in ids && s == SlotFor(uids, ids, k))
  }

  ghost predicate LinesFilled(sh: Shared, lines: map<Slot, Line>) {
    forall s :: s in lines ==>
      var l := lines[s]; KeyOfLine(l) in sh.lineQueries && l.queries == sh.lineQueries[KeyOfLine(l)]
  }

  /** The graph of a traversal: its classes with results that have an ID, and its lines with results. */
  ghost predicate Built(env: Env, sh: Shared, g: Graph)
    reads g
  {
    && g.Valid() && Indexed(g.nodeID, g.names)
    && NodesPlaced(g.nodeID, KnownNodes(sh, g.nodeID), g.nodes) && NodesFilled(sh, g.nodes)
    && LinesPlaced(env.lines, g.nodeID, GraphLines(sh), g.lines) && LinesFilled(sh, g.lines)
  }

  lemma PlaceNode(ids: map<Class, nat>, names: seq<Class>, classes: set<Class>, nodes: map<nat, Node>,
                  lines: map<Slot, Line>, n: Node)
    requires NodesPlaced(ids, classes, nodes) && Wired(names, nodes, lines)
    requires n.cls !in classes && n.cls in ids && n.id == ids[n.cls] && Named(names, n)
    ensures NodesPlaced(ids, classes + {n.cls}, nodes[n.id := n]) && n.id !in nodes
    ensures Wired(names, nodes[n.id := n], lines)
  {
  }

  method BuildNodes(env: Env, sh: Shared, g: Graph)
    requires Indexed(g.nodeID, g.names) && g.Valid() && g.nodes == map[]
    modifies g`nodes
    ensures g.Valid() && NodesPlaced(g.nodeID, KnownNodes(sh, g.nodeID), g.nodes) && NodesFilled(sh, g.nodes)
  {
    var rest := sh.nodes.Keys;
    ghost var built: set<Class> := {};
    while rest != {}
      invariant rest <= sh.nodes.Keys && built == KnownNodes(sh, g.nodeID) - rest
      invariant Wired(g.names, g.nodes, g.lines) && NodesPlaced(g.nodeID, built, g.nodes) && NodesFilled(sh, g.nodes)
      decreases rest
    {
      var c :| c in rest;
      if sh.nodes[c].result != [] && c in g.nodeID {
        var n := new Node(g.nodeID[c], c, sh.nodes[c].result, sh.nodes[c].queries);
        PlaceNode(g.nodeID, g.names, built, g.nodes, g.lines, n);
        g.nodes := g.nodes[n.id := n];
        built := built + {c};
      }
      rest := rest - {c};
    }
    assert built == KnownNodes(sh, g.nodeID);
  }

  /** UIDs tell the lines in scope apart. */
  ghost predicate UidsDistinct(uids: map<LineKey, nat>) {
    forall k1, k2 :: k1 in uids && k2 in uids && uids[k1] == uids[k2] ==> k1 == k2
  }

  lemma PlaceLine(uids: map<LineKey, nat>, ids: map<Class, nat>, keys: set<LineKey>, lines: map<Slot, Line>, l: Line)
    requires UidsDistinct(uids) && LinesPlaced(uids, ids, keys, lines)
    requires var k := KeyOfLine(l);
             k !in keys && k in uids && k.start in ids && k.goal in ids && SlotOf(l) == SlotFor(uids, ids, k)
    ensures SlotOf(l) !in lines && LinesPlaced(uids, ids, keys + {KeyOfLine(l)}, lines[SlotOf(l) := l])
  {
  }

  /** Adds the line of a key to a graph that has both its ends. */
  method BuildLine(uids: map<LineKey, nat>, queries: map<Query, nat>, g: Graph, k: LineKey, ghost keys: set<LineKey>)
    requires g.Valid() && UidsDistinct(uids) && LinesPlaced(uids, g.nodeID, keys, g.lines)
    requires k in uids && k !in keys && k.start in g.nodeID && k.goal in g.nodeID
    requires g.nodeID[k.start] in g.nodes && g.nodes[g.nodeID[k.start]].cls == k.start
    requires g.nodeID[k.goal] in g.nodes && g.nodes[g.nodeID[k.goal]].cls == k.goal
    modifies g`nodes, g`lines, g`allLines
    ensures g.Valid() && g.nodes == old(g.nodes) && LinesPlaced(uids, g.nodeID, keys + {k}, g.lines)
    ensures var s := SlotFor(uids, g.nodeID, k);
            && s in g.lines && g.lines == old(g.lines)[s := g.lines[s]]
            && KeyOfLine(g.lines[s]) == k && g.lines[s].queries == queries
  {
    var l := new Line(g.nodes[g.nodeID[k.start]], g.nodes[g.nodeID[k.goal]], uids[k], k.rule, queries);
    PlaceLine(uids, g.nodeID, keys, g.lines, l);
    OwnEndsJoin(g.names, g.nodes, g.lines, l);
    g.AddLine(l);
  }

  /** Whether `buildGraph` makes a line for the key: it has a positive total and both its ends. */
  ghost predicate Wants(env: Env, sh: Shared, g: Graph, k: LineKey)
    reads g
  {
    && k in env.lines && k in sh.lineQueries && k.start in g.nodeID && k.goal in g.nodeID
    && Total(sh.lineQueries[k]) != 0 && g.nodeID[k.start] in g.nodes && g.nodeID[k.goal] in g.nodes
    && g.nodes[g.nodeID[k.start]].cls == k.start && g.nodes[g.nodeID[k.goal]].cls == k.goal
  }

  /** The tests of `buildGraph` pick the lines of the result graph. */
  lemma WantsGraphLines(env: Env, sh: Shared, g: Graph, k: LineKey)
    requires Indexed(g.nodeID, g.names) && EndsIndexed(env, g.nodeID) && Tables(env, sh) && k in env.lines
    requires g.Valid() && NodesPlaced(g.nodeID, KnownNodes(sh, g.nodeID), g.nodes)
    ensures k in GraphLines(sh) <==> Wants(env, sh, g, k)
    ensures g.nodeID[k.start] in g.nodes ==> g.nodes[g.nodeID[k.start]].cls == k.start
    ensures g.nodeID[k.goal] in g.nodes ==> g.nodes[g.nodeID[k.goal]].cls == k.goal
  {
    forall c | c in g.nodeID && g.nodeID[c] in g.nodes ensures g.nodes[g.nodeID[c]].cls == c {
      assert Named(g.names, g.nodes[g.nodeID[c]]);
    }
  }

  lemma NonePlaced(uids: map<LineKey, nat>, ids: map<Class, nat>, lines: map<Slot, Line>)
    requires lines == map[]
    ensures LinesPlaced(uids, ids, {}, lines)
  {
  }

  method BuildLines(env: Env, sh: Shared, g: Graph, ghost wanted: set<LineKey>)
    requires sh.lineQueries.Keys == env.lines.Keys && UidsDistinct(env.lines) && g.Valid() && g.lines == map[]
    requires forall k :: k in env.lines ==> k.start in g.nodeID && k.goal in g.nodeID
    requires wanted <= env.lines.Keys && forall k :: k in env.lines ==> (k in wanted <==> Wants(env, sh, g, k))
    requires forall k :: k in env.lines && g.nodeID[k.start] in g.nodes ==> g.nodes[g.nodeID[k.start]].cls == k.start
    requires forall k :: k in env.lines && g.nodeID[k.goal] in g.nodes ==> g.nodes[g.nodeID[k.goal]].cls == k.goal
    modifies g`nodes, g`lines, g`allLines
    ensures g.Valid() && g.nodes == old(g.nodes)
    ensures LinesPlaced(env.lines, g.nodeID, wanted, g.lines) && LinesFilled(sh, g.lines)
  {
    hide Wired, Agrees, LinesPlaced, UidsDistinct, Total;
    var rest := env.lines.Keys;
    ghost var built: set<LineKey> := {};
    NonePlaced(env.lines, g.nodeID, g.lines);
    while rest != {}
      invariant rest <= env.lines.Keys && built == wanted - rest
      invariant g.Valid() && g.nodes == old(g.nodes)
      invariant LinesPlaced(env.lines, g.nodeID, built, g.lines) && LinesFilled(sh, g.lines)
      decreases rest
    {
      var k :| k in rest;
      var total := SumCounts(sh.lineQueries[k]);
      if total != 0 && g.nodeID[k.start] in g.nodes && g.nodeID[k.goal] in g.nodes {
        BuildLine(env.lines, sh.lineQueries[k], g, k, built);
        built := built + {k};
      }
      rest := rest - {k};
    }
    assert built == wanted;
  }

  /** A built graph has a node exactly for each class with objects and an ID, with its objects and counts. */
  lemma BuiltNodes(env: Env, sh: Shared, g: Graph)
    requires Built(env, sh, g)
    ensures forall c :: c in sh.nodes && sh.nodes[c].result != [] && c in g.nodeID ==>
              g.nodeID[c] in g.nodes
              && var n := g.nodes[g.nodeID[c]];
                 n.cls == c && n.result == sh.nodes[c].result && n.queries == sh.nodes[c].queries
    ensures forall i :: i in g.nodes ==>
              var c := g.nodes[i].cls;
              c in sh.nodes && sh.nodes[c].result != [] && c in g.nodeID && g.nodeID[c] == i
  {
  }

  /** And a line exactly for each key with results between such classes, with its counts. */
  lemma BuiltLines(env: Env, sh: Shared, g: Graph)
    requires Built(env, sh, g)
    ensures forall k, q :: k in env.lines && k in sh.lineQueries && q in sh.lineQueries[k] && sh.lineQueries[k][q] > 0
                           && k.start in sh.nodes && sh.nodes[k.start].result != [] && k.start in g.nodeID
                           && k.goal in sh.nodes && sh.nodes[k.goal].result != [] && k.goal in g.nodeID ==>
              var s := Slot(g.nodeID[k.start], g.nodeID[k.goal], env.lines[k]);
              s in g.lines
              && var l := g.lines[s];
                 l.uid == env.lines[k] && l.rule == k.rule && l.from.cls == k.start && l.to.cls == k.goal
                 && l.queries == sh.lineQueries[k]
    ensures forall s :: s in g.lines ==>
              var l := g.lines[s];
              var k := LineKey(l.from.cls, l.rule, l.to.cls);
              k in env.lines && l.uid == env.lines[k] && k in sh.lineQueries && l.queries == sh.lineQueries[k]
              && exists q :: q in l.queries && l.queries[q] > 0
  {
    forall k, q | k in env.lines && k in sh.lineQueries && q in sh.lineQueries[k] && sh.lineQueries[k][q] > 0
                  && k.start in sh.nodes && sh.nodes[k.start].result != [] && k.start in g.nodeID
                  && k.goal in sh.nodes && sh.nodes[k.goal].result != [] && k.goal in g.nodeID
      ensures k in GraphLines(sh)
    {
      PositiveTotal(sh.lineQueries[k]);
    }
    forall s | s in g.lines ensures exists q :: q in g.lines[s].queries && g.lines[s].queries[q] > 0 {
      PositiveTotal(g.lines[s].queries);
    }
  }

  /** `buildGraph`. */
  method BuildGraph(env: Env, sh: Shared, data: Data) returns (g: Graph)
    requires Covers(data, env) && Tables(env, sh)
    ensures fresh(g) && g.nodeID == data.nodeID && g.names == data.Names() && Built(env, sh, g)
    ensures forall c :: c in sh.nodes && sh.nodes[c].result != [] && c in g.nodeID ==>
              g.nodeID[c] in g.nodes
              && var n := g.nodes[g.nodeID[c]];
                 n.cls == c && n.result == sh.nodes[c].result && n.queries == sh.nodes[c].queries
    ensures forall i :: i in g.nodes ==>
              var c := g.nodes[i].cls;
              c in sh.nodes && sh.nodes[c].result != [] && c in g.nodeID && g.nodeID[c] == i
    ensures forall k, q :: k in env.lines && k in sh.lineQueries && q in sh.lineQueries[k] && sh.lineQueries[k][q] > 0
                           && k.start in sh.nodes && sh.nodes[k.start].result != [] && k.start in g.nodeID
                           && k.goal in sh.nodes && sh.nodes[k.goal].result != [] && k.goal in g.nodeID ==>
              var s := Slot(g.nodeID[k.start], g.nodeID[k.goal], env.lines[k]);
              s in g.lines
              && var l := g.lines[s];
                 l.uid == env.lines[k] && l.rule == k.rule && l.from.cls == k.start && l.to.cls == k.goal
                 && l.queries == sh.lineQueries[k]
    ensures forall s :: s in g.lines ==>
              var l := g.lines[s];
              var k := LineKey(l.from.cls, l.rule, l.to.cls);
              k in env.lines && l.uid == env.lines[k] && k in sh.lineQueries && l.queries == sh.lineQueries[k]
              && exists q :: q in l.queries && l.queries[q] > 0
  {
    g := new Graph(data);
    CoversKnown(data, env);
    BuildNodes(env, sh, g);
    forall k | k in env.lines
      ensures k in GraphLines(sh) <==> Wants(env, sh, g, k)
      ensures g.nodeID[k.start] in g.nodes ==> g.nodes[g.nodeID[k.start]].cls == k.start
      ensures g.nodeID[k.goal] in g.nodes ==> g.nodes[g.nodeID[k.goal]].cls == k.goal
    {
      WantsGraphLines(env, sh, g, k);
    }
    BuildLines(env, sh, g, GraphLines(sh));
    BuiltNodes(env, sh, g);
    BuiltLines(env, sh, g);
  }

  /** In the graph of a traversal no node is barren and every line is fruitful, so `RemoveEmpty` would
      leave it as it is and its cached list in agreement. */
  lemma BuiltHasNoEmpties(env: Env, sh: Shared, g: Graph)
    requires Built(env, sh, g)
    ensures g.Barren() == {} && forall l :: l in g.allLines ==> l in g.Fruitful()
  {
    forall l | l in g.allLines ensures Total(l.queries) != 0 {
      var i :| 0 <= i < |g.allLines| && g.allLines[i] == l;
      assert g.lines[SlotOf(l)] == l;
    }
  }

  lemma CoversKnown(data: Data, env: Env)
    requires Covers(data, env)
    ensures Indexed(data.nodeID, data.Names()) && EndsIndexed(env, data.nodeID) && UidsDistinct(env.lines)
  {
    forall k | k in env.lines ensures k.start in data.nodeID && k.goal in data.nodeID {
      assert data.Holds(data.lines[env.lines[k]].from) && data.Holds(data.lines[env.lines[k]].to);
    }
  }

  // ---- goal search, end to end ------------------------------------------------------------------------

  /** Walks between classes are walks between their IDs. */
  lemma WalkOfIDs(uids: map<LineKey, nat>, ids: map<Class, nat>, keys: set<LineKey>, lines: map<Slot, Line>, a: Class,
                  b: Class)
    requires LinesPlaced(uids, ids, keys, lines) && Reaches(Edges(keys), a, b) && a in ids
    ensures b in ids && Reaches(SlotEdges(lines), ids[a], ids[b])
  {
    var p :| WalkBetween(Edges(keys), p, a, b);
    forall i | 0 <= i < |p| ensures p[i] in ids {
      if i > 0 { assert (p[i - 1], p[i]) in Edges(keys); }
    }
    var q := seq(|p|, i requires 0 <= i < |p| && p[i] in ids => ids[p[i]]);
    forall i | 0 <= i < |q| - 1 ensures (q[i], q[i + 1]) in SlotEdges(lines) {
      assert (p[i], p[i + 1]) in Edges(keys);
      var k :| k in keys && (k.start, k.goal) == (p[i], p[i + 1]);
      var slot := SlotFor(uids, ids, k);
      assert slot in lines && (slot.from, slot.to) == (q[i], q[i + 1]);
    }
    assert WalkBetween(SlotEdges(lines), q, ids[a], ids[b]);
  }

  lemma EdgesOfKept(names: seq<Class>, nodes: map<nat, Node>, lines: map<Slot, Line>, kept: set<nat>)
    requires Wired(names, nodes, lines)
    ensures On(SlotEdges(lines), nodes.Keys)
    ensures SlotEdges(KeptTable(lines, EndsIn(kept))) == Within(SlotEdges(lines), kept)
  {
    var table := KeptTable(lines, EndsIn(kept));
    forall e | e in Within(SlotEdges(lines), kept) ensures e in SlotEdges(table) {
      var s :| s in lines && (s.from, s.to) == e;
      assert s in table;
    }
  }

  /** A walk to a class with an ID starts at one. */
  lemma StartIndexed(uids: map<LineKey, nat>, ids: map<Class, nat>, keys: set<LineKey>, lines: map<Slot, Line>,
                     a: Class, b: Class)
    requires LinesPlaced(uids, ids, keys, lines) && Reaches(Edges(keys), a, b) && b in ids
    ensures a in ids
  {
    var p :| WalkBetween(Edges(keys), p, a, b);
    if |p| > 1 {
      assert (p[0], p[1]) in Edges(keys);
    }
  }

  /** Every node of the result graph is reached from the start class's node. */
  lemma BuiltRooted(env: Env, s: State, g: Graph, i: nat)
    requires ValidEnv(env) && Reachable(env, s) && ShuttingDown(s) && Built(env, s.sh, g) && i in g.nodes
    ensures env.startClass in g.nodeID && g.nodeID[env.startClass] in g.nodes
    ensures Reaches(SlotEdges(g.lines), g.nodeID[env.startClass], i)
  {
    var c := g.nodes[i].cls;
    ResultGraphRooted(env, s, c);
    StartIndexed(env.lines, g.nodeID, GraphLines(s.sh), g.lines, env.startClass, c);
    WalkOfIDs(env.lines, g.nodeID, GraphLines(s.sh), g.lines, env.startClass, c);
  }

  /** If there is any node, `start` is one and reaches them all. */
  ghost predicate RootedAt(nodes: set<nat>, edges: iset<(nat, nat)>, start: nat) {
    forall i :: i in nodes ==> start in nodes && Reaches(edges, start, i)
  }

  lemma BuiltIsRooted(env: Env, s: State, g: Graph)
    requires ValidEnv(env) && Reachable(env, s) && ShuttingDown(s) && Built(env, s.sh, g) && env.startClass in g.nodeID
    ensures RootedAt(g.nodes.Keys, SlotEdges(g.lines), g.nodeID[env.startClass])
  {
    forall i | i in g.nodes
      ensures g.nodeID[env.startClass] in g.nodes && Reaches(SlotEdges(g.lines), g.nodeID[env.startClass], i)
    {
      BuiltRooted(env, s, g, i);
    }
  }

  /** What a pruned graph promises: it is rooted, every node leads to a goal, and it is as pruned as can be. */
  ghost predicate GoalDirected(nodes: set<nat>, edges: iset<(nat, nat)>, start: nat, goals: set<nat>) {
    && RootedAt(nodes, edges, start)
    && (forall i :: i in nodes ==> exists goal :: goal in goals && goal in nodes && Reaches(edges, i, goal))
    && Prune(nodes, edges, goals) == nodes
  }

  lemma PrunedIsDirected(nodes: set<nat>, edges: iset<(nat, nat)>, start: nat, goals: set<nat>)
    requires On(edges, nodes) && goals <= nodes && RootedAt(nodes, edges, start)
    ensures var kept := Prune(nodes, edges, goals);
            GoalDirected(kept, Within(edges, kept), start, goals) && goals <= kept
  {
    var kept := Prune(nodes, edges, goals);
    PruneTwice(nodes, edges, goals);
    forall i | i in kept
      ensures start in kept && Reaches(Within(edges, kept), start, i)
      ensures exists goal :: goal in goals && goal in kept && Reaches(Within(edges, kept), i, goal)
    {
      WalkSurvives(nodes, edges, goals, start, i);
      var goal := GoalSurvives(nodes, edges, goals, i);
    }
  }

  lemma KeptKeys(nodes: map<nat, Node>, kept: set<nat>)
    requires kept <= nodes.Keys
    ensures KeptNodes(nodes, kept).Keys == kept
  {
  }

  lemma PrunedEdges(names: seq<Class>, nodes: map<nat, Node>, lines: map<Slot, Line>, edges: iset<(nat, nat)>,
                    start: nat,
                    goals: set<nat>, kept: set<nat>)
    requires Wired(names, nodes, lines) && goals <= nodes.Keys && RootedAt(nodes.Keys, edges, start)
    requires edges == SlotEdges(lines) && kept == Prune(nodes.Keys, edges, goals)
    ensures GoalDirected(kept, SlotEdges(KeptTable(lines, EndsIn(kept))), start, goals)
    ensures goals <= kept <= nodes.Keys
  {
    EdgesOfKept(names, nodes, lines, kept);
    PrunedIsDirected(nodes.Keys, edges, start, goals);
    assert SlotEdges(KeptTable(lines, EndsIn(kept))) == Within(edges, kept);
  }

  lemma GoalNodes(g: Graph, goals: seq<Class>)
    requires g.Valid() && Indexed(g.nodeID, g.names)
    ensures g.GoalIDs(goals) <= g.nodes.Keys
    ensures forall i :: i in g.GoalIDs(goals) ==> g.nodes[i].result != [] && g.nodes[i].cls in goals
  {
    forall i | i in g.GoalIDs(goals) ensures g.nodes[i].cls in goals {
      var c :| c in goals && c in g.nodeID && g.nodeID[c] == i;
      assert Named(g.names, g.nodes[i]);
    }
  }

  /** Pruning a rooted graph leaves a goal-directed one, and keeps every goal with results. */
  method PruneRooted(g: Graph, ghost start: nat, goals: seq<Class>, between: (nat, nat) -> bool)
    requires g.Valid() && Indexed(g.nodeID, g.names) && RootedAt(g.nodes.Keys, SlotEdges(g.lines), start)
    requires forall u, v :: u in g.nodes && v in g.nodes ==> (between(u, v) <==> Reaches(SlotEdges(g.lines), u, v))
    modifies g`nodes, g`lines, g`allLines
    ensures g.Valid()
    ensures g.nodes == KeptNodes(old(g.nodes), Prune(old(g.nodes.Keys), SlotEdges(old(g.lines)), old(g.GoalIDs(goals))))
    ensures GoalDirected(g.nodes.Keys, SlotEdges(g.lines), start, old(g.GoalIDs(goals)))
    ensures forall i :: i in old(g.GoalIDs(goals)) ==>
              i in g.nodes && g.nodes[i].result != [] && g.nodes[i].cls in goals
  {
    GoalNodes(g, goals);
    ghost var kept := Prune(g.nodes.Keys, SlotEdges(g.lines), g.GoalIDs(goals));
    PrunedEdges(g.names, g.nodes, g.lines, SlotEdges(g.lines), start, g.GoalIDs(goals), kept);
    KeptKeys(g.nodes, kept);
    g.RemoveEmptyGoalPaths(goals, between);
  }

  /** The end of `Goals`: the graph of a finished traversal, pruned, keeps exactly the nodes that could
      reach a goal with results, and each of them lies on a walk from the start class to such a goal
      inside the graph that is left. */
  method PruneToGoals(ghost env: Env, ghost s: State, g: Graph, goals: seq<Class>, between: (nat, nat) -> bool)
    requires ValidEnv(env) && Reachable(env, s) && ShuttingDown(s) && Built(env, s.sh, g) && env.startClass in g.nodeID
    requires forall u, v :: u in g.nodes && v in g.nodes ==> (between(u, v) <==> Reaches(SlotEdges(g.lines), u, v))
    modifies g`nodes, g`lines, g`allLines
    ensures g.Valid()
    ensures g.nodes == KeptNodes(old(g.nodes), Prune(old(g.nodes.Keys), SlotEdges(old(g.lines)), old(g.GoalIDs(goals))))
    ensures GoalDirected(g.nodes.Keys, SlotEdges(g.lines), g.nodeID[env.startClass], old(g.GoalIDs(goals)))
    ensures forall i :: i in old(g.GoalIDs(goals)) ==>
              i in g.nodes && g.nodes[i].result != [] && g.nodes[i].cls in goals
  {
    BuiltIsRooted(env, s, g);
    PruneRooted(g, g.nodeID[env.startClass], goals, between);
  }
}

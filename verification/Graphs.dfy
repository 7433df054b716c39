/** The rule multigraph: topology data with dense IDs, and graphs built on it that keep a cached list
    of their lines beside the multigraph itself. */
module Graphs {
  import opened Correlation
  import opened Queries
  import opened Walks

  /** A class node. A copy shares `id` and `cls` and starts without results or queries; a result node
      is made with the results of a traversal. Nothing changes a node once it is in a graph. */
  class Node {
    const id: nat
    const cls: Class
    const result: seq<Object>
    const queries: map<Query, nat>

    constructor (id: nat, cls: Class, result: seq<Object>, queries: map<Query, nat>)
      ensures this.id == id && this.cls == cls && this.result == result && this.queries == queries
    {
      this.id, this.cls, this.result, this.queries := id, cls, result, queries;
    }
  }

  /** Without results, as a copy starts out. */
  predicate Blank(n: Node) { n.result == [] && n.queries == map[] }

  /** A line between two nodes for a rule, with the counts of the queries it produced. */
  class Line {
    const from: Node
    const to: Node
    const uid: nat
    const rule: Rule
    const queries: map<Query, nat>

    constructor (from: Node, to: Node, uid: nat, rule: Rule, queries: map<Query, nat>)
      ensures this.from == from && this.to == to && this.uid == uid && this.rule == rule && this.queries == queries
    {
      this.from, this.to, this.uid, this.rule, this.queries := from, to, uid, rule, queries;
    }
  }

  /** Where the multigraph keeps a line. */
  datatype Slot = Slot(from: nat, to: nat, uid: nat)

  function SlotOf(l: Line): Slot { Slot(l.from.id, l.to.id, l.uid) }

  /** What a line connects and why. */
  function KeyOfLine(l: Line): LineKey { LineKey(l.from.cls, l.rule, l.to.cls) }

  // ---- topology data ------------------------------------------------------------------------------

  /** A rule with its start and goal classes. */
  datatype RuleDef = RuleDef(name: Rule, starts: seq<Class>, goals: seq<Class>)

  function KeysFrom(start: Class, r: Rule, goals: seq<Class>): (keys: seq<LineKey>)
    ensures |keys| == |goals|
  {
    seq(|goals|, i requires 0 <= i < |goals| => LineKey(start, r, goals[i]))
  }

  /** Every start class with every goal class, starts outermost. */
  function Product(r: Rule, starts: seq<Class>, goals: seq<Class>): seq<LineKey> {
    if starts == [] then [] else KeysFrom(starts[0], r, goals) + Product(r, starts[1..], goals)
  }

  function LineKeys(lines: seq<Line>): (keys: seq<LineKey>)
    ensures |keys| == |lines|
  {
    seq(|lines|, i requires 0 <= i < |lines| => KeyOfLine(lines[i]))
  }

  lemma {:induction false} ProductStep(r: Rule, starts: seq<Class>, goals: seq<Class>, i: nat)
    requires i < |starts|
    ensures Product(r, starts[..i + 1], goals) == Product(r, starts[..i], goals) + KeysFrom(starts[i], r, goals)
    decreases i
  {
    if i == 0 {
      assert starts[..1][1..] == [] && starts[..1] == [starts[0]];
      assert Product(r, starts[..1], goals) == KeysFrom(starts[0], r, goals) + Product(r, [], goals);
    } else {
      assert starts[..i + 1][1..] == starts[1..][..i];
      assert starts[..i][1..] == starts[1..][..i - 1];
      ProductStep(r, starts[1..], goals, i - 1);
    }
  }

  /** Where a table that is `width` wide has column `j` of row `i`. */
  function Cell(i: nat, j: nat, width: nat): nat { i * width + j }

  lemma RowsBefore(i: nat, n: nat)
    requires i > 0
    ensures i * n == n + (i - 1) * n
  {
  }

  lemma {:induction false} ProductSize(r: Rule, starts: seq<Class>, goals: seq<Class>)
    ensures |Product(r, starts, goals)| == |starts| * |goals|
    decreases starts
  {
    if starts != [] {
      ProductSize(r, starts[1..], goals);
      RowsBefore(|starts|, |goals|);
    }
  }

  /** The key of start `i` and goal `j` is in row `i`, column `j`. */
  lemma {:induction false} ProductAt(r: Rule, starts: seq<Class>, goals: seq<Class>, i: nat, j: nat)
    requires i < |starts| && j < |goals|
    ensures var at := Cell(i, j, |goals|);
            at < |Product(r, starts, goals)| && Product(r, starts, goals)[at] == LineKey(starts[i], r, goals[j])
    decreases i
  {
    if i > 0 {
      ProductAt(r, starts[1..], goals, i - 1, j);
      RowsBefore(i, |goals|);
    }
  }

  /** In lines that end with those of a rule, the line from start `i` to goal `j` is where it should be. */
  lemma RuleLineAt(lines: seq<Line>, before: seq<LineKey>, r: RuleDef, i: nat, j: nat)
    requires before + Product(r.name, r.starts, r.goals) <= LineKeys(lines) && i < |r.starts| && j < |r.goals|
    ensures var at := |before| + Cell(i, j, |r.goals|);
            at < |lines| && lines[at].from.cls == r.starts[i] && lines[at].to.cls == r.goals[j]
            && lines[at].rule == r.name
  {
    ProductAt(r.name, r.starts, r.goals, i, j);
    var at := |before| + Cell(i, j, |r.goals|);
    assert LineKeys(lines)[at] == KeyOfLine(lines[at]);
  }

  lemma RuleLinesAt(lines: seq<Line>, before: seq<LineKey>, r: RuleDef, n: nat)
    requires before + Product(r.name, r.starts, r.goals) <= LineKeys(lines) && n == |before|
    ensures forall i, j :: 0 <= i < |r.starts| && 0 <= j < |r.goals| ==>
              var at := n + Cell(i, j, |r.goals|);
              at < |lines| && lines[at].from.cls == r.starts[i] && lines[at].to.cls == r.goals[j]
              && lines[at].rule == r.name
  {
    hide Cell;
    forall i, j | 0 <= i < |r.starts| && 0 <= j < |r.goals|
      ensures var at := n + Cell(i, j, |r.goals|);
              at < |lines| && lines[at].from.cls == r.starts[i] && lines[at].to.cls == r.goals[j]
              && lines[at].rule == r.name
    {
      RuleLineAt(lines, before, r, i, j);
    }
  }

  /** Immutable once built. */
  class Data {
    var nodes: seq<Node>
    var lines: seq<Line>
    var nodeID: map<Class, nat>

    /** Node IDs and line UIDs are positions, classes and IDs correspond one to one, and every line
        joins two of the nodes. */
    ghost predicate Valid()
      reads this
    {
      && (forall i :: 0 <= i < |nodes| ==> nodes[i].id == i && nodes[i].cls in nodeID && nodeID[nodes[i].cls] == i)
      && (forall c :: c in nodeID ==> nodeID[c] < |nodes| && nodes[nodeID[c]].cls == c)
      && (forall i :: 0 <= i < |lines| ==> lines[i].uid == i && Holds(lines[i].from) && Holds(lines[i].to))
    }

    ghost predicate Holds(n: Node)
      reads this
    {
      n.id < |nodes| && nodes[n.id] == n
    }

    /** The class of each node ID. */
    function Names(): (names: seq<Class>)
      reads this
      ensures |names| == |nodes|
    {
      seq(|nodes|, i requires 0 <= i < |nodes| reads this => nodes[i].cls)
    }

    /** `NewData`: the lines are the start by goal products of the rules, in order. */
    constructor (rules: seq<RuleDef>)
      ensures Valid() && LineKeys(lines) == AllKeys(rules) && |lines| == Size(rules)
      ensures forall l :: l in lines ==>
                exists d :: d in rules && l.from.cls in d.starts && l.to.cls in d.goals && l.rule == d.name
      ensures forall d, s, g :: d in rules && s in d.starts && g in d.goals ==>
                exists l :: l in lines && l.from.cls == s && l.to.cls == g && l.rule == d.name
    {
      nodes, lines, nodeID := [], [], map[];
      new;
      for i := 0 to |rules|
        invariant Valid() && LineKeys(lines) == AllKeys(rules[..i])
      {
        AddRule(rules[i]);
        AllKeysStep(rules, i);
      }
      assert rules[..|rules|] == rules;
      AllKeysSize(rules);
      LinesFromRules(lines, rules);
    }

    method AddRule(r: RuleDef)
      requires Valid()
      modifies this
      ensures Valid() && old(lines) <= lines && old(nodes) <= nodes
      ensures LineKeys(lines) == old(LineKeys(lines)) + Product(r.name, r.starts, r.goals)
      ensures |lines| == |old(lines)| + |r.starts| * |r.goals|
      ensures forall i, j :: 0 <= i < |r.starts| && 0 <= j < |r.goals| ==>
                var at := |old(lines)| + Cell(i, j, |r.goals|);
                at < |lines| && lines[at].from.cls == r.starts[i] && lines[at].to.cls == r.goals[j]
                && lines[at].rule == r.name
    {
      hide Cell, LineKeys;
      ghost var before := LineKeys(lines);
      assert before == before + Product(r.name, r.starts[..0], r.goals);
      for i := 0 to |r.starts|
        invariant Valid() && old(lines) <= lines && old(nodes) <= nodes
        invariant LineKeys(lines) == before + Product(r.name, r.starts[..i], r.goals)
      {
        ghost var row := LineKeys(lines);
        for j := 0 to |r.goals|
          invariant Valid() && old(lines) <= lines && old(nodes) <= nodes
          invariant LineKeys(lines) == row + KeysFrom(r.starts[i], r.name, r.goals)[..j]
        {
          AddRuleLine(r.name, r.starts[i], r.goals[j]);
        }
        ProductStep(r.name, r.starts, r.goals, i);
      }
      assert r.starts[..|r.starts|] == r.starts;
      ProductSize(r.name, r.starts, r.goals);
      RuleLinesAt(lines, before, r, |old(lines)|);
    }

    /** One line of a rule, with the next UID, between the nodes of its classes. */
    method AddRuleLine(r: Rule, start: Class, goal: Class)
      requires Valid()
      modifies this
      ensures Valid() && old(nodes) <= nodes && old(lines) <= lines
      ensures LineKeys(lines) == old(LineKeys(lines)) + [LineKey(start, r, goal)]
    {
      var from := AddClass(start);
      var to := AddClass(goal);
      var l := new Line(from, to, |lines|, r, map[]);
      lines := lines + [l];
    }

    /** The node of a class, created with the next ID if it is new. */
    method AddClass(c: Class) returns (n: Node)
      requires Valid()
      modifies this`nodes, this`nodeID
      ensures Valid() && Holds(n) && n.cls == c
      ensures c in old(nodeID) ==> nodes == old(nodes) && nodeID == old(nodeID) && n == nodes[nodeID[c]]
      ensures c !in old(nodeID) ==>
                fresh(n) && n.id == |old(nodes)| && nodes == old(nodes) + [n] && nodeID == old(nodeID)[c := n.id]
    {
      if c in nodeID {
        n := nodes[nodeID[c]];
      } else {
        n := new Node(|nodes|, c, [], map[]);
        nodes := nodes + [n];
        nodeID := nodeID[c := n.id];
      }
    }
  }

  function AllKeys(rules: seq<RuleDef>): seq<LineKey> {
    if rules == [] then []
    else
      var last := rules[|rules| - 1];
      AllKeys(rules[..|rules| - 1]) + Product(last.name, last.starts, last.goals)
  }

  lemma AllKeysStep(rules: seq<RuleDef>, i: nat)
    requires i < |rules|
    ensures AllKeys(rules[..i + 1]) == AllKeys(rules[..i]) + Product(rules[i].name, rules[i].starts, rules[i].goals)
  {
    assert rules[..i + 1][..i] == rules[..i];
  }

  /** How many lines the rules have. */
  function Size(rules: seq<RuleDef>): nat {
    if rules == [] then 0
    else
      var last := rules[|rules| - 1];
      Size(rules[..|rules| - 1]) + |last.starts| * |last.goals|
  }

  lemma {:induction false} AllKeysSize(rules: seq<RuleDef>)
    ensures |AllKeys(rules)| == Size(rules)
    decreases |rules|
  {
    if rules != [] {
      var last := rules[|rules| - 1];
      AllKeysSize(rules[..|rules| - 1]);
      ProductSize(last.name, last.starts, last.goals);
    }
  }

  lemma {:induction false} AllKeysPrefix(rules: seq<RuleDef>, n: nat)
    requires n <= |rules|
    ensures AllKeys(rules[..n]) <= AllKeys(rules)
    decreases |rules| - n
  {
    if n < |rules| {
      AllKeysStep(rules, n);
      AllKeysPrefix(rules, n + 1);
    } else {
      assert rules[..n] == rules;
    }
  }

  lemma AllKeysFrom(rules: seq<RuleDef>, n: nat)
    requires n < |rules|
    ensures AllKeys(rules[..n]) + Product(rules[n].name, rules[n].starts, rules[n].goals) <= AllKeys(rules)
  {
    AllKeysStep(rules, n);
    AllKeysPrefix(rules, n + 1);
  }

  lemma {:induction false} ProductMember(r: Rule, starts: seq<Class>, goals: seq<Class>, k: LineKey)
    ensures k in Product(r, starts, goals) <==> exists s, g :: s in starts && g in goals && k == LineKey(s, r, g)
    decreases starts
  {
    if starts != [] {
      ProductMember(r, starts[1..], goals, k);
      if s, g :| s in starts && g in goals && k == LineKey(s, r, g) {
        var j :| 0 <= j < |goals| && goals[j] == g;
        if s == starts[0] { assert KeysFrom(starts[0], r, goals)[j] == k; } else { assert s in starts[1..]; }
      }
    }
  }

  lemma {:induction false} AllKeysMember(rules: seq<RuleDef>, k: LineKey)
    ensures k in AllKeys(rules) <==>
            exists d, s, g :: d in rules && s in d.starts && g in d.goals && k == LineKey(s, d.name, g)
    decreases |rules|
  {
    if rules != [] {
      var n := |rules| - 1;
      var last := rules[n];
      assert rules == rules[..n] + [last];
      AllKeysMember(rules[..n], k);
      ProductMember(last.name, last.starts, last.goals, k);
    }
  }

  /** The lines connect the starts of each rule to its goals, and nothing else. */
  lemma LinesFromRules(lines: seq<Line>, rules: seq<RuleDef>)
    requires LineKeys(lines) == AllKeys(rules)
    ensures forall l :: l in lines ==>
              exists d :: d in rules && l.from.cls in d.starts && l.to.cls in d.goals && l.rule == d.name
    ensures forall d, s, g :: d in rules && s in d.starts && g in d.goals ==>
              exists l :: l in lines && l.from.cls == s && l.to.cls == g && l.rule == d.name
  {
    hide AllKeys;
    forall l | l in lines
      ensures exists d :: d in rules && l.from.cls in d.starts && l.to.cls in d.goals && l.rule == d.name
    {
      var i :| 0 <= i < |lines| && lines[i] == l;
      assert LineKeys(lines)[i] == KeyOfLine(l);
      AllKeysMember(rules, KeyOfLine(l));
    }
    forall d, s, g | d in rules && s in d.starts && g in d.goals
      ensures exists l :: l in lines && l.from.cls == s && l.to.cls == g && l.rule == d.name
    {
      var k := LineKey(s, d.name, g);
      AllKeysMember(rules, k);
      var i :| 0 <= i < |lines| && LineKeys(lines)[i] == k;
      assert lines[i] in lines && KeyOfLine(lines[i]) == k;
    }
  }

  /** The lines of rule `n` follow those of the rules before it, starts outermost. */
  lemma LinesInOrder(lines: seq<Line>, rules: seq<RuleDef>, n: nat)
    requires LineKeys(lines) == AllKeys(rules) && n < |rules|
    ensures var r := rules[n];
            forall i, j :: 0 <= i < |r.starts| && 0 <= j < |r.goals| ==>
              var at := Size(rules[..n]) + Cell(i, j, |r.goals|);
              at < |lines| && lines[at].from.cls == r.starts[i] && lines[at].to.cls == r.goals[j]
              && lines[at].rule == r.name
  {
    hide Cell, Product, LineKeys, Size;
    AllKeysFrom(rules, n);
    AllKeysSize(rules[..n]);
    RuleLinesAt(lines, AllKeys(rules[..n]), rules[n], Size(rules[..n]));
  }

  // ---- graphs ----------------------------------------------------------------------------------------

  function Kept(lines: seq<Line>, keep: Line -> bool): seq<Line> {
    if lines == [] then []
    else
      var last := lines[|lines| - 1];
      Kept(lines[..|lines| - 1], keep) + (if keep(last) then [last] else [])
  }

  lemma KeptStep(lines: seq<Line>, i: nat, keep: Line -> bool)
    requires i < |lines|
    ensures Kept(lines[..i + 1], keep) == Kept(lines[..i], keep) + (if keep(lines[i]) then [lines[i]] else [])
  {
    assert lines[..i + 1][..i] == lines[..i];
  }

  /** The same line with the same ends by ID and class, under another identity. */
  predicate IsCopy(c: Line, l: Line) {
    SlotOf(c) == SlotOf(l) && KeyOfLine(c) == KeyOfLine(l)
  }

  ghost function SlotEdges(lines: map<Slot, Line>): iset<(nat, nat)> { iset s | s in lines :: (s.from, s.to) }

  ghost predicate Named(names: seq<Class>, n: Node) { n.id < |names| && names[n.id] == n.cls }

  /** Nodes sit at their IDs, lines at their slots, and the ends of a line are the graph's own nodes:
      one shared copy per endpoint. */
  ghost predicate Wired(names: seq<Class>, nodes: map<nat, Node>, lines: map<Slot, Line>) {
    && (forall i :: i in nodes ==> nodes[i].id == i && Named(names, nodes[i]))
    && (forall s :: s in lines ==>
          SlotOf(lines[s]) == s && s.from in nodes && s.to in nodes
          && lines[s].from == nodes[s.from] && lines[s].to == nodes[s.to])
  }

  /** The cached list holds exactly the lines of the multigraph, each once. */
  ghost predicate Agrees(lines: map<Slot, Line>, all: seq<Line>) {
    && (forall i :: 0 <= i < |all| ==> SlotOf(all[i]) in lines && lines[SlotOf(all[i])] == all[i])
    && (forall s :: s in lines ==> SlotOf(lines[s]) == s && lines[s] in all)
    && (forall i, j :: 0 <= i < j < |all| ==> all[i] != all[j])
  }

  /** Adding a line keeps the cache in agreement exactly when no other line has its UID between its ends. */
  lemma AgreesAdd(lines: map<Slot, Line>, all: seq<Line>, l: Line)
    requires Agrees(lines, all)
    ensures Agrees(lines[SlotOf(l) := l], all + [l]) <==> SlotOf(l) !in lines
  {
    var all' := all + [l];
    assert all'[|all|] == l;
    if SlotOf(l) in lines {
      var i :| 0 <= i < |all| && all[i] == lines[SlotOf(l)];
      assert all'[i] == all[i];
      if all[i] == l { assert all'[i] == all'[|all|]; }
    }
  }

  /** The nodes after `SetLine` of the multigraph. */
  function WithEnds(nodes: map<nat, Node>, l: Line): map<nat, Node> { nodes[l.from.id := l.from][l.to.id := l.to] }

  /** The ends of the line are named as the data names them, an end that is a loop is one node, and the
      other lines at its ends end at the same nodes. */
  ghost predicate Joins(names: seq<Class>, lines: map<Slot, Line>, l: Line) {
    && Named(names, l.from) && Named(names, l.to) && (l.from.id == l.to.id ==> l.from == l.to)
    && forall s :: s in lines && s != SlotOf(l) ==>
         && (s.from == l.from.id ==> lines[s].from == l.from) && (s.from == l.to.id ==> lines[s].from == l.to)
         && (s.to == l.from.id ==> lines[s].to == l.from) && (s.to == l.to.id ==> lines[s].to == l.to)
  }

  /** Setting a line keeps one node per endpoint exactly when its ends join up with the other lines. */
  lemma WiredAdd(names: seq<Class>, nodes: map<nat, Node>, lines: map<Slot, Line>, l: Line)
    requires Wired(names, nodes, lines)
    ensures Wired(names, WithEnds(nodes, l), lines[SlotOf(l) := l]) <==> Joins(names, lines, l)
  {
    var nodes', lines' := WithEnds(nodes, l), lines[SlotOf(l) := l];
    if Wired(names, nodes', lines') {
      assert lines'[SlotOf(l)] == l;
      forall s | s in lines && s != SlotOf(l)
        ensures s.from == l.from.id ==> lines[s].from == l.from
        ensures s.from == l.to.id ==> lines[s].from == l.to
        ensures s.to == l.from.id ==> lines[s].to == l.from
        ensures s.to == l.to.id ==> lines[s].to == l.to
      {
        assert lines'[s] == lines[s];
      }
    }
  }

  /** A line between nodes of the graph joins up. */
  lemma OwnEndsJoin(names: seq<Class>, nodes: map<nat, Node>, lines: map<Slot, Line>, l: Line)
    requires Wired(names, nodes, lines)
    requires l.from.id in nodes && nodes[l.from.id] == l.from && l.to.id in nodes && nodes[l.to.id] == l.to
    ensures Joins(names, lines, l) && WithEnds(nodes, l) == nodes
  {
  }

  /** The part of the line table that `keep` accepts. */
  function KeptTable(lines: map<Slot, Line>, keep: Line -> bool): map<Slot, Line> {
    map s | s in lines && keep(lines[s]) :: lines[s]
  }

  lemma {:induction false} KeptFrom(lines: seq<Line>, keep: Line -> bool, l: Line)
    ensures l in Kept(lines, keep) <==> l in lines && keep(l)
  {
    if lines != [] {
      KeptFrom(lines[..|lines| - 1], keep, l);
      assert lines == lines[..|lines| - 1] + [lines[|lines| - 1]];
    }
  }

  /** The lines kept are in the order they were in. */
  lemma {:induction false} KeptInOrder(lines: seq<Line>, keep: Line -> bool, i: nat, j: nat) returns (p: nat, q: nat)
    requires i < j < |Kept(lines, keep)|
    ensures p < q < |lines| && lines[p] == Kept(lines, keep)[i] && lines[q] == Kept(lines, keep)[j]
    decreases |lines|
  {
    var n := |lines| - 1;
    var front := Kept(lines[..n], keep);
    if j < |front| {
      p, q := KeptInOrder(lines[..n], keep, i, j);
    } else {
      KeptFrom(lines[..n], keep, front[i]);
      p :| 0 <= p < n && lines[..n][p] == front[i];
      q := n;
    }
  }

  lemma {:induction false} KeptOnce(lines: seq<Line>, keep: Line -> bool)
    requires forall i, j :: 0 <= i < j < |lines| ==> lines[i] != lines[j]
    ensures var kept := Kept(lines, keep); forall i, j :: 0 <= i < j < |kept| ==> kept[i] != kept[j]
  {
    if lines != [] {
      var front, last := lines[..|lines| - 1], lines[|lines| - 1];
      KeptOnce(front, keep);
      KeptFrom(front, keep, last);
      assert last !in front;
    }
  }

  /** Filtering the cached list and the multigraph alike keeps them in agreement. */
  lemma AgreesKept(lines: map<Slot, Line>, all: seq<Line>, keep: Line -> bool)
    requires Agrees(lines, all)
    ensures Agrees(KeptTable(lines, keep), Kept(all, keep))
  {
    var kept := Kept(all, keep);
    KeptOnce(all, keep);
    forall i | 0 <= i < |kept| ensures SlotOf(kept[i]) in lines && lines[SlotOf(kept[i])] == kept[i] && keep(kept[i]) {
      KeptFrom(all, keep, kept[i]);
      var j :| 0 <= j < |all| && all[j] == kept[i];
    }
    forall s | s in lines && keep(lines[s]) ensures lines[s] in kept { KeptFrom(all, keep, lines[s]); }
  }

  /** Accepts the lines both of whose ends are among `ids`. */
  function EndsIn(ids: set<nat>): Line -> bool { (l: Line) => l.from.id in ids && l.to.id in ids }

  /** Accepts the lines of a set. */
  function Among(lines: set<Line>): Line -> bool { (l: Line) => l in lines }

  function KeptNodes(nodes: map<nat, Node>, ids: set<nat>): map<nat, Node> {
    map i | i in nodes && i in ids :: nodes[i]
  }

  /** The lines kept are those with both ends among the nodes kept. */
  lemma KeptEnds(names: seq<Class>, nodes: map<nat, Node>, lines: map<Slot, Line>, all: seq<Line>, ids: set<nat>)
    requires Wired(names, nodes, lines)
    ensures forall s :: s in KeptTable(lines, EndsIn(ids)) <==> s in lines && s.from in ids && s.to in ids
    ensures forall l :: l in Kept(all, EndsIn(ids)) <==> l in all && l.from.id in ids && l.to.id in ids
  {
    forall l ensures l in Kept(all, EndsIn(ids)) <==> l in all && l.from.id in ids && l.to.id in ids {
      KeptFrom(all, EndsIn(ids), l);
    }
  }

  lemma WiredKept(names: seq<Class>, nodes: map<nat, Node>, lines: map<Slot, Line>, ids: set<nat>)
    requires Wired(names, nodes, lines)
    ensures Wired(names, KeptNodes(nodes, ids), KeptTable(lines, EndsIn(ids)))
  {
  }

  /** The lines left in the multigraph when node `id` goes. */
  function WithoutNode(lines: map<Slot, Line>, id: nat): map<Slot, Line> {
    map s | s in lines && s.from != id && s.to != id :: lines[s]
  }

  lemma RemoveOne(nodes: map<nat, Node>, lines: map<Slot, Line>, ids: set<nat>, id: nat)
    requires forall s :: s in lines ==> SlotOf(lines[s]) == s
    ensures KeptNodes(nodes, ids) - {id} == KeptNodes(nodes, ids - {id})
    ensures WithoutNode(KeptTable(lines, EndsIn(ids)), id) == KeptTable(lines, EndsIn(ids - {id}))
  {
  }

  lemma KeepAll(names: seq<Class>, nodes: map<nat, Node>, lines: map<Slot, Line>)
    requires Wired(names, nodes, lines)
    ensures KeptNodes(nodes, nodes.Keys) == nodes && KeptTable(lines, EndsIn(nodes.Keys)) == lines
  {
  }

  /** A mutable multigraph over shared topology data, with its cached line list. The data never
      changes once built, so a graph keeps its class index. */
  class Graph {
    const nodeID: map<Class, nat>
    ghost const names: seq<Class>
    var nodes: map<nat, Node>
    var lines: map<Slot, Line>
    var allLines: seq<Line>

    ghost predicate Valid()
      reads this
    {
      Wired(names, nodes, lines) && Agrees(lines, allLines)
    }

    constructor (data: Data)
      ensures nodeID == data.nodeID && names == data.Names() && nodes == map[] && lines == map[] && allLines == []
      ensures Valid()
    {
      nodeID, names := data.nodeID, data.Names();
      nodes, lines, allLines := map[], map[], [];
    }

    /** `SetLine` of the multigraph: the line's ends become the nodes at their IDs. */
    method SetLine(l: Line)
      modifies this`nodes, this`lines
      ensures nodes == WithEnds(old(nodes), l) && lines == old(lines)[SlotOf(l) := l]
    {
      nodes := nodes[l.from.id := l.from][l.to.id := l.to];
      lines := lines[SlotOf(l) := l];
    }

    /** The cached list agrees afterwards exactly when the line's UID is fresh between its ends, and the
        graph keeps one node per endpoint exactly when the ends join up with the other lines. */
    method AddLine(l: Line)
      requires Valid()
      modifies this`nodes, this`lines, this`allLines
      ensures nodes == old(nodes)[l.from.id := l.from][l.to.id := l.to]
      ensures lines == old(lines)[Slot(l.from.id, l.to.id, l.uid) := l] && allLines == old(allLines) + [l]
      ensures Agrees(lines, allLines) <==> SlotOf(l) !in old(lines)
      ensures Wired(names, nodes, lines) <==> Joins(names, old(lines), l)
    {
      WiredAdd(names, nodes, lines, l);
      AgreesAdd(lines, allLines, l);
      SetLine(l);
      allLines := allLines + [l];
    }

    /** The graph's copy of a node, made if it has none. */
    method CopyNode(n: Node) returns (c: Node)
      requires Wired(names, nodes, lines) && Named(names, n)
      modifies this`nodes
      ensures Wired(names, nodes, lines) && nodes == old(nodes)[n.id := c] && c.id == n.id && c.cls == n.cls
      ensures n.id in old(nodes) ==> c == old(nodes)[n.id]
      ensures n.id !in old(nodes) ==> fresh(c) && Blank(c)
    {
      if n.id in nodes {
        c := nodes[n.id];
      } else {
        c := new Node(n.id, n.cls, [], map[]);
        nodes := nodes[n.id := c];
      }
    }

    /** The graph's copies of the ends of a line. */
    method CopyEnds(l: Line) returns (from: Node, to: Node)
      requires Wired(names, nodes, lines) && Named(names, l.from) && Named(names, l.to)
      modifies this`nodes
      ensures Wired(names, nodes, lines) && nodes.Keys == old(nodes.Keys) + {l.from.id, l.to.id}
      ensures nodes[l.from.id] == from && from.id == l.from.id && from.cls == l.from.cls
      ensures nodes[l.to.id] == to && to.id == l.to.id && to.cls == l.to.cls
      ensures forall i :: i in nodes ==>
                if i in old(nodes) then nodes[i] == old(nodes)[i] else fresh(nodes[i]) && Blank(nodes[i])
    {
      hide Wired;
      from := CopyNode(l.from);
      to := CopyNode(l.to);
    }

    /** The cached list agrees afterwards exactly when the graph had no copy of the line. */
    method CopyLine(l: Line) returns (c: Line)
      requires Valid() && Named(names, l.from) && Named(names, l.to)
      modifies this`nodes, this`lines, this`allLines
      ensures Wired(names, nodes, lines) && (Agrees(lines, allLines) <==> SlotOf(l) !in old(lines))
      ensures fresh(c) && IsCopy(c, l) && c.queries == map[]
      ensures c.uid == l.uid && c.rule == l.rule && c.from.id == l.from.id && c.to.id == l.to.id
      ensures c.from.cls == l.from.cls && c.to.cls == l.to.cls
      ensures lines == old(lines)[SlotOf(l) := c] && allLines == old(allLines) + [c]
      ensures nodes.Keys == old(nodes.Keys) + {l.from.id, l.to.id}
      ensures forall i :: i in nodes ==>
                if i in old(nodes) then nodes[i] == old(nodes)[i] else fresh(nodes[i]) && Blank(nodes[i])
    {
      hide Agrees, Wired, Joins;
      var from, to := CopyEnds(l);
      c := new Line(from, to, l.uid, l.rule, map[]);
      OwnEndsJoin(names, nodes, lines, c);
      AddLine(c);
    }

    /** `RemoveNode` of the multigraph takes the node's lines with it, but not from the cached list. */
    method RemoveNode(id: nat)
      modifies this`nodes, this`lines
      ensures nodes == old(nodes) - {id} && lines == WithoutNode(old(lines), id)
    {
      nodes := nodes - {id};
      lines := WithoutNode(lines, id);
    }

    /** The IDs of the goal classes that have a node with results. */
    function GoalIDs(goals: seq<Class>): set<nat>
      reads this
    {
      set c | c in goals && c in nodeID && nodeID[c] in nodes && nodes[nodeID[c]].result != [] :: nodeID[c]
    }

    /** Removes the nodes in `ids`, in any order. */
    method RemoveNodes(ids: set<nat>)
      requires Wired(names, nodes, lines)
      modifies this`nodes, this`lines
      ensures nodes == KeptNodes(old(nodes), old(nodes.Keys) - ids)
      ensures lines == KeptTable(old(lines), EndsIn(old(nodes.Keys) - ids))
      ensures Wired(names, nodes, lines)
    {
      ghost var nodes0, lines0 := nodes, lines;
      KeepAll(names, nodes, lines);
      var rest := ids;
      ghost var left := nodes.Keys;
      while rest != {}
        invariant rest <= ids && left == nodes0.Keys - (ids - rest)
        invariant nodes == KeptNodes(nodes0, left) && lines == KeptTable(lines0, EndsIn(left))
        decreases rest
      {
        var id :| id in rest;
        RemoveOne(nodes0, lines0, left, id);
        RemoveNode(id);
        rest, left := rest - {id}, left - {id};
      }
      assert left == nodes0.Keys - ids;
      WiredKept(names, nodes0, lines0, left);
    }

    /** Removes the nodes that reach no goal with results, and their lines. `between` is the library's
        all-pairs search: whether it finds a path. */
    method RemoveEmptyGoalPaths(goals: seq<Class>, between: (nat, nat) -> bool)
      requires Valid()
      requires forall u, v :: u in nodes && v in nodes ==> (between(u, v) <==> Reaches(SlotEdges(lines), u, v))
      modifies this`nodes, this`lines, this`allLines
      ensures Valid()
      ensures nodes == KeptNodes(old(nodes), Prune(old(nodes.Keys), SlotEdges(old(lines)), old(GoalIDs(goals))))
      ensures lines == KeptTable(old(lines), EndsIn(nodes.Keys)) && allLines == Kept(old(allLines), EndsIn(nodes.Keys))
      ensures forall i :: i in nodes <==>
                i in old(nodes)
                && exists c :: c in goals && c in nodeID && nodeID[c] in old(nodes)
                               && old(nodes)[nodeID[c]].result != []
                               && Reaches(SlotEdges(old(lines)), i, nodeID[c])
      ensures forall s :: s in lines <==> s in old(lines) && s.from in nodes && s.to in nodes
      ensures forall l :: l in allLines <==> l in old(allLines) && l.from.id in nodes && l.to.id in nodes
    {
      hide Agrees, Wired, Kept, KeptTable;
      var goalIDs: set<nat> := {};
      for i := 0 to |goals|
        invariant goalIDs == GoalIDs(goals[..i])
      {
        if goals[i] in nodeID && nodeID[goals[i]] in nodes && nodes[nodeID[goals[i]]].result != [] {
          goalIDs := goalIDs + {nodeID[goals[i]]};
        }
      }
      assert goals[..|goals|] == goals;
      var dead := set n | n in nodes && !exists g :: g in goalIDs && between(n, g);
      ghost var kept := Prune(nodes.Keys, SlotEdges(lines), goalIDs);
      assert nodes.Keys - dead == kept;
      AgreesKept(lines, allLines, EndsIn(kept));
      RemoveNodes(dead);
      assert nodes.Keys == kept;
      allLines := Kept(allLines, EndsIn(nodes.Keys));
      KeptEnds(names, old(nodes), old(lines), old(allLines), kept);
    }

    /** The lines whose queries found something. */
    ghost function Fruitful(): set<Line>
      reads this
    {
      set l | l in allLines && Total(l.queries) != 0
    }

    /** The nodes without results. */
    function Barren(): set<nat>
      reads this
    {
      set i | i in nodes && nodes[i].result == []
    }

    /** Drops the fruitless lines from the multigraph and from the cached list. */
    method RemoveEmptyLines()
      requires Valid()
      modifies this`lines, this`allLines
      ensures Valid()
      ensures allLines == Kept(old(allLines), Among(old(Fruitful())))
      ensures lines == KeptTable(old(lines), Among(old(Fruitful())))
    {
      hide Agrees, Wired, Sifted, Kept, KeptTable;
      ghost var fruitful, table, all := Fruitful(), lines, allLines;
      var kept: seq<Line> := [];
      SiftedNone(table, all, fruitful);
      for i := 0 to |allLines|
        invariant allLines == all && kept == Kept(all[..i], Among(fruitful))
        invariant lines == Sifted(table, all[..i], fruitful)
      {
        KeptStep(all, i, Among(fruitful));
        SiftOne(table, all, i, fruitful);
        assert all[i] in fruitful <==> Total(all[i].queries) != 0;
        var total := SumCounts(allLines[i].queries);
        if total == 0 {
          lines := lines - {SlotOf(allLines[i])};
        } else {
          kept := kept + [allLines[i]];
        }
      }
      assert all[..|all|] == all;
      allLines := kept;
      SiftedAll(table, all, fruitful);
      AgreesKept(table, all, Among(fruitful));
      WiredSubset(names, nodes, table, Among(fruitful));
    }

    /** `RemoveEmpty` drops fruitless lines and barren nodes. The cached list still agrees afterwards
        exactly when no fruitful line ends at a barren node. */
    method RemoveEmpty()
      requires Valid()
      modifies this`nodes, this`lines, this`allLines
      ensures Wired(names, nodes, lines)
      ensures nodes == KeptNodes(old(nodes), old(nodes.Keys) - old(Barren()))
      ensures allLines == Kept(old(allLines), Among(old(Fruitful())))
      ensures lines == KeptTable(KeptTable(old(lines), Among(old(Fruitful()))), EndsIn(old(nodes.Keys) - old(Barren())))
      ensures Agrees(lines, allLines) <==>
                forall l :: l in old(Fruitful()) ==> l.from.id !in old(Barren()) && l.to.id !in old(Barren())
      ensures forall i :: i in nodes <==> i in old(nodes) && old(nodes)[i].result != []
      ensures forall l :: l in allLines <==> l in old(allLines) && exists q :: q in l.queries && l.queries[q] > 0
      ensures forall s :: s in lines <==>
                s in old(lines) && s.from in nodes && s.to in nodes
                && exists q :: q in old(lines)[s].queries && old(lines)[s].queries[q] > 0
    {
      hide Agrees, Kept;
      ghost var fruitful, all, table := Fruitful(), allLines, lines;
      var barren := Barren();
      RemoveEmptyLines();
      ghost var sifted := lines;
      RemoveNodes(barren);
      AgreesAfterRemoval(old(nodes.Keys) - barren, sifted, allLines);
      FruitfulEnds(table, all, fruitful, old(nodes.Keys), barren);
      FruitfulLines(table, all, fruitful);
    }
  }

  /** The fruitful lines are those some query of which found something. */
  lemma FruitfulLines(table: map<Slot, Line>, all: seq<Line>, fruitful: set<Line>)
    requires Agrees(table, all) && fruitful == set l | l in all && Total(l.queries) != 0
    ensures forall l :: l in Kept(all, Among(fruitful)) <==> l in all && exists q :: q in l.queries && l.queries[q] > 0
    ensures forall s :: s in KeptTable(table, Among(fruitful)) <==>
              s in table && exists q :: q in table[s].queries && table[s].queries[q] > 0
  {
    forall l ensures l in fruitful <==> l in all && exists q :: q in l.queries && l.queries[q] > 0 {
      PositiveTotal(l.queries);
    }
    forall l ensures l in Kept(all, Among(fruitful)) <==> l in fruitful { KeptFrom(all, Among(fruitful), l); }
  }

  lemma FruitfulEnds(table: map<Slot, Line>, all: seq<Line>, fruitful: set<Line>, ids: set<nat>, barren: set<nat>)
    requires Agrees(table, all) && fruitful <= (set l | l in all)
    requires forall s :: s in table ==> s.from in ids && s.to in ids
    ensures (forall l :: l in Kept(all, Among(fruitful)) ==> l.from.id in ids - barren && l.to.id in ids - barren)
            <==> (forall l :: l in fruitful ==> l.from.id !in barren && l.to.id !in barren)
  {
    var kept := Kept(all, Among(fruitful));
    forall l | l in fruitful ensures l.from.id in ids && l.to.id in ids {
      var i :| 0 <= i < |all| && all[i] == l;
      assert SlotOf(all[i]) in table;
    }
    if forall l :: l in kept ==> l.from.id in ids - barren && l.to.id in ids - barren {
      forall l | l in fruitful ensures l.from.id !in barren && l.to.id !in barren { KeptFrom(all, Among(fruitful), l); }
    }
    if forall l :: l in fruitful ==> l.from.id !in barren && l.to.id !in barren {
      forall l | l in kept ensures l.from.id in ids - barren && l.to.id in ids - barren {
        KeptFrom(all, Among(fruitful), l);
      }
    }
  }

  /** The line table after the fruitless lines of `done` have been removed. */
  function Sifted(table: map<Slot, Line>, done: seq<Line>, fruitful: set<Line>): map<Slot, Line> {
    map s | s in table && (table[s] in fruitful || table[s] !in done) :: table[s]
  }

  lemma SiftedNone(table: map<Slot, Line>, all: seq<Line>, fruitful: set<Line>)
    ensures Sifted(table, all[..0], fruitful) == table && Kept(all[..0], Among(fruitful)) == []
  {
  }

  lemma SiftOne(table: map<Slot, Line>, all: seq<Line>, i: nat, fruitful: set<Line>)
    requires Agrees(table, all) && i < |all|
    ensures all[i] in fruitful ==> Sifted(table, all[..i + 1], fruitful) == Sifted(table, all[..i], fruitful)
    ensures all[i] !in fruitful ==>
              Sifted(table, all[..i + 1], fruitful) == Sifted(table, all[..i], fruitful) - {SlotOf(all[i])}
  {
    assert all[..i + 1] == all[..i] + [all[i]];
    assert table[SlotOf(all[i])] == all[i];
  }

  lemma SiftedAll(table: map<Slot, Line>, all: seq<Line>, fruitful: set<Line>)
    requires Agrees(table, all)
    ensures Sifted(table, all, fruitful) == KeptTable(table, Among(fruitful))
  {
  }

  lemma WiredSubset(names: seq<Class>, nodes: map<nat, Node>, lines: map<Slot, Line>, keep: Line -> bool)
    requires Wired(names, nodes, lines)
    ensures Wired(names, nodes, KeptTable(lines, keep))
  {
  }

  /** Taking nodes out of the multigraph alone leaves the cached list in agreement exactly when no
      cached line ended at one of them. */
  lemma AgreesAfterRemoval(ids: set<nat>, lines: map<Slot, Line>, all: seq<Line>)
    requires Agrees(lines, all)
    ensures Agrees(KeptTable(lines, EndsIn(ids)), all) <==> forall l :: l in all ==> l.from.id in ids && l.to.id in ids
  {
    var table := KeptTable(lines, EndsIn(ids));
    if Agrees(table, all) {
      forall l | l in all ensures l.from.id in ids && l.to.id in ids {
        var i :| 0 <= i < |all| && all[i] == l;
        assert SlotOf(all[i]) in table;
      }
    }
    if forall l :: l in all ==> l.from.id in ids && l.to.id in ids {
      assert table == lines;
    }
  }

  /** Copies of `originals`, in order. */
  ghost predicate AreCopies(copies: seq<Line>, originals: seq<Line>) {
    |copies| == |originals| && forall i :: 0 <= i < |copies| ==> IsCopy(copies[i], originals[i])
  }

  /** Copies have the UIDs, rules and ends of their originals. */
  lemma CopiesMatch(copies: seq<Line>, originals: seq<Line>)
    requires AreCopies(copies, originals)
    ensures |copies| == |originals|
    ensures forall i :: 0 <= i < |copies| ==>
              var c, l := copies[i], originals[i];
              c.uid == l.uid && c.rule == l.rule && c.from.id == l.from.id && c.to.id == l.to.id
              && c.from.cls == l.from.cls && c.to.cls == l.to.cls
  {
  }

  /** A line of a graph has a slot that no kept line before it has. */
  lemma SlotIsNew(lines: map<Slot, Line>, all: seq<Line>, i: nat, keep: Line -> bool, l: Line)
    requires Agrees(lines, all) && i < |all| && l in Kept(all[..i], keep)
    ensures SlotOf(all[i]) != SlotOf(l)
  {
    KeptFrom(all[..i], keep, l);
    var j :| 0 <= j < |all[..i]| && all[..i][j] == l;
    assert all[j] != all[i] && lines[SlotOf(all[j])] == all[j];
  }

  /** So the slot is free in a graph that holds copies of those. */
  lemma SlotIsFree(lines: map<Slot, Line>, copies: seq<Line>, originals: seq<Line>, l: Line)
    requires Agrees(lines, copies) && AreCopies(copies, originals)
    requires forall o :: o in originals ==> SlotOf(o) != SlotOf(l)
    ensures SlotOf(l) !in lines
  {
    forall i | 0 <= i < |copies| ensures SlotOf(copies[i]) != SlotOf(l) {
      assert IsCopy(copies[i], originals[i]) && originals[i] in originals;
    }
  }

  /** Every node is an end of a line. */
  ghost predicate NoStrays(nodes: map<nat, Node>, all: seq<Line>) {
    forall id :: id in nodes ==> exists i :: 0 <= i < |all| && (all[i].from.id == id || all[i].to.id == id)
  }

  lemma NoStraysAdd(nodes: map<nat, Node>, nodes': map<nat, Node>, all: seq<Line>, l: Line)
    requires NoStrays(nodes, all) && nodes'.Keys == nodes.Keys + {l.from.id, l.to.id}
    ensures NoStrays(nodes', all + [l])
  {
    var all' := all + [l];
    forall id | id in nodes' ensures exists i :: 0 <= i < |all'| && (all'[i].from.id == id || all'[i].to.id == id) {
      if id in nodes {
        var i :| 0 <= i < |all| && (all[i].from.id == id || all[i].to.id == id);
        assert all'[i] == all[i];
      } else {
        assert all'[|all|] == l;
      }
    }
  }

  /** A new graph with copies of exactly the lines that `keep` accepts, in order, with their UIDs, and
      with no nodes but their endpoints. */
  method Select(g: Graph, data: Data, keep: Line -> bool) returns (sub: Graph)
    requires g.Valid() && g.names == data.Names()
    ensures fresh(sub) && sub.Valid() && sub.names == g.names
    ensures AreCopies(sub.allLines, Kept(g.allLines, keep)) && NoStrays(sub.nodes, sub.allLines)
    ensures forall l :: l in sub.allLines ==> fresh(l) && l.queries == map[]
  {
    var all := g.allLines;
    sub := new Graph(data);
    ghost var made: set<Line> := {};
    for i := 0 to |all|
      invariant fresh(sub) && sub.Valid() && sub.names == g.names
      invariant AreCopies(sub.allLines, Kept(all[..i], keep)) && NoStrays(sub.nodes, sub.allLines)
      invariant fresh(made) && forall l :: l in sub.allLines ==> l in made && l.queries == map[]
    {
      KeptStep(all, i, keep);
      if keep(all[i]) {
        var c := CopyKept(g.lines, all, i, keep, sub);
        made := made + {c};
      }
    }
    assert all[..|all|] == all;
  }

  method CopyKept(ghost lines: map<Slot, Line>, all: seq<Line>, i: nat, ghost keep: Line -> bool, sub: Graph)
    returns (c: Line)
    requires Agrees(lines, all) && i < |all| && Named(sub.names, all[i].from) && Named(sub.names, all[i].to)
    requires sub.Valid() && AreCopies(sub.allLines, Kept(all[..i], keep)) && NoStrays(sub.nodes, sub.allLines)
    modifies sub
    ensures sub.Valid() && NoStrays(sub.nodes, sub.allLines) && sub.allLines == old(sub.allLines) + [c]
    ensures fresh(c) && c.queries == map[]
    ensures AreCopies(sub.allLines, Kept(all[..i], keep) + [all[i]])
  {
    hide Wired, Joins, NoStrays;
    var l := all[i];
    forall o | o in Kept(all[..i], keep) ensures SlotOf(o) != SlotOf(l) { SlotIsNew(lines, all, i, keep, o); }
    SlotIsFree(sub.lines, sub.allLines, Kept(all[..i], keep), l);
    ghost var nodes, before := sub.nodes, sub.allLines;
    c := sub.CopyLine(l);
    NoStraysAdd(nodes, sub.nodes, before, c);
  }

  // ---- where the cached list goes wrong -------------------------------------------------------------------

  /** An empty graph over the one line of a rule. */
  method OneRule(r: Rule, start: Class, goal: Class) returns (g: Graph, l: Line)
    ensures g.Valid() && g.nodes == map[] && g.lines == map[] && g.allLines == []
    ensures fresh(g) && Named(g.names, l.from) && Named(g.names, l.to) && (l.from.id == l.to.id ==> l.from == l.to)
  {
    var data := new Data([RuleDef(r, [start], [goal])]);
    OneLine(data, RuleDef(r, [start], [goal]));
    l := data.lines[0];
    g := new Graph(data);
  }

  /** A line added twice is cached twice. */
  method AddLineTwice(r: Rule, start: Class, goal: Class) returns (g: Graph)
    ensures Wired(g.names, g.nodes, g.lines) && !Agrees(g.lines, g.allLines)
  {
    var l: Line;
    g, l := OneRule(r, start, goal);
    g.AddLine(l);
    assert g.Valid() && SlotOf(l) in g.lines;
    g.AddLine(l);
  }

  /** A line with results between nodes without any survives in the cached list alone. */
  method RemoveBarrenEnds(r: Rule, start: Class, goal: Class, q: Query) returns (g: Graph)
    ensures Wired(g.names, g.nodes, g.lines) && !Agrees(g.lines, g.allLines)
  {
    var one: Line;
    g, one := OneRule(r, start, goal);
    var from, to := g.CopyEnds(one);
    var l := new Line(from, to, 0, r, map[q := 1]);
    OwnEndsJoin(g.names, g.nodes, g.lines, l);
    g.AddLine(l);
    TotalAdd(map[], q, 1);
    assert l.queries == map[][q := 1] && l in g.allLines;
    assert l in g.Fruitful();
    g.RemoveEmpty();
  }

  lemma OneLine(data: Data, r: RuleDef)
    requires data.Valid() && LineKeys(data.lines) == AllKeys([r]) && |r.starts| == |r.goals| == 1
    ensures |data.lines| == 1 && Named(data.Names(), data.lines[0].from) && Named(data.Names(), data.lines[0].to)
    ensures var l := data.lines[0]; l.from.id == l.to.id ==> l.from == l.to
  {
    assert AllKeys([r]) == AllKeys([]) + Product(r.name, r.starts, r.goals);
    assert Product(r.name, r.starts, r.goals) == KeysFrom(r.starts[0], r.name, r.goals) + [];
    assert data.Holds(data.lines[0].from) && data.Holds(data.lines[0].to);
  }
}

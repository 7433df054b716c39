/** Reachability by walks in a directed graph. */
module Walks {

  ghost predicate IsWalk<V>(edges: iset<(V, V)>, p: seq<V>) {
    |p| > 0 && forall i :: 0 <= i < |p| - 1 ==> (p[i], p[i + 1]) in edges
  }

  ghost predicate WalkBetween<V>(edges: iset<(V, V)>, p: seq<V>, u: V, v: V) {
    IsWalk(edges, p) && p[0] == u && p[|p| - 1] == v
  }

  /** Some walk, possibly of no steps, leads from `u` to `v`. */
  ghost predicate Reaches<V(!new)>(edges: iset<(V, V)>, u: V, v: V) {
    exists p :: WalkBetween(edges, p, u, v)
  }

  lemma ReachesSelf<V(!new)>(edges: iset<(V, V)>, u: V)
    ensures Reaches(edges, u, u)
  {
    assert WalkBetween(edges, [u], u, u);
  }

  lemma JoinWalks<V(!new)>(edges: iset<(V, V)>, p: seq<V>, q: seq<V>, u: V, v: V, w: V)
    requires WalkBetween(edges, p, u, v) && WalkBetween(edges, q, v, w)
    ensures WalkBetween(edges, p + q[1..], u, w)
  {
    var r := p + q[1..];
    forall i | 0 <= i < |r| - 1 ensures (r[i], r[i + 1]) in edges {
      if i < |p| - 1 {
        assert (p[i], p[i + 1]) in edges;
      } else {
        var j := i - (|p| - 1);
        assert r[i] == q[j] && r[i + 1] == q[j + 1];
      }
    }
  }

  lemma ReachesJoin<V(!new)>(edges: iset<(V, V)>, u: V, v: V, w: V)
    requires Reaches(edges, u, v) && Reaches(edges, v, w)
    ensures Reaches(edges, u, w)
  {
    var p :| WalkBetween(edges, p, u, v);
    var q :| WalkBetween(edges, q, v, w);
    JoinWalks(edges, p, q, u, v, w);
  }

  lemma ReachesStep<V(!new)>(edges: iset<(V, V)>, u: V, v: V, w: V)
    requires Reaches(edges, u, v) && (v, w) in edges
    ensures Reaches(edges, u, w)
  {
    assert WalkBetween(edges, [v, w], v, w);
    ReachesJoin(edges, u, v, w);
  }

  /** Every point of a walk is reached from its start and reaches its end. */
  lemma AlongWalk<V(!new)>(edges: iset<(V, V)>, p: seq<V>, i: nat)
    requires IsWalk(edges, p) && i < |p|
    ensures Reaches(edges, p[0], p[i]) && Reaches(edges, p[i], p[|p| - 1])
  {
    assert WalkBetween(edges, p[..i + 1], p[0], p[i]);
    assert WalkBetween(edges, p[i..], p[i], p[|p| - 1]);
  }

  // ---- pruning -------------------------------------------------------------------------------------

  /** The nodes from which some goal is reached. */
  ghost function Prune<V(!new)>(nodes: set<V>, edges: iset<(V, V)>, goals: set<V>): set<V> {
    set v | v in nodes && exists g :: g in goals && Reaches(edges, v, g)
  }

  /** The edges between nodes of `keep`. */
  ghost function Within<V(!new)>(edges: iset<(V, V)>, keep: set<V>): iset<(V, V)> {
    iset e | e in edges && e.0 in keep && e.1 in keep
  }

  /** Every edge joins two nodes. */
  ghost predicate On<V(!new)>(edges: iset<(V, V)>, nodes: set<V>) {
    forall e :: e in edges ==> e.0 in nodes && e.1 in nodes
  }

  /** A walk to a node that reaches a goal stays inside the pruned graph. */
  lemma WalkSurvives<V(!new)>(nodes: set<V>, edges: iset<(V, V)>, goals: set<V>, u: V, v: V)
    requires On(edges, nodes) && u in nodes && v in Prune(nodes, edges, goals) && Reaches(edges, u, v)
    ensures u in Prune(nodes, edges, goals) && Reaches(Within(edges, Prune(nodes, edges, goals)), u, v)
  {
    var kept := Prune(nodes, edges, goals);
    var g :| g in goals && Reaches(edges, v, g);
    var p :| WalkBetween(edges, p, u, v);
    forall i | 0 <= i < |p| ensures p[i] in kept {
      AlongWalk(edges, p, i);
      ReachesJoin(edges, p[i], v, g);
      if i > 0 { assert (p[i - 1], p[i]) in edges; }
    }
    assert WalkBetween(Within(edges, kept), p, u, v);
  }

  /** Every node that is left still reaches a goal, inside the pruned graph. */
  lemma GoalSurvives<V(!new)>(nodes: set<V>, edges: iset<(V, V)>, goals: set<V>, v: V) returns (g: V)
    requires On(edges, nodes) && goals <= nodes && v in Prune(nodes, edges, goals)
    ensures g in goals && g in Prune(nodes, edges, goals) && Reaches(Within(edges, Prune(nodes, edges, goals)), v, g)
  {
    g :| g in goals && Reaches(edges, v, g);
    ReachesSelf(edges, g);
    WalkSurvives(nodes, edges, goals, v, g);
  }

  /** Pruning a pruned graph changes nothing. */
  lemma PruneTwice<V(!new)>(nodes: set<V>, edges: iset<(V, V)>, goals: set<V>)
    requires On(edges, nodes) && goals <= nodes
    ensures var kept := Prune(nodes, edges, goals);
            goals <= kept && Prune(kept, Within(edges, kept), goals) == kept
  {
    var kept := Prune(nodes, edges, goals);
    forall g | g in goals ensures g in kept { ReachesSelf(edges, g); }
    forall v | v in kept ensures exists g :: g in goals && Reaches(Within(edges, kept), v, g) {
      var g := GoalSurvives(nodes, edges, goals, v);
    }
  }
}

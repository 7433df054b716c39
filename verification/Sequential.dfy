/** The traversal run by one worker that starts after priming: plain sequential code. It is an exact
    breadth-first search over derivations. */
module Sequential {
  import opened Correlation
  import opened Queries
  import opened Protocol
  import opened Simulation

  /** An unbounded FIFO queue. */
  class WorkQueue {
    var items: seq<Item>
    var closed: bool

    constructor ()
      ensures items == [] && !closed
    {
      items, closed := [], false;
    }

    method Put(it: Item)
      modifies this`items
      ensures items == old(items) + [it]
    {
      items := items + [it];
    }

    /** With nobody else to put items, `Get` may be called only when it need not wait. */
    method Get() returns (it: Option<Item>)
      requires items != [] || closed
      modifies this`items
      ensures old(items) == [] ==> it == None && items == []
      ensures old(items) != [] ==> it == Some(old(items)[0]) && items == old(items)[1..]
    {
      if items == [] { return None; }
      it := Some(items[0]);
      items := items[1..];
    }

    method Close()
      modifies this`closed
      ensures closed
    {
      closed := true;
    }
  }

  // ---- what the search knows ----------------------------------------------------------------------

  /** The depth each query was admitted at, the depth each object was fetched at, and the depth of the
      item being handled. */
  datatype Levels = Levels(depthOf: map<Query, nat>, labels: map<Class, seq<nat>>, level: nat)

  /** Queued depths are in order and span at most one level beyond the current one. */
  ghost predicate QueueOk(env: Env, queue: seq<Item>, lv: Levels) {
    && (forall i :: 0 <= i < |queue| ==>
          ItemOk(env, queue[i]) && queue[i].query in lv.depthOf && lv.depthOf[queue[i].query] == queue[i].depth
          && lv.level <= queue[i].depth <= lv.level + 1)
    && (forall i, j :: 0 <= i < j < |queue| ==> queue[i].depth <= queue[j].depth)
  }

  /** Every admitted query is derivable at its depth, which is within the limit. */
  ghost predicate DepthsOk(env: Env, lv: Levels) {
    && !TooDeep(env, lv.level)
    && forall q :: q in lv.depthOf ==>
      lv.depthOf[q] <= lv.level + 1 && !TooDeep(env, lv.depthOf[q]) && DerivedQuery(env, q, lv.depthOf[q])
  }

  /** Every object is derivable at the depth it was fetched at. */
  ghost predicate LabelsOk(env: Env, nodes: map<Class, NodeState>, lv: Levels) {
    && lv.labels.Keys == nodes.Keys
    && forall c :: c in nodes ==>
         && |lv.labels[c]| == |nodes[c].result|
         && forall i :: 0 <= i < |lv.labels[c]| ==>
              lv.labels[c][i] <= lv.level && DerivedObject(env, c, nodes[c].result[i], lv.labels[c][i])
  }

  predicate Queued(queue: seq<Item>, q: Query) { exists i :: 0 <= i < |queue| && queue[i].query == q }

  /** An object with this key was fetched no deeper than `d`. */
  predicate HasBy(env: Env, c: Class, list: seq<Object>, labels: seq<nat>, key: Key, d: nat)
    requires |list| == |labels|
  {
    exists i :: 0 <= i < |list| && KeyOf(env, c, list[i]) == key && labels[i] <= d
  }

  ghost predicate Fetched(env: Env, nodes: map<Class, NodeState>, lv: Levels, q: Query) {
    && q.cls in nodes && q.cls in lv.labels && q in lv.depthOf && |lv.labels[q.cls]| == |nodes[q.cls].result|
    && forall o :: o in env.get(q) ==>
         HasBy(env, q.cls, nodes[q.cls].result, lv.labels[q.cls], KeyOf(env, q.cls, o), lv.depthOf[q])
  }

  /** Every admitted query is queued or its results are in. */
  ghost predicate FetchedOk(env: Env, queue: seq<Item>, nodes: map<Class, NodeState>, lv: Levels) {
    forall q :: q in lv.depthOf ==> Queued(queue, q) || Fetched(env, nodes, lv, q)
  }

  /** All queries that follow from object `i` of class `c` within the depth limit were admitted, no
      deeper than one below the object. */
  ghost predicate Expanded(env: Env, nodes: map<Class, NodeState>, lv: Levels, c: Class, i: nat)
    requires LabelsOk(env, nodes, lv) && c in nodes && i < |nodes[c].result|
  {
    forall r, q :: Follows(env, c, nodes[c].result[i], r, q) && !TooDeep(env, lv.labels[c][i] + 1) ==>
      q in lv.depthOf && lv.depthOf[q] <= lv.labels[c][i] + 1
  }

  ghost predicate ExpandedOk(env: Env, nodes: map<Class, NodeState>, lv: Levels) {
    && LabelsOk(env, nodes, lv)
    && forall c, i :: c in nodes && 0 <= i < nodes[c].processed && i < |nodes[c].result| ==>
         Expanded(env, nodes, lv, c, i)
  }

  /** Admissions since `lv0`: nothing forgotten, and what is new is queued behind, at depth `d`. */
  ghost predicate Progress(queue0: seq<Item>, lv0: Levels, queue: seq<Item>, lv: Levels, d: nat) {
    && lv.labels == lv0.labels && lv.level == lv0.level
    && queue0 <= queue && (forall i :: |queue0| <= i < |queue| ==> queue[i].query !in lv0.depthOf)
    && (forall q :: q in lv0.depthOf ==> q in lv.depthOf && lv.depthOf[q] == lv0.depthOf[q])
    && (forall q :: q in lv.depthOf && q !in lv0.depthOf ==> Queued(queue, q) && lv.depthOf[q] == d)
  }

  lemma QueuedStays(queue0: seq<Item>, queue: seq<Item>, q: Query)
    requires queue0 <= queue && Queued(queue0, q)
    ensures Queued(queue, q)
  {
    var i :| 0 <= i < |queue0| && queue0[i].query == q;
    assert queue[i].query == q;
  }

  lemma ProgressJoin(q0: seq<Item>, lv0: Levels, q1: seq<Item>, lv1: Levels, q2: seq<Item>, lv2: Levels, d: nat)
    requires Progress(q0, lv0, q1, lv1, d) && Progress(q1, lv1, q2, lv2, d)
    ensures Progress(q0, lv0, q2, lv2, d)
  {
    forall q | q in lv2.depthOf && q !in lv0.depthOf ensures Queued(q2, q) && lv2.depthOf[q] == d {
      if q in lv1.depthOf { QueuedStays(q1, q2, q); }
    }
  }

  lemma ProgressStarts(queue: seq<Item>, lv: Levels, d: nat)
    ensures Progress(queue, lv, queue, lv, d)
  {
  }

  /** What the head of the queue, an admitted query and the objects of a class have. */
  lemma HeadFact(env: Env, queue: seq<Item>, lv: Levels)
    requires queue != [] && QueueOk(env, queue, lv)
    ensures ItemOk(env, queue[0]) && queue[0].query in lv.depthOf && lv.depthOf[queue[0].query] == queue[0].depth
  {
  }

  lemma HasNode(env: Env, it: Item)
    requires ValidEnv(env) && ItemOk(env, it)
    ensures it.query.cls in NodeClasses(env)
  {
  }

  lemma DepthFact(env: Env, lv: Levels, q: Query)
    requires DepthsOk(env, lv) && q in lv.depthOf
    ensures DerivedQuery(env, q, lv.depthOf[q]) && !TooDeep(env, lv.depthOf[q])
  {
  }

  lemma LabelFact(env: Env, nodes: map<Class, NodeState>, lv: Levels, c: Class)
    requires LabelsOk(env, nodes, lv) && c in nodes
    ensures c in lv.labels && |lv.labels[c]| == |nodes[c].result|
    ensures forall i :: 0 <= i < |nodes[c].result| ==> DerivedObject(env, c, nodes[c].result[i], lv.labels[c][i])
  {
  }

  lemma LabelsApart(env: Env, queue: seq<Item>, lv: Levels, lv': Levels)
    requires lv'.depthOf == lv.depthOf && lv'.level == lv.level
    ensures QueueOk(env, queue, lv) ==> QueueOk(env, queue, lv')
    ensures DepthsOk(env, lv) ==> DepthsOk(env, lv')
  {
  }

  lemma ClaimFrame(env: Env, nodes: map<Class, NodeState>, lv: Levels, c: Class)
    requires LabelsOk(env, nodes, lv) && c in nodes
    ensures LabelsOk(env, ClaimedNodes(nodes, c), lv) && ClaimedNodes(nodes, c).Keys == nodes.Keys
  {
  }

  lemma ProgressLevels(q0: seq<Item>, lv0: Levels, q1: seq<Item>, lv1: Levels, d: nat)
    requires Progress(q0, lv0, q1, lv1, d)
    ensures lv1.labels == lv0.labels && lv1.level == lv0.level
    ensures forall q :: q in lv0.depthOf ==> q in lv1.depthOf
  {
  }

  lemma ProgressKeeps(env: Env, nodes: map<Class, NodeState>, q0: seq<Item>, lv0: Levels, q1: seq<Item>, lv1: Levels,
                      d: nat)
    requires Progress(q0, lv0, q1, lv1, d)
    ensures LabelsOk(env, nodes, lv0) ==> LabelsOk(env, nodes, lv1)
    ensures FetchedOk(env, q0, nodes, lv0) ==> FetchedOk(env, q1, nodes, lv1)
    ensures ExpandedOk(env, nodes, lv0) ==> ExpandedOk(env, nodes, lv1)
    ensures StartOk(env, nodes, lv0) ==> StartOk(env, nodes, lv1)
  {
    if FetchedOk(env, q0, nodes, lv0) {
      forall q | q in lv1.depthOf ensures Queued(q1, q) || Fetched(env, nodes, lv1, q) {
        if q in lv0.depthOf {
          if Queued(q0, q) { QueuedStays(q0, q1, q); } else { assert Fetched(env, nodes, lv0, q); }
        }
      }
    }
    if ExpandedOk(env, nodes, lv0) {
      forall c, i | c in nodes && 0 <= i < nodes[c].processed && i < |nodes[c].result|
        ensures Expanded(env, nodes, lv1, c, i)
      {
        assert Expanded(env, nodes, lv0, c, i);
      }
    }
  }

  /** The queries of one rule on one object were sent, one level below the current one. */
  ghost predicate RuleSent(env: Env, lv: Levels, c: Class, o: Object, r: Rule) {
    !TooDeep(env, lv.level + 1) ==> forall q :: Follows(env, c, o, r, q) ==> q in lv.depthOf
  }

  predicate QuerySent(env: Env, lv: Levels, c: Class, r: Rule, q: Query) {
    LineKey(c, r, q.cls) in env.lines && !TooDeep(env, lv.level + 1) ==> q in lv.depthOf
  }

  ghost predicate ObjectSent(env: Env, lv: Levels, c: Class, o: Object) { forall r :: RuleSent(env, lv, c, o, r) }

  lemma SentKept(env: Env, q0: seq<Item>, lv0: Levels, q1: seq<Item>, lv1: Levels, d: nat, c: Class, o: Object)
    requires Progress(q0, lv0, q1, lv1, d)
    ensures forall r :: RuleSent(env, lv0, c, o, r) ==> RuleSent(env, lv1, c, o, r)
    ensures ObjectSent(env, lv0, c, o) ==> ObjectSent(env, lv1, c, o)
  {
  }

  /** Claiming and expanding the rest of a result list, all of it fetched at the current level. */
  lemma WindowExpanded(env: Env, nodes: map<Class, NodeState>, lv: Levels, c: Class)
    requires ExpandedOk(env, nodes, lv) && DepthsOk(env, lv) && c in nodes
    requires forall i :: nodes[c].processed <= i < |nodes[c].result| ==>
               lv.labels[c][i] == lv.level && ObjectSent(env, lv, c, nodes[c].result[i])
    ensures ExpandedOk(env, nodes[c := nodes[c].(processed := |nodes[c].result|)], lv)
  {
    var nodes' := nodes[c := nodes[c].(processed := |nodes[c].result|)];
    forall d, i | d in nodes' && 0 <= i < nodes'[d].processed && i < |nodes'[d].result|
      ensures Expanded(env, nodes', lv, d, i)
    {
      if d == c && i >= nodes[c].processed {
        forall r, q | Follows(env, c, nodes[c].result[i], r, q) && !TooDeep(env, lv.level + 1) ensures q in lv.depthOf {
          assert RuleSent(env, lv, c, nodes[c].result[i], r);
        }
      } else {
        assert Expanded(env, nodes, lv, d, i);
      }
    }
  }

  lemma AdmitKeeps(env: Env, queue: seq<Item>, lv: Levels, it: Item)
    requires QueueOk(env, queue, lv) && DepthsOk(env, lv) && ItemOk(env, it) && DerivedQuery(env, it.query, it.depth)
    requires lv.level <= it.depth <= lv.level + 1 && forall i :: 0 <= i < |queue| ==> queue[i].depth <= it.depth
    requires !TooDeep(env, it.depth) && it.query !in lv.depthOf
    ensures var lv' := lv.(depthOf := lv.depthOf[it.query := it.depth]);
            QueueOk(env, queue + [it], lv') && DepthsOk(env, lv') && Progress(queue, lv, queue + [it], lv', it.depth)
  {
    assert (queue + [it])[|queue|] == it;
  }

  /** What holds between the steps of the search. */
  ghost predicate SearchOk(env: Env, core: Core, lv: Levels) {
    && core.seen == lv.depthOf.Keys && core.wg == |core.queue| + 1
    && core.nodes.Keys == NodeClasses(env) && core.lineQueries.Keys == env.lines.Keys
    && QueueOk(env, core.queue, lv) && DepthsOk(env, lv) && LabelsOk(env, core.nodes, lv)
  }

  lemma SearchLabels(env: Env, core: Core, lv: Levels)
    requires SearchOk(env, core, lv)
    ensures LabelsOk(env, core.nodes, lv)
  {
  }

  /** The levels after `dedupAndSend`. */
  function SentLevels(env: Env, seen: set<Query>, lv: Levels, it: Item): Levels {
    if TooDeep(env, it.depth) || it.query in seen then lv else lv.(depthOf := lv.depthOf[it.query := it.depth])
  }

  lemma SentKeeps(env: Env, core: Core, lv: Levels, it: Item)
    requires SearchOk(env, core, lv) && ItemOk(env, it) && DerivedQuery(env, it.query, it.depth)
    requires lv.level <= it.depth <= lv.level + 1
    requires forall i :: 0 <= i < |core.queue| ==> core.queue[i].depth <= it.depth
    ensures var core', lv' := Sent(env, core, it), SentLevels(env, core.seen, lv, it);
            && SearchOk(env, core', lv') && Progress(core.queue, lv, core'.queue, lv', it.depth)
            && (forall i :: 0 <= i < |core'.queue| ==> core'.queue[i].depth <= it.depth)
            && (!TooDeep(env, it.depth) ==> it.query in lv'.depthOf)
  {
    if !TooDeep(env, it.depth) && it.query !in core.seen {
      AdmitKeeps(env, core.queue, lv, it);
      var lv' := lv.(depthOf := lv.depthOf[it.query := it.depth]);
      ProgressKeeps(env, core.nodes, core.queue, lv, core.queue + [it], lv', it.depth);
    }
  }

  /** The start queries were admitted at depth 0 and the start objects are in, at depth 0. */
  ghost predicate StartOk(env: Env, nodes: map<Class, NodeState>, lv: Levels) {
    && (forall q :: q in env.startQueries ==> q in lv.depthOf && lv.depthOf[q] == 0)
    && env.startClass in nodes && env.startClass in lv.labels
    && |lv.labels[env.startClass]| == |nodes[env.startClass].result|
    && forall o :: o in env.startObjects ==>
         HasBy(env, env.startClass, nodes[env.startClass].result, lv.labels[env.startClass],
               KeyOf(env, env.startClass, o), 0)
  }

  ghost predicate AllClaimed(nodes: map<Class, NodeState>) {
    forall c :: c in nodes ==> nodes[c].processed == |nodes[c].result|
  }

  /** Taking the head of the queue makes its depth the current level. */
  function LevelOf(lv: Levels, it: Item): Levels { lv.(level := it.depth) }

  lemma LevelUp(env: Env, queue: seq<Item>, nodes: map<Class, NodeState>, lv: Levels)
    requires queue != [] && QueueOk(env, queue, lv) && DepthsOk(env, lv) && ExpandedOk(env, nodes, lv)
    ensures QueueOk(env, queue[1..], LevelOf(lv, queue[0])) && DepthsOk(env, LevelOf(lv, queue[0]))
    ensures ExpandedOk(env, nodes, LevelOf(lv, queue[0]))
    ensures StartOk(env, nodes, lv) ==> StartOk(env, nodes, LevelOf(lv, queue[0]))
    ensures FetchedOk(env, queue, nodes, lv) ==> FetchedOk(env, queue, nodes, LevelOf(lv, queue[0]))
  {
    forall c, i | c in nodes && 0 <= i < nodes[c].processed && i < |nodes[c].result|
      ensures Expanded(env, nodes, LevelOf(lv, queue[0]), c, i)
    {
      assert Expanded(env, nodes, lv, c, i);
    }
    if FetchedOk(env, queue, nodes, lv) {
      forall q | q in lv.depthOf ensures Queued(queue, q) || Fetched(env, nodes, LevelOf(lv, queue[0]), q) {
        if !Queued(queue, q) { assert Fetched(env, nodes, lv, q); }
      }
    }
  }

  /** The node after the results of `q` are added, and the labels of its objects. */
  function AddedNode(env: Env, nodes: map<Class, NodeState>, c: Class, objects: seq<Object>): NodeState
    requires c in nodes
  {
    nodes[c].(result := AddAll(env, c, nodes[c].result, objects))
  }

  function AddedLabels(env: Env, nodes: map<Class, NodeState>, lv: Levels, c: Class, objects: seq<Object>): seq<nat>
    requires c in nodes && c in lv.labels
  {
    var n := |AddAll(env, c, nodes[c].result, objects)|;
    lv.labels[c] + seq(if n >= |lv.labels[c]| then n - |lv.labels[c]| else 0, i => lv.level)
  }

  /** Objects added now carry the current level, and every added object's key is present by that level. */
  lemma AddLabelled(env: Env, nodes: map<Class, NodeState>, lv: Levels, c: Class, objects: seq<Object>,
                    node: NodeState, lv': Levels)
    requires LabelsOk(env, nodes, lv) && c in nodes && forall o :: o in objects ==> DerivedObject(env, c, o, lv.level)
    requires node.result == AddedNode(env, nodes, c, objects).result && node.processed == nodes[c].processed
    requires lv' == lv.(labels := lv.labels[c := AddedLabels(env, nodes, lv, c, objects)])
    ensures nodes[c].result <= node.result && lv.labels[c] <= lv'.labels[c]
    ensures LabelsOk(env, nodes[c := node], lv')
    ensures forall o :: o in objects ==> HasBy(env, c, node.result, lv'.labels[c], KeyOf(env, c, o), lv.level)
    ensures forall i :: |nodes[c].result| <= i < |node.result| ==> lv'.labels[c][i] == lv.level
  {
    hide DerivedObject, AddAll;
    AddAllAppends(env, c, nodes[c].result, objects);
    var labels := lv'.labels[c];
    forall i | |lv.labels[c]| <= i < |labels| ensures DerivedObject(env, c, node.result[i], lv.level) {
      AddedDerived(env, nodes, lv, c, objects, node.result[i]);
    }
    forall o | o in objects ensures HasBy(env, c, node.result, labels, KeyOf(env, c, o), lv.level) {
      var i :| 0 <= i < |node.result| && KeyOf(env, c, node.result[i]) == KeyOf(env, c, o);
      assert labels[i] <= lv.level;
    }
  }

  lemma AddedDerived(env: Env, nodes: map<Class, NodeState>, lv: Levels, c: Class, objects: seq<Object>, o: Object)
    requires LabelsOk(env, nodes, lv) && c in nodes && forall b :: b in objects ==> DerivedObject(env, c, b, lv.level)
    requires o in AddAll(env, c, nodes[c].result, objects)
    ensures DerivedObject(env, c, o, lv.level)
  {
    hide DerivedObject;
    AddAllAppends(env, c, nodes[c].result, objects);
    if o !in objects {
      var j :| 0 <= j < |nodes[c].result| && nodes[c].result[j] == o;
      DerivedObjectMonotone(env, c, o, lv.labels[c][j], lv.level);
    }
  }

  lemma HasByGrows(env: Env, c: Class, list: seq<Object>, labels: seq<nat>, list': seq<Object>, labels': seq<nat>,
                   key: Key, d: nat)
    requires |list| == |labels| && |list'| == |labels'| && list <= list' && labels <= labels'
    requires HasBy(env, c, list, labels, key, d)
    ensures HasBy(env, c, list', labels', key, d)
  {
    var i :| 0 <= i < |list| && KeyOf(env, c, list[i]) == key && labels[i] <= d;
    assert list'[i] == list[i] && labels'[i] == labels[i];
  }

  /** What was fetched, expanded or started stays so when a node's list grows. */
  lemma GrowthKeeps(env: Env, nodes: map<Class, NodeState>, lv: Levels, c: Class, node: NodeState, lv': Levels)
    requires LabelsOk(env, nodes, lv) && c in nodes && node.processed == nodes[c].processed == |nodes[c].result|
    requires LabelsOk(env, nodes[c := node], lv') && nodes[c].result <= node.result
    requires lv'.depthOf == lv.depthOf && lv'.level == lv.level && c in lv'.labels && lv.labels[c] <= lv'.labels[c]
    requires lv' == lv.(labels := lv.labels[c := lv'.labels[c]])
    ensures ExpandedOk(env, nodes, lv) ==> ExpandedOk(env, nodes[c := node], lv')
    ensures forall q :: Fetched(env, nodes, lv, q) ==> Fetched(env, nodes[c := node], lv', q)
    ensures StartOk(env, nodes, lv) ==> StartOk(env, nodes[c := node], lv')
  {
    var nodes' := nodes[c := node];
    if ExpandedOk(env, nodes, lv) {
      forall d, i | d in nodes' && 0 <= i < nodes'[d].processed && i < |nodes'[d].result|
        ensures Expanded(env, nodes', lv', d, i)
      {
        assert Expanded(env, nodes, lv, d, i);
      }
    }
    forall q | Fetched(env, nodes, lv, q) ensures Fetched(env, nodes', lv', q) {
      forall o | o in env.get(q)
        ensures HasBy(env, q.cls, nodes'[q.cls].result, lv'.labels[q.cls], KeyOf(env, q.cls, o), lv.depthOf[q])
      {
        HasByGrows(env, q.cls, nodes[q.cls].result, lv.labels[q.cls], nodes'[q.cls].result, lv'.labels[q.cls],
                   KeyOf(env, q.cls, o), lv.depthOf[q]);
      }
    }
    if StartOk(env, nodes, lv) {
      var d := env.startClass;
      forall o | o in env.startObjects
        ensures HasBy(env, d, nodes'[d].result, lv'.labels[d], KeyOf(env, d, o), 0)
      {
        HasByGrows(env, d, nodes[d].result, lv.labels[d], nodes'[d].result, lv'.labels[d], KeyOf(env, d, o), 0);
      }
    }
  }

  /** Handling `it` fetches it; everything else stays as it was. */
  lemma FetchHandled(env: Env, it: Item, rest: seq<Item>, nodes: map<Class, NodeState>, lv: Levels,
                     nodes': map<Class, NodeState>, lv': Levels)
    requires FetchedOk(env, [it] + rest, nodes, lv) && lv'.depthOf == lv.depthOf
    requires Fetched(env, nodes', lv', it.query)
    requires forall q :: Fetched(env, nodes, lv, q) ==> Fetched(env, nodes', lv', q)
    ensures FetchedOk(env, rest, nodes', lv')
  {
    forall q | q in lv'.depthOf ensures Queued(rest, q) || Fetched(env, nodes', lv', q) {
      if Queued([it] + rest, q) && q != it.query {
        var i :| 0 <= i < |[it] + rest| && ([it] + rest)[i].query == q;
        assert rest[i - 1].query == q;
      }
    }
  }

  /** Neither claiming nor recording counts touches what was fetched or started. */
  lemma SameResults(env: Env, queue: seq<Item>, nodes: map<Class, NodeState>, nodes': map<Class, NodeState>, lv: Levels)
    requires nodes'.Keys == nodes.Keys && forall c :: c in nodes ==> nodes'[c].result == nodes[c].result
    ensures FetchedOk(env, queue, nodes, lv) ==> FetchedOk(env, queue, nodes', lv)
    ensures StartOk(env, nodes, lv) ==> StartOk(env, nodes', lv)
  {
    if FetchedOk(env, queue, nodes, lv) {
      forall q | q in lv.depthOf ensures Queued(queue, q) || Fetched(env, nodes', lv, q) {
        if !Queued(queue, q) { assert Fetched(env, nodes, lv, q); }
      }
    }
  }

  /** The objects that no rule was applied to are those of class `c` fetched at this level. */
  ghost predicate Fresh(nodes: map<Class, NodeState>, lv: Levels, c: Class) {
    && c in nodes && c in lv.labels && nodes[c].processed <= |nodes[c].result| == |lv.labels[c]|
    && (forall i :: nodes[c].processed <= i < |nodes[c].result| ==> lv.labels[c][i] == lv.level)
    && (forall d :: d in nodes && d != c ==> nodes[d].processed == |nodes[d].result|)
  }

  /** A search that has not begun. */
  ghost predicate Blank(env: Env, core: Core, lv: Levels) {
    && core == Core([], 0, {}, map c | c in NodeClasses(env) :: NodeState([], map[], 0),
                    map k | k in env.lines :: map[])
    && lv == Levels(map[], map c | c in NodeClasses(env) :: [], 0)
  }

  /** The start objects are in and nothing was sent or claimed. */
  ghost predicate Started(env: Env, nodes: map<Class, NodeState>, lv: Levels)
  {
    && LabelsOk(env, nodes, lv) && lv.depthOf == map[] && lv.level == 0 && env.startClass in nodes
    && (forall c :: c in nodes ==> nodes[c].processed == 0 && (c != env.startClass ==> nodes[c].result == []))
    && (forall i :: 0 <= i < |lv.labels[env.startClass]| ==> lv.labels[env.startClass][i] == 0)
    && forall o :: o in env.startObjects ==>
         HasBy(env, env.startClass, nodes[env.startClass].result, lv.labels[env.startClass],
               KeyOf(env, env.startClass, o), 0)
  }

  /** Between items, with `pending` still to be handled: the results of everything else that was
      admitted are in, provided no query limit made a worker skip some, and rules were applied to all
      of them. */
  ghost predicate AtRest(env: Env, pending: seq<Item>, nodes: map<Class, NodeState>, lv: Levels) {
    && QueueOk(env, pending, lv) && DepthsOk(env, lv) && ExpandedOk(env, nodes, lv)
    && AllClaimed(nodes) && StartOk(env, nodes, lv)
    && (env.limit <= 0 ==> FetchedOk(env, pending, nodes, lv))
  }

  /** Claiming and expanding the only class with unclaimed objects brings the search to rest. */
  lemma ComesToRest(env: Env, q0: seq<Item>, lv0: Levels, nodes0: map<Class, NodeState>, c: Class,
                    q1: seq<Item>, lv1: Levels, nodes1: map<Class, NodeState>, d: nat)
    requires Progress(q0, lv0, q1, lv1, d) && QueueOk(env, q1, lv1) && DepthsOk(env, lv1)
    requires ExpandedOk(env, nodes1, lv1)
    requires c in nodes0 && nodes1 == nodes0[c := nodes0[c].(processed := |nodes0[c].result|)]
    requires forall b :: b in nodes0 && b != c ==> nodes0[b].processed == |nodes0[b].result|
    requires StartOk(env, nodes0, lv0) && (env.limit <= 0 ==> FetchedOk(env, q0, nodes0, lv0))
    ensures AtRest(env, q1, nodes1, lv1)
    ensures lv0.depthOf.Keys <= lv1.depthOf.Keys
    ensures lv0.depthOf.Keys == lv1.depthOf.Keys ==> q0 == q1
  {
    ProgressKeeps(env, nodes0, q0, lv0, q1, lv1, d);
    SameResults(env, q1, nodes0, nodes1, lv1);
    NothingNew(env, q0, lv0, q1, lv1, d);
  }

  /** Without a new admission, nothing was queued. */
  lemma NothingNew(env: Env, q0: seq<Item>, lv0: Levels, q1: seq<Item>, lv1: Levels, d: nat)
    requires Progress(q0, lv0, q1, lv1, d) && QueueOk(env, q1, lv1)
    ensures lv0.depthOf.Keys <= lv1.depthOf.Keys
    ensures lv0.depthOf.Keys == lv1.depthOf.Keys ==> q0 == q1
  {
    if |q0| < |q1| {
      assert q1[|q0|].query in lv1.depthOf.Keys && q1[|q0|].query !in lv0.depthOf.Keys;
    }
  }

  // ---- exactness ------------------------------------------------------------------------------------

  /** The finished search: start data in, everything admitted is fetched, everything fetched expanded. */
  ghost predicate Finished(env: Env, nodes: map<Class, NodeState>, lv: Levels) {
    && DepthsOk(env, lv) && ExpandedOk(env, nodes, lv) && AllClaimed(nodes) && StartOk(env, nodes, lv)
    && nodes.Keys == NodeClasses(env) && FetchedOk(env, [], nodes, lv)
  }

  lemma {:induction false} ReachesQuery(env: Env, nodes: map<Class, NodeState>, lv: Levels, q: Query, n: nat)
    requires Finished(env, nodes, lv) && RespectsIds(env) && DerivedQuery(env, q, n) && !TooDeep(env, n)
    ensures q in lv.depthOf && lv.depthOf[q] <= n
    decreases n, 0
  {
    if n > 0 {
      if DerivedQuery(env, q, n - 1) {
        ReachesQuery(env, nodes, lv, q, n - 1);
      } else {
        var c, o, r :| DerivedObject(env, c, o, n - 1) && Follows(env, c, o, r, q);
        assert LineKey(c, r, q.cls) in env.lines;
        ReachesObject(env, nodes, lv, c, o, n - 1);
        var i :| 0 <= i < |nodes[c].result| && KeyOf(env, c, nodes[c].result[i]) == KeyOf(env, c, o)
                 && lv.labels[c][i] <= n - 1;
        assert Follows(env, c, nodes[c].result[i], r, q);
        assert Expanded(env, nodes, lv, c, i);
      }
    }
  }

  lemma {:induction false} ReachesObject(env: Env, nodes: map<Class, NodeState>, lv: Levels, c: Class, o: Object,
                                         n: nat)
    requires Finished(env, nodes, lv) && RespectsIds(env) && DerivedObject(env, c, o, n) && !TooDeep(env, n)
    requires c in NodeClasses(env)
    ensures HasBy(env, c, nodes[c].result, lv.labels[c], KeyOf(env, c, o), n)
    decreases n, 1
  {
    if c == env.startClass && o in env.startObjects {
      var i :| 0 <= i < |nodes[c].result| && KeyOf(env, c, nodes[c].result[i]) == KeyOf(env, c, o)
               && lv.labels[c][i] <= 0;
    } else {
      var q :| DerivedQuery(env, q, n) && q.cls == c && o in env.get(q);
      ReachesQuery(env, nodes, lv, q, n);
      assert Fetched(env, nodes, lv, q);
      var i :| 0 <= i < |nodes[c].result| && KeyOf(env, c, nodes[c].result[i]) == KeyOf(env, c, o)
               && lv.labels[c][i] <= lv.depthOf[q];
    }
  }

  /** A finished search admitted exactly the queries derivable within the depth limit, each at the
      least depth at which it is derivable. */
  lemma ExactBreadthFirst(env: Env, nodes: map<Class, NodeState>, lv: Levels)
    requires Finished(env, nodes, lv) && RespectsIds(env)
    ensures forall q :: q in lv.depthOf <==> exists n: nat :: !TooDeep(env, n) && DerivedQuery(env, q, n)
    ensures forall q, n: nat :: q in lv.depthOf && DerivedQuery(env, q, n) ==> lv.depthOf[q] <= n
  {
    forall q, n: nat | !TooDeep(env, n) && DerivedQuery(env, q, n) ensures q in lv.depthOf && lv.depthOf[q] <= n {
      ReachesQuery(env, nodes, lv, q, n);
    }
  }

  // ---- the engine -----------------------------------------------------------------------------------

  class Traverser {
    const env: Env
    const work: WorkQueue
    var wg: nat
    var seen: set<Query>
    var nodes: map<Class, NodeState>
    var lineQueries: map<LineKey, map<Query, nat>>
    ghost var lv: Levels
    // The state of the protocol that the search mirrors, the goroutine that runs, and where it is.
    ghost var st: State
    ghost var turn: nat
    ghost var th: Thread

    /** `newTraverser`. */
    constructor (env: Env)
      ensures this.env == env && fresh(work) && !work.closed && wg == 0 && Blank(env, Snapshot(), lv)
      ensures Tracks() && turn == 0 && th == NewThread(env, Unstarted)
    {
      this.env := env;
      work := new WorkQueue();
      wg, seen := 0, {};
      nodes := map c | c in NodeClasses(env) :: NodeState([], map[], 0);
      lineQueries := map k | k in env.lines :: map[];
      lv := Levels(map[], map c | c in NodeClasses(env) :: [], 0);
      ghost var start := Beginning(env);
      st, turn, th := start, 0, NewThread(env, Unstarted);
    }

    ghost function Snapshot(): Core
      reads this, work
    {
      Core(work.items, wg, seen, nodes, lineQueries)
    }

    /** The search is at a reachable state of the protocol. */
    ghost predicate Tracks()
      reads this, work
    {
      At(env, st, Snapshot(), turn, th)
    }

    /** What holds between the steps of the search. */
    ghost predicate Searching()
      reads this, work
    {
      SearchOk(env, Snapshot(), lv)
    }

    method IsDuplicate(it: Item) returns (dup: bool)
      modifies this`seen
      ensures dup <==> it.query in old(seen)
      ensures seen == old(seen) + {it.query}
    {
      if it.query in seen { return true; }
      seen := seen + {it.query};
      return false;
    }

    /** `dedupAndSend`: admits the item unless it is too deep or its query was seen. */
    method DedupAndSend(it: Item)
      requires Tracks() && CanSend(th) && th.pending[0] == it
      modifies this`wg, this`seen, this`lv, this`st, this`th, work`items
      ensures Snapshot() == Sent(env, old(Snapshot()), it) && lv == SentLevels(env, old(seen), old(lv), it)
      ensures Tracks() && th == old(th).(pending := old(th).pending[1..])
    {
      hide At;
      st := SendStep(env, st, Snapshot(), turn, th);
      th := th.(pending := th.pending[1..]);
      lv := SentLevels(env, seen, lv, it);
      if env.maxDepth >= 0 && it.depth > env.maxDepth { return; }
      var dup := IsDuplicate(it);
      if dup { return; }
      wg := wg + 1;
      work.Put(it);
    }

    /** Sends an item of the current level or the next, no shallower than what is queued. */
    method SendItem(it: Item)
      requires Searching() && ItemOk(env, it) && DerivedQuery(env, it.query, it.depth)
      requires lv.level <= it.depth <= lv.level + 1
      requires forall i :: 0 <= i < |work.items| ==> work.items[i].depth <= it.depth
      requires Tracks() && CanSend(th) && th.pending[0] == it
      modifies this`wg, this`seen, this`lv, this`st, this`th, work`items
      ensures Tracks() && th == old(th).(pending := old(th).pending[1..])
      ensures Searching() && Progress(old(work.items), old(lv), work.items, lv, it.depth)
      ensures forall i :: 0 <= i < |work.items| ==> work.items[i].depth <= it.depth
      ensures !TooDeep(env, it.depth) ==> it.query in lv.depthOf
    {
      hide At, SearchOk, Progress;
      SentKeeps(env, Snapshot(), lv, it);
      DedupAndSend(it);
    }

    /** Sends the queries of one rule application. */
    method ApplyRule(c: Class, o: Object, r: Rule, depth: nat)
      requires Searching() && DerivedObject(env, c, o, lv.level) && depth == lv.level + 1
      requires Tracks() && BetweenRules(th) && r in th.todo && th.cls == c && th.depth == depth
      requires th.objects[th.at] == o
      modifies this`wg, this`seen, this`lv, this`st, this`th, work`items
      ensures Searching() && Progress(old(work.items), old(lv), work.items, lv, depth)
      ensures RuleSent(env, lv, c, o, r)
      ensures Tracks() && th == old(th).(todo := old(th).todo - {r})
    {
      hide At, QueueOk, DepthsOk, LabelsOk, Progress;
      ProgressStarts(work.items, lv, depth);
      var queries := env.apply(r, o);
      st := ApplyRuleStep(env, st, Snapshot(), turn, th, r);
      th := th.(todo := th.todo - {r}, pending := Sends(env, c, r, depth, queries));
      ghost var th0 := th;
      for i := 0 to |queries|
        invariant Tracks() && th == th0.(pending := Sends(env, c, r, depth, queries[i..]))
        invariant Searching() && Progress(old(work.items), old(lv), work.items, lv, depth)
        invariant lv.level + 1 == depth && forall j :: 0 <= j < i ==> QuerySent(env, lv, c, r, queries[j])
      {
        ghost var items, levels := work.items, lv;
        assert queries[i..][1..] == queries[i + 1..];
        SendQuery(c, o, r, queries[i], depth, queries[i + 1..]);
        ProgressLevels(items, levels, work.items, lv, depth);
        ProgressJoin(old(work.items), old(lv), items, levels, work.items, lv, depth);
        forall j | 0 <= j < i ensures QuerySent(env, lv, c, r, queries[j]) {
          assert QuerySent(env, levels, c, r, queries[j]);
        }
      }
      forall q | Follows(env, c, o, r, q) && !TooDeep(env, depth) ensures q in lv.depthOf {
        var j :| 0 <= j < |queries| && queries[j] == q;
        assert QuerySent(env, lv, c, r, queries[j]);
      }
    }

    /** Sends one query of a rule application, if its class is in scope. */
    method SendQuery(c: Class, o: Object, r: Rule, q: Query, depth: nat, ghost rest: seq<Query>)
      requires Searching() && DerivedObject(env, c, o, lv.level) && depth == lv.level + 1 && q in env.apply(r, o)
      requires Tracks() && th.pc.Applying? && th.send.Ready? && th.pending == Sends(env, c, r, depth, [q] + rest)
      modifies this`wg, this`seen, this`lv, this`st, this`th, work`items
      ensures Tracks() && th == old(th).(pending := Sends(env, c, r, depth, rest))
      ensures Searching() && Progress(old(work.items), old(lv), work.items, lv, depth)
      ensures QuerySent(env, lv, c, r, q)
    {
      hide At, DepthsOk, LabelsOk, Progress;
      ProgressStarts(work.items, lv, depth);
      var key := LineKey(c, r, q.cls);
      assert ([q] + rest)[1..] == rest;
      if key in env.lines {
        FollowsDeeper(env, c, o, r, q, lv.level);
        ghost var items, levels := work.items, lv;
        SendItem(Item(q, Some(key), depth));
        ProgressLevels(items, levels, work.items, lv, depth);
      }
    }

    /** Applies every rule of the class to one object, in any order. */
    method ApplyAll(c: Class, o: Object, rules: set<Rule>, depth: nat)
      requires Searching() && DerivedObject(env, c, o, lv.level) && depth == lv.level + 1 && rules == RulesFor(env, c)
      requires Tracks() && BetweenRules(th) && th.todo == rules && th.cls == c && th.depth == depth
      requires th.objects[th.at] == o
      modifies this`wg, this`seen, this`lv, this`st, this`th, work`items
      ensures Tracks() && th == old(th).(todo := {})
      ensures Searching() && Progress(old(work.items), old(lv), work.items, lv, depth)
      ensures ObjectSent(env, lv, c, o)
    {
      hide At, QueueOk, DepthsOk, LabelsOk, Progress;
      ProgressStarts(work.items, lv, depth);
      var rest := rules;
      while rest != {}
        invariant Tracks() && th == old(th).(todo := rest)
        invariant lv.level + 1 == depth
        invariant rest <= rules && Searching() && Progress(old(work.items), old(lv), work.items, lv, depth)
        invariant forall r :: r in rules && r !in rest ==> RuleSent(env, lv, c, o, r)
        decreases rest
      {
        var r :| r in rest;
        ghost var items, levels := work.items, lv;
        ApplyRule(c, o, r, depth);
        ProgressJoin(old(work.items), old(lv), items, levels, work.items, lv, depth);
        ProgressLevels(items, levels, work.items, lv, depth);
        SentKept(env, items, levels, work.items, lv, depth, c, o);
        rest := rest - {r};
      }
      forall r, q | Follows(env, c, o, r, q) && !TooDeep(env, lv.level + 1) ensures q in lv.depthOf {
        FollowsRule(env, c, o, r, q);
      }
    }

    /** Claims the objects of the class that no rule was applied to yet: those from `start` on. */
    method Claim(c: Class) returns (objects: seq<Object>, start: nat)
      requires c in nodes && Tracks() && th.pc.Claiming? && th.cls == c
      modifies this`nodes, this`st, this`th
      ensures objects == old(nodes)[c].result && start == old(nodes)[c].processed
      ensures nodes == ClaimedNodes(old(nodes), c)
      ensures Tracks()
      ensures th == if start >= |objects| then old(th).(pc := Finishing) else Applier(env, old(th), old(nodes)[c])
    {
      hide At;
      objects := nodes[c].result;
      start := nodes[c].processed;
      st := ClaimStep(env, st, Snapshot(), turn, th);
      th := if start >= |objects| then th.(pc := Finishing) else Applier(env, th, nodes[c]);
      nodes := nodes[c := nodes[c].(processed := |objects|)];
    }

    /** Claims the objects of the class that no rule was applied to yet, all fetched at the current
        level, and applies its rules to them. */
    method ApplyRules(c: Class, depth: nat)
      requires Searching() && ExpandedOk(env, nodes, lv) && c in nodes && depth == lv.level + 1
      requires nodes[c].processed <= |nodes[c].result|
      requires forall i :: nodes[c].processed <= i < |nodes[c].result| ==> lv.labels[c][i] == lv.level
      requires Tracks() && th.pc.Claiming? && Clean(th) && th.cls == c && th.depth == depth
      modifies this`wg, this`seen, this`lv, this`nodes, this`st, this`th, work`items
      ensures Tracks() && th.pc.Finishing? && Clean(th) && th.job == old(th).job
      ensures Searching() && ExpandedOk(env, nodes, lv) && Progress(old(work.items), old(lv), work.items, lv, depth)
      ensures nodes == old(nodes)[c := old(nodes)[c].(processed := |old(nodes)[c].result|)]
    {
      hide At, QueueOk, DepthsOk, LabelsOk, Progress, ExpandedOk, ObjectSent;
      ProgressStarts(work.items, lv, depth);
      ghost var nodes0 := nodes;
      var objects, start := Claim(c);
      ClaimFrame(env, nodes0, lv, c);
      if start < |objects| {
        ApplyWindow(c, objects, start, depth);
        EndApply();
        ProgressKeeps(env, nodes0, old(work.items), old(lv), work.items, lv, depth);
      }
      ProgressLevels(old(work.items), old(lv), work.items, lv, depth);
      LabelFact(env, nodes0, lv, c);
      WindowExpanded(env, nodes0, lv, c);
    }

    /** The window is used up. */
    ghost method EndApply()
      requires Tracks() && th.pc.Applying? && Clean(th) && th.at == |th.objects|
      modifies this`st, this`th
      ensures Tracks() && th == old(th).(pc := Finishing)
    {
      hide At;
      st := EndApplyStep(env, st, Snapshot(), turn, th);
      th := th.(pc := Finishing);
    }

    /** Applies the rules of the class to a captured window of its result list. */
    method ApplyWindow(c: Class, objects: seq<Object>, start: nat, depth: nat)
      requires Searching() && c in nodes && objects == nodes[c].result && start <= |objects| && depth == lv.level + 1
      requires forall i :: start <= i < |objects| ==> lv.labels[c][i] == lv.level
      requires Tracks() && th.pc.Applying? && Clean(th) && th.cls == c && th.depth == depth
      requires th.objects == objects && th.at == start && th.todo == RulesFor(env, c)
      modifies this`wg, this`seen, this`lv, this`st, this`th, work`items
      ensures Tracks() && th == old(th).(at := |objects|)
      ensures Searching() && Progress(old(work.items), old(lv), work.items, lv, depth)
      ensures forall i :: start <= i < |objects| ==> ObjectSent(env, lv, c, objects[i])
    {
      hide At, SearchOk, LabelsOk, Progress, ObjectSent, DerivedObject;
      SearchLabels(env, Snapshot(), lv);
      ProgressStarts(work.items, lv, depth);
      LabelFact(env, nodes, lv, c);
      var rules := RulesFor(env, c);
      for i := start to |objects|
        invariant Tracks() && th == old(th).(at := i) && lv.level + 1 == depth && lv.labels == old(lv).labels
        invariant Searching() && Progress(old(work.items), old(lv), work.items, lv, depth)
        invariant forall j :: start <= j < i ==> ObjectSent(env, lv, c, objects[j])
      {
        ghost var items, levels := work.items, lv;
        assert DerivedObject(env, c, objects[i], lv.labels[c][i]);
        ApplyAll(c, objects[i], rules, depth);
        st := NextObjectStep(env, st, Snapshot(), turn, th);
        th := th.(at := i + 1, todo := rules);
        ProgressJoin(old(work.items), old(lv), items, levels, work.items, lv, depth);
        ProgressLevels(items, levels, work.items, lv, depth);
        forall j | start <= j < i ensures ObjectSent(env, lv, c, objects[j]) {
          assert ObjectSent(env, levels, c, objects[j]);
          SentKept(env, items, levels, work.items, lv, depth, c, objects[j]);
        }
      }
    }

    /** Adds the results of a query to the node of its class; returns how many are new. */
    method AddResults(c: Class, objects: seq<Object>) returns (count: nat)
      requires c in nodes
      modifies this`nodes
      ensures nodes == old(nodes)[c := AddedNode(env, old(nodes), c, objects)]
      ensures count == |nodes[c].result| - |old(nodes)[c].result|
    {
      ghost var nodes0 := nodes;
      var before := |nodes[c].result|;
      AddAllAppends(env, c, nodes[c].result, objects);
      for i := 0 to |objects|
        invariant c in nodes && nodes == nodes0[c := nodes0[c].(result := nodes[c].result)]
        invariant AddAll(env, c, nodes[c].result, objects[i..]) == AddAll(env, c, nodes0[c].result, objects)
      {
        assert objects[i..][1..] == objects[i + 1..];
        nodes := nodes[c := nodes[c].(result := AddOne(env, c, nodes[c].result, objects[i]))];
      }
      count := |nodes[c].result| - before;
    }

    /** What holds between items, with `pending` still to be handled: the results of everything else
        that was admitted are in, provided no query limit made a worker skip some. */
    ghost predicate Resting(pending: seq<Item>)
      reads this, work
    {
      && seen == lv.depthOf.Keys && wg == |pending|
      && nodes.Keys == NodeClasses(env) && lineQueries.Keys == env.lines.Keys
      && AtRest(env, pending, nodes, lv)
    }

    /** Adds the results of a query to the node of its class and sets the query's count. */
    method Record(it: Item) returns (count: nat)
      requires Tracks() && th.pc.Passed? && th.job == Some(it) && it.query.cls in nodes
      modifies this`nodes, this`st, this`th
      ensures nodes == RecordedNodes(env, old(nodes), it)
      ensures count == |nodes[it.query.cls].result| - |old(nodes)[it.query.cls].result|
      ensures Tracks() && th == old(th).(pc := if it.line.Some? then Recorded else Claiming, count := count,
                                         cls := it.query.cls, depth := it.depth + 1)
    {
      hide At;
      var c := it.query.cls;
      ghost var core := Snapshot();
      count := AddResults(c, env.get(it.query));
      nodes := nodes[c := nodes[c].(queries := SetCount(nodes[c].queries, it.query, count))];
      st := RecordStep(env, st, core, turn, th, it, count);
      th := th.(pc := if it.line.Some? then Recorded else Claiming, count := count, cls := c, depth := it.depth + 1);
    }

    method RecordResults(it: Item) returns (count: nat)
      requires it.query.cls in nodes && AllClaimed(nodes) && LabelsOk(env, nodes, lv) && ExpandedOk(env, nodes, lv)
      requires DerivedQuery(env, it.query, it.depth) && lv.level == it.depth
      requires it.query in lv.depthOf && lv.depthOf[it.query] == it.depth
      requires Tracks() && th.pc.Passed? && th.job == Some(it)
      modifies this`nodes, this`lv, this`st, this`th
      ensures Tracks() && th == old(th).(pc := if it.line.Some? then Recorded else Claiming, count := count,
                                         cls := it.query.cls, depth := it.depth + 1)
      ensures lv.depthOf == old(lv).depthOf && lv.level == old(lv).level
      ensures LabelsOk(env, nodes, lv) && ExpandedOk(env, nodes, lv) && Fetched(env, nodes, lv, it.query)
      ensures var c := it.query.cls;
              && nodes.Keys == old(nodes).Keys && nodes[c].processed == old(nodes)[c].processed <= |nodes[c].result|
              && (forall d :: d in nodes && d != c ==> nodes[d] == old(nodes)[d])
              && (forall i :: nodes[c].processed <= i < |nodes[c].result| ==> lv.labels[c][i] == lv.level)
      ensures forall q :: Fetched(env, old(nodes), old(lv), q) ==> Fetched(env, nodes, lv, q)
      ensures StartOk(env, old(nodes), old(lv)) ==> StartOk(env, nodes, lv)
    {
      hide At, ExpandedOk, StartOk;
      var c := it.query.cls;
      ghost var nodes0, lv0 := nodes, lv;
      count := Record(it);
      lv := lv.(labels := lv.labels[c := AddedLabels(env, nodes0, lv, c, env.get(it.query))]);
      assert nodes == nodes0[c := nodes[c]];
      AddLabelled(env, nodes0, lv0, c, env.get(it.query), nodes[c], lv);
      GrowthKeeps(env, nodes0, lv0, c, nodes[c], lv);
    }

    /** `wg.Done`. */
    method Done()
      requires Tracks() && th.pc.Finishing? && wg > 0
      modifies this`wg, this`st, this`th
      ensures wg == old(wg) - 1
      ensures Tracks() && th == if old(th).job.Some? then old(th).(pc := Idle, job := None) else old(th).(pc := Waiting)
    {
      hide At;
      st := DoneStep(env, st, Snapshot(), turn, th);
      th := if th.job.Some? then th.(pc := Idle, job := None) else th.(pc := Waiting);
      wg := wg - 1;
    }

    /** `overLimit`. */
    method OverLimit(it: Item) returns (over: bool)
      requires Tracks() && turn == 1 && th.pc.Holding? && th.job == Some(it) && it.query.cls in nodes
      modifies this`st, this`th
      ensures over <==> env.limit > 0 && |nodes[it.query.cls].queries| > env.limit
      ensures Tracks() && th == old(th).(pc := if over then Finishing else Passed)
    {
      hide At;
      st := CheckStep(env, st, Snapshot(), th, it);
      th := th.(pc := if UnderLimit(env, nodes, it) then Passed else Finishing);
      over := env.limit > 0 && |nodes[it.query.cls].queries| > env.limit;
    }

    /** The worker is in get and the priming goroutine waits. */
    ghost predicate WorkerWaits()
      reads this, work
    {
      turn == 1 && WorkerIdle(env, st, Snapshot(), th)
    }

    /** `handleQuery`, for the item just taken from the queue. */
    method HandleQuery(it: Item)
      requires ValidEnv(env) && Resting([it] + work.items)
      requires Tracks() && turn == 1 && th.pc.Holding? && th.job == Some(it) && Clean(th)
      modifies this`wg, this`seen, this`lv, this`nodes, this`lineQueries, this`st, this`th, work`items
      ensures Resting(work.items) && WorkerWaits()
      ensures old(seen) <= seen && (seen == old(seen) ==> work.items == old(work.items))
    {
      hide At, QueueOk, DepthsOk, ExpandedOk, StartOk, FetchedOk, LabelsOk, AllClaimed, ItemOk;
      HeadFact(env, [it] + work.items, lv);
      HasNode(env, it);
      LevelUp(env, [it] + work.items, nodes, lv);
      assert ([it] + work.items)[1..] == work.items && ([it] + work.items)[0] == it;
      lv := LevelOf(lv, it);
      var over := OverLimit(it);
      if !over {
        assert env.limit <= 0 ==> FetchedOk(env, [it] + work.items, nodes, lv);
        RunQuery(it);
      }
      Done();
    }

    /** Sets the count of the query on the line it came along. */
    method SetLine(it: Item, count: nat)
      requires Searching() && ItemOk(env, it)
      requires Tracks() && th.job == Some(it) && th.count == count
      requires th.pc == if it.line.Some? then Recorded else Claiming
      modifies this`lineQueries, this`st, this`th
      ensures Searching() && Tracks() && th == old(th).(pc := Claiming)
      ensures lineQueries == match it.line
                             case None => old(lineQueries)
                             case Some(k) => old(lineQueries)[k := SetCount(old(lineQueries)[k], it.query, count)]
    {
      hide At;
      if it.line.Some? {
        st := SetLineStep(env, st, Snapshot(), turn, th, it);
        th := th.(pc := Claiming);
        lineQueries := lineQueries[it.line.value := SetCount(lineQueries[it.line.value], it.query, count)];
      }
    }

    /** Runs the query of `it` and records its results. */
    method FetchResults(it: Item) returns (count: nat)
      requires ItemOk(env, it) && it.query in lv.depthOf && lv.depthOf[it.query] == it.depth == lv.level
      requires it.query.cls in nodes
      requires Searching() && ExpandedOk(env, nodes, lv) && AllClaimed(nodes) && StartOk(env, nodes, lv)
      requires env.limit <= 0 ==> FetchedOk(env, [it] + work.items, nodes, lv)
      requires Tracks() && th.pc.Passed? && th.job == Some(it)
      modifies this`lv, this`nodes, this`st, this`th
      ensures Searching() && ExpandedOk(env, nodes, lv) && StartOk(env, nodes, lv) && Fresh(nodes, lv, it.query.cls)
      ensures env.limit <= 0 ==> FetchedOk(env, work.items, nodes, lv)
      ensures lv.depthOf == old(lv).depthOf && lv.level == old(lv).level
      ensures Tracks() && th == old(th).(pc := if it.line.Some? then Recorded else Claiming, count := count,
                                         cls := it.query.cls, depth := it.depth + 1)
    {
      hide At, QueueOk, DepthsOk, ExpandedOk, StartOk, FetchedOk, Fetched, LabelsOk;
      ghost var nodes0, lv0 := nodes, lv;
      DepthFact(env, lv, it.query);
      count := RecordResults(it);
      LabelsApart(env, work.items, lv0, lv);
      LabelFact(env, nodes, lv, it.query.cls);
      if env.limit <= 0 { FetchHandled(env, it, work.items, nodes0, lv0, nodes, lv); }
    }

    /** Runs the query of `it`, records its results and counts, and applies rules to what it found. */
    method RunQuery(it: Item)
      requires ItemOk(env, it) && it.query in lv.depthOf && lv.depthOf[it.query] == it.depth == lv.level
      requires it.query.cls in nodes
      requires Searching() && ExpandedOk(env, nodes, lv) && AllClaimed(nodes) && StartOk(env, nodes, lv)
      requires env.limit <= 0 ==> FetchedOk(env, [it] + work.items, nodes, lv)
      requires Tracks() && th.pc.Passed? && th.job == Some(it) && Clean(th)
      modifies this`wg, this`seen, this`lv, this`nodes, this`lineQueries, this`st, this`th, work`items
      ensures Searching() && AtRest(env, work.items, nodes, lv)
      ensures old(lv).depthOf.Keys <= lv.depthOf.Keys
      ensures lv.depthOf.Keys == old(lv).depthOf.Keys ==> work.items == old(work.items)
      ensures Tracks() && th.pc.Finishing? && Clean(th) && th.job == old(th).job
    {
      hide At, QueueOk, DepthsOk, ExpandedOk, StartOk, FetchedOk, LabelsOk, Fresh;
      var count := FetchResults(it);
      SetLine(it, count);
      Settle(it.query.cls, it.depth + 1);
    }

    /** Applies rules to the only class with objects no rule was applied to. */
    method Settle(c: Class, depth: nat)
      requires Searching() && ExpandedOk(env, nodes, lv) && StartOk(env, nodes, lv) && Fresh(nodes, lv, c)
      requires depth == lv.level + 1
      requires env.limit <= 0 ==> FetchedOk(env, work.items, nodes, lv)
      requires Tracks() && th.pc.Claiming? && Clean(th) && th.cls == c && th.depth == depth
      modifies this`wg, this`seen, this`lv, this`nodes, this`st, this`th, work`items
      ensures Searching() && AtRest(env, work.items, nodes, lv)
      ensures old(lv).depthOf.Keys <= lv.depthOf.Keys
      ensures lv.depthOf.Keys == old(lv).depthOf.Keys ==> work.items == old(work.items)
      ensures Tracks() && th.pc.Finishing? && Clean(th) && th.job == old(th).job
    {
      hide At, QueueOk, DepthsOk, ExpandedOk, StartOk, FetchedOk, Progress;
      ghost var items1, nodes1, lv1 := work.items, nodes, lv;
      ApplyRules(c, depth);
      ComesToRest(env, items1, lv1, nodes1, c, work.items, lv, nodes, depth);
    }

    /** Adds the start objects and sends the start queries. */
    method PrimeStart()
      requires Blank(env, Snapshot().(wg := 0), lv) && wg == 1
      requires Tracks() && turn == 0 && th.pc.Primed? && Clean(th)
      modifies this`wg, this`seen, this`lv, this`nodes, this`st, this`th, work`items
      ensures Searching() && ExpandedOk(env, nodes, lv) && StartOk(env, nodes, lv) && Fresh(nodes, lv, env.startClass)
      ensures FetchedOk(env, work.items, nodes, lv) && lv.level == 0
      ensures Tracks() && th == old(th).(pc := Claiming, cls := env.startClass, depth := 1)
    {
      hide At, Blank, QueueOk, DepthsOk, LabelsOk, ExpandedOk, StartOk, FetchedOk;
      hide Progress, Fresh, Started, FirstAdmitted;
      AppendStart();
      ghost var lv1 := lv;
      SendStart();
      StartSent(env, nodes, lv1, work.items, lv);
      EndPriming();
    }

    /** The start queries are sent. */
    ghost method EndPriming()
      requires Tracks() && turn == 0 && th.pc.Priming? && Clean(th)
      modifies this`st, this`th
      ensures Tracks() && th == old(th).(pc := Claiming, cls := env.startClass, depth := 1)
    {
      hide At;
      st := EndPrimingStep(env, st, Snapshot(), th);
      th := th.(pc := Claiming, cls := env.startClass, depth := 1);
    }

    /** Appends the start objects. */
    method AppendStart()
      requires Blank(env, Snapshot().(wg := 0), lv) && wg == 1
      requires Tracks() && turn == 0 && th.pc.Primed? && Clean(th)
      modifies this`lv, this`nodes, this`st, this`th
      ensures Searching() && Started(env, nodes, lv) && lv.level == 0
      ensures Tracks() && th == old(th).(pc := Priming, pending := StartItems(env.startQueries))
    {
      hide At, Blank, SearchOk, Started, LabelsOk;
      ghost var core := Snapshot().(wg := 0);
      BlankFact(env, core, lv);
      StartLabelled(env, core, lv);
      lv := lv.(labels := lv.labels[env.startClass := AddedLabels(env, nodes, lv, env.startClass, env.startObjects)]);
      AddStart();
      assert Snapshot() == core.(wg := 1, nodes := nodes);
    }

    /** Adds the start objects to the start node and turns to the start queries. */
    method AddStart()
      requires Tracks() && turn == 0 && th.pc.Primed? && env.startClass in nodes
      modifies this`nodes, this`st, this`th
      ensures nodes == old(nodes)[env.startClass := AddedNode(env, old(nodes), env.startClass, env.startObjects)]
      ensures Tracks() && th == old(th).(pc := Priming, pending := StartItems(env.startQueries))
    {
      hide At;
      st := AppendStartStep(env, st, Snapshot(), th);
      th := th.(pc := Priming, pending := StartItems(env.startQueries));
      var count := AddResults(env.startClass, env.startObjects);
    }

    /** Sends start query `i`, `levels` being the state before the first. */
    method SendStartQuery(i: nat, ghost levels: Levels)
      requires Searching() && Progress([], levels, work.items, lv, 0) && lv.level == 0 && i < |env.startQueries|
      requires FirstAdmitted(env, i, lv) && forall j :: 0 <= j < |work.items| ==> work.items[j].depth == 0
      requires Tracks() && th.pc.Priming? && th.send.Ready? && th.pending == StartItems(env.startQueries)[i..]
      modifies this`wg, this`seen, this`lv, this`st, this`th, work`items
      ensures Searching() && Progress([], levels, work.items, lv, 0) && lv.level == 0
      ensures FirstAdmitted(env, i + 1, lv) && forall j :: 0 <= j < |work.items| ==> work.items[j].depth == 0
      ensures Tracks() && th == old(th).(pending := StartItems(env.startQueries)[i + 1..])
    {
      hide At, QueueOk, DepthsOk, LabelsOk;
      SendItem(Item(env.startQueries[i], None, 0));
      ProgressJoin([], levels, old(work.items), old(lv), work.items, lv, 0);
    }

    /** Sends the start queries. */
    method SendStart()
      requires Searching() && work.items == [] && lv.level == 0
      requires Tracks() && th.pc.Priming? && th.send.Ready? && th.pending == StartItems(env.startQueries)
      modifies this`wg, this`seen, this`lv, this`st, this`th, work`items
      ensures Searching() && Progress([], old(lv), work.items, lv, 0)
      ensures FirstAdmitted(env, |env.startQueries|, lv)
      ensures Tracks() && th == old(th).(pending := [])
    {
      hide At, QueueOk, DepthsOk, LabelsOk, Progress;
      ProgressStarts(work.items, lv, 0);
      for i := 0 to |env.startQueries|
        invariant Searching() && Progress([], old(lv), work.items, lv, 0) && lv.level == 0
        invariant FirstAdmitted(env, i, lv) && forall j :: 0 <= j < |work.items| ==> work.items[j].depth == 0
        invariant Tracks() && th == old(th).(pending := StartItems(env.startQueries)[i..])
      {
        SendStartQuery(i, old(lv));
      }
    }

    /** `run`: primes the search under the sentinel, then handles items until none are left. It ends
        if only finitely many queries are derivable within the depth limit, in a state in which a run of
        the protocol returns. */
    method Run(ghost universe: set<Query>)
      requires ValidEnv(env) && wg == 0 && Blank(env, Snapshot(), lv)
      requires Tracks() && turn == 0 && th == NewThread(env, Unstarted)
      requires Bounded(env, universe)
      modifies this`wg, this`seen, this`lv, this`nodes, this`lineQueries, this`st, this`turn, this`th, work
      ensures work.items == [] && work.closed && wg == 0 && seen == lv.depthOf.Keys
      ensures env.limit <= 0 ==> Finished(env, nodes, lv)
      ensures Reachable(env, st) && CoreOf(st.sh) == Snapshot() && !st.sh.cancelled && |st.threads| == 2
      ensures st.threads[0].pc.Returned?
    {
      hide At, Blank, AtRest, QueueOk, DepthsOk, LabelsOk, ExpandedOk, StartOk, FetchedOk, Finished, AllClaimed;
      st := SentinelStep(env, st, Snapshot(), th);
      th := th.(pc := Primed);
      wg := wg + 1;
      Prime();
      Done();
      HandOver(env, st, Snapshot(), th);
      turn, th := 1, st.threads[1];
      Drain(universe);
      if env.limit <= 0 { RestIsFinished(env, nodes, lv); }
      work.Close();
      st := Finish(env, st, Snapshot(), th);
    }

    /** Adds the start data and applies rules to the start objects. */
    method Prime()
      requires Blank(env, Snapshot().(wg := 0), lv) && wg == 1
      requires Tracks() && turn == 0 && th.pc.Primed? && Clean(th) && th.job == None
      modifies this`wg, this`seen, this`lv, this`nodes, this`st, this`th, work`items
      ensures Searching() && AtRest(env, work.items, nodes, lv)
      ensures Tracks() && th.pc.Finishing? && Clean(th) && th.job == None
    {
      hide At, Blank, QueueOk, DepthsOk, LabelsOk, ExpandedOk, StartOk, FetchedOk, Fresh, AtRest;
      PrimeStart();
      Settle(env.startClass, 1);
    }

    /** The worker's loop. */
    method Drain(ghost universe: set<Query>)
      requires ValidEnv(env) && Resting(work.items) && WorkerWaits() && Bounded(env, universe)
      modifies this`wg, this`seen, this`lv, this`nodes, this`lineQueries, this`st, this`th, work`items
      ensures work.items == [] && Resting([]) && WorkerWaits()
    {
      hide At, AtRest;
      while work.items != []
        invariant Resting(work.items) && WorkerWaits()
        decreases universe - seen, |work.items|
      {
        HandleNext(universe);
      }
    }

    /** Takes the next item from the queue and handles it. */
    method HandleNext(ghost universe: set<Query>)
      requires ValidEnv(env) && work.items != [] && Resting(work.items) && Bounded(env, universe)
      requires WorkerWaits()
      modifies this`wg, this`seen, this`lv, this`nodes, this`lineQueries, this`st, this`th, work`items
      ensures Resting(work.items) && WorkerWaits() && old(seen) <= seen <= universe
      ensures seen == old(seen) ==> |work.items| < |old(work.items)|
    {
      hide At, QueueOk, ExpandedOk, StartOk, FetchedOk;
      st := GetStep(env, st, Snapshot(), th);
      th := th.(pc := Holding, job := Some(work.items[0]));
      var it := work.Get();
      assert [it.value] + work.items == old(work.items);
      HandleQuery(it.value);
      SeenBounded(env, lv, universe);
    }
  }

  /** The first `n` start queries were admitted. */
  ghost predicate FirstAdmitted(env: Env, n: nat, lv: Levels)
    requires n <= |env.startQueries|
  {
    forall i :: 0 <= i < n ==> env.startQueries[i] in lv.depthOf
  }

  lemma BlankFact(env: Env, core: Core, lv: Levels)
    requires Blank(env, core, lv)
    ensures env.startClass in core.nodes && env.startClass in lv.labels
  {
  }

  /** Appending the start objects under the sentinel begins the search. */
  lemma StartLabelled(env: Env, core: Core, lv: Levels)
    requires Blank(env, core, lv) && env.startClass in core.nodes && env.startClass in lv.labels
    ensures var c := env.startClass;
            var nodes' := core.nodes[c := AddedNode(env, core.nodes, c, env.startObjects)];
            var lv' := lv.(labels := lv.labels[c := AddedLabels(env, core.nodes, lv, c, env.startObjects)]);
            Started(env, nodes', lv') && SearchOk(env, core.(wg := 1, nodes := nodes'), lv') && lv'.level == 0
  {
    var c := env.startClass;
    var node := AddedNode(env, core.nodes, c, env.startObjects);
    AddLabelled(env, core.nodes, lv, c, env.startObjects, node,
                lv.(labels := lv.labels[c := AddedLabels(env, core.nodes, lv, c, env.startObjects)]));
  }

  /** After the start queries are sent, nothing is expanded and everything admitted is queued. */
  lemma StartSent(env: Env, nodes: map<Class, NodeState>, lv0: Levels, queue: seq<Item>, lv: Levels)
    requires Progress([], lv0, queue, lv, 0) && Started(env, nodes, lv0) && FirstAdmitted(env, |env.startQueries|, lv)
    ensures FetchedOk(env, queue, nodes, lv) && ExpandedOk(env, nodes, lv) && StartOk(env, nodes, lv)
    ensures Fresh(nodes, lv, env.startClass) && lv.level == 0
  {
  }

  /** At rest with nothing pending, the search is finished. */
  lemma RestIsFinished(env: Env, nodes: map<Class, NodeState>, lv: Levels)
    requires AtRest(env, [], nodes, lv) && nodes.Keys == NodeClasses(env) && env.limit <= 0
    ensures Finished(env, nodes, lv)
  {
  }

  /** `universe` holds every query derivable within the depth limit. */
  ghost predicate Bounded(env: Env, universe: set<Query>) {
    forall q, n: nat :: !TooDeep(env, n) && DerivedQuery(env, q, n) ==> q in universe
  }

  lemma SeenBounded(env: Env, lv: Levels, universe: set<Query>)
    requires DepthsOk(env, lv) && Bounded(env, universe)
    ensures lv.depthOf.Keys <= universe
  {
  }

  lemma FollowsDeeper(env: Env, c: Class, o: Object, r: Rule, q: Query, n: nat)
    requires DerivedObject(env, c, o, n) && Follows(env, c, o, r, q)
    ensures DerivedQuery(env, q, n + 1)
  {
  }

  lemma FollowsRule(env: Env, c: Class, o: Object, r: Rule, q: Query)
    requires Follows(env, c, o, r, q)
    ensures r in RulesFor(env, c)
  {
    assert LineKey(c, r, q.cls).rule == r;
  }
}

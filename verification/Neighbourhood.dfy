/** What a neighbourhood search computes: restricting the rules to those near the start class loses
    nothing within the depth limit, and one worker agrees with any number of them. */
module Neighbourhood {
  import opened Correlation
  import opened Protocol
  import opened Accounting
  import opened Fixpoint
  import opened Sequential

  /** Class `c` is at most `n` lines from `start`. */
  ghost predicate WithinHops(lines: map<LineKey, nat>, start: Class, c: Class, n: nat) {
    if n == 0 then c == start
    else WithinHops(lines, start, c, n - 1)
         || exists k :: k in lines && k.goal == c && WithinHops(lines, start, k.start, n - 1)
  }

  /** `neighborScope`: the lines whose start class is fewer than `depth` lines from `start`. */
  ghost function NeighborScope(lines: map<LineKey, nat>, start: Class, depth: nat): map<LineKey, nat> {
    if depth == 0 then map[]
    else map k | k in lines && WithinHops(lines, start, k.start, depth - 1) :: lines[k]
  }

  // ---- the walk ---------------------------------------------------------------------------------------

  datatype Hop = Hop(cls: Class, depth: nat)

  /** Queued hops are in order of depth, distinct, and span at most one level beyond `level`. */
  predicate HopsOk(queue: seq<Hop>, dist: map<Class, nat>, level: nat) {
    && (forall i :: 0 <= i < |queue| ==>
          queue[i].cls in dist && dist[queue[i].cls] == queue[i].depth && level <= queue[i].depth <= level + 1)
    && (forall i, j :: 0 <= i < j < |queue| ==> queue[i].depth <= queue[j].depth && queue[i].cls != queue[j].cls)
  }

  /** Distances are sound. */
  ghost predicate DistOk(lines: map<LineKey, nat>, start: Class, dist: map<Class, nat>, level: nat) {
    && start in dist && dist[start] == 0
    && forall c :: c in dist ==> dist[c] <= level + 1 && WithinHops(lines, start, c, dist[c])
  }

  /** The classes in `done` were dequeued; the other classes with a distance are queued. */
  predicate DoneOk(queue: seq<Hop>, dist: map<Class, nat>, done: set<Class>) {
    && done <= dist.Keys
    && (forall i :: 0 <= i < |queue| ==> queue[i].cls !in done)
    && (forall c :: c in dist && c !in done ==> exists i :: 0 <= i < |queue| && queue[i].cls == c)
  }

  /** The goals of the lines out of every dequeued class have distances. */
  predicate Explored(lines: map<LineKey, nat>, depth: nat, dist: map<Class, nat>, done: set<Class>) {
    forall k :: k in lines && k.start in done && k.start in dist && dist[k.start] < depth ==>
      k.goal in dist && dist[k.goal] <= dist[k.start] + 1
  }

  /** The scope holds the lines out of the dequeued classes short of the depth. */
  ghost predicate ScopeOk(lines: map<LineKey, nat>, depth: nat, dist: map<Class, nat>, done: set<Class>,
                          scope: map<LineKey, nat>) {
    && (forall k :: k in scope <==> k in lines && k.start in done && k.start in dist && dist[k.start] < depth)
    && (forall k :: k in scope ==> scope[k] == lines[k])
  }

  function Ends(lines: map<LineKey, nat>): set<Class> { set k | k in lines :: k.goal }

  /** Gives each new class of `goals` the next distance and queues it. */
  method Visit(lines: map<LineKey, nat>, start: Class, from: Class, goals: set<Class>, queue: seq<Hop>,
               dist: map<Class, nat>,
               ghost done: set<Class>, level: nat)
    returns (queue': seq<Hop>, dist': map<Class, nat>)
    requires HopsOk(queue, dist, level) && DistOk(lines, start, dist, level) && DoneOk(queue, dist, done)
    requires WithinHops(lines, start, from, level)
    requires forall c :: c in goals ==> exists k :: k in lines && k.start == from && k.goal == c
    ensures HopsOk(queue', dist', level) && DistOk(lines, start, dist', level) && DoneOk(queue', dist', done)
    ensures forall c :: c in dist ==> c in dist' && dist'[c] == dist[c]
    ensures forall c :: c in goals ==> c in dist' && dist'[c] <= level + 1
    ensures dist'.Keys <= dist.Keys + goals
  {
    queue', dist' := queue, dist;
    var rest := goals;
    while rest != {}
      invariant rest <= goals
      invariant HopsOk(queue', dist', level) && DistOk(lines, start, dist', level) && DoneOk(queue', dist', done)
      invariant forall c :: c in dist ==> c in dist' && dist'[c] == dist[c]
      invariant forall c :: c in goals && c !in rest ==> c in dist'
      invariant dist'.Keys <= dist.Keys + goals
      decreases rest
    {
      var c :| c in rest;
      if c !in dist' {
        assert WithinHops(lines, start, c, level + 1);
        QueueHop(queue', dist', done, c, level);
        queue' := queue' + [Hop(c, level + 1)];
        dist' := dist'[c := level + 1];
      }
      rest := rest - {c};
    }
  }

  lemma QueueHop(queue: seq<Hop>, dist: map<Class, nat>, done: set<Class>, c: Class, level: nat)
    requires HopsOk(queue, dist, level) && DoneOk(queue, dist, done) && c !in dist
    ensures HopsOk(queue + [Hop(c, level + 1)], dist[c := level + 1], level)
    ensures DoneOk(queue + [Hop(c, level + 1)], dist[c := level + 1], done)
  {
    var queue', dist' := queue + [Hop(c, level + 1)], dist[c := level + 1];
    forall b | b in dist' && b !in done ensures exists i :: 0 <= i < |queue'| && queue'[i].cls == b {
      if b == c {
        assert queue'[|queue|].cls == c;
      } else {
        var i :| 0 <= i < |queue| && queue[i].cls == b;
        assert queue'[i].cls == b;
      }
    }
  }

  /** Taking the head of the queue makes its depth the current level. */
  lemma Dequeue(lines: map<LineKey, nat>, start: Class, queue: seq<Hop>, dist: map<Class, nat>, done: set<Class>,
                level: nat)
    requires queue != [] && HopsOk(queue, dist, level) && DistOk(lines, start, dist, level) && DoneOk(queue, dist, done)
    ensures HopsOk(queue[1..], dist, queue[0].depth) && DistOk(lines, start, dist, queue[0].depth)
    ensures DoneOk(queue[1..], dist, done + {queue[0].cls})
    ensures queue[0].cls in dist && dist[queue[0].cls] == queue[0].depth && queue[0].cls !in done
    ensures WithinHops(lines, start, queue[0].cls, queue[0].depth)
  {
    forall c | c in dist && c !in done + {queue[0].cls}
      ensures exists i :: 0 <= i < |queue[1..]| && queue[1..][i].cls == c
    {
      var i :| 0 <= i < |queue| && queue[i].cls == c;
      assert queue[1..][i - 1].cls == c;
    }
  }

  /** The lines out of a class. */
  function LinesFrom(lines: map<LineKey, nat>, c: Class): map<LineKey, nat> {
    map k | k in lines && k.start == c :: lines[k]
  }

  function GoalsFrom(lines: map<LineKey, nat>, c: Class): set<Class> { set k | k in lines && k.start == c :: k.goal }

  /** Once its goals have distances, a dequeued class is explored, and its lines are in scope. */
  lemma Visited(lines: map<LineKey, nat>, depth: nat, dist: map<Class, nat>, dist': map<Class, nat>, done: set<Class>,
                c: Class, scope: map<LineKey, nat>)
    requires Explored(lines, depth, dist, done) && ScopeOk(lines, depth, dist, done, scope)
    requires c in dist && c !in done && done <= dist.Keys && forall d :: d in dist ==> d in dist' && dist'[d] == dist[d]
    requires dist[c] < depth ==> forall d :: d in GoalsFrom(lines, c) ==> d in dist' && dist'[d] <= dist[c] + 1
    ensures Explored(lines, depth, dist', done + {c})
    ensures ScopeOk(lines, depth, dist', done + {c}, if dist[c] < depth then scope + LinesFrom(lines, c) else scope)
  {
    forall k | k in lines && k.start == c ensures k.goal in GoalsFrom(lines, c) {
    }
  }

  lemma {:induction false} DistExact(lines: map<LineKey, nat>, start: Class, depth: nat, dist: map<Class, nat>,
                                     done: set<Class>,
                                     level: nat, c: Class, n: nat)
    requires DistOk(lines, start, dist, level) && DoneOk([], dist, done) && Explored(lines, depth, dist, done)
    requires WithinHops(lines, start, c, n) && n <= depth
    ensures c in done && dist[c] <= n
    decreases n
  {
    if n > 0 {
      if WithinHops(lines, start, c, n - 1) {
        DistExact(lines, start, depth, dist, done, level, c, n - 1);
      } else {
        var k :| k in lines && k.goal == c && WithinHops(lines, start, k.start, n - 1);
        DistExact(lines, start, depth, dist, done, level, k.start, n - 1);
      }
    }
  }

  /** `neighborScope` by breadth-first walk: a line is in scope when the walk dequeues its start class
      at a depth short of the limit, and only such lines are followed. */
  method WalkScope(lines: map<LineKey, nat>, start: Class, depth: nat) returns (scope: map<LineKey, nat>)
    ensures scope == NeighborScope(lines, start, depth)
  {
    hide HopsOk, DistOk, DoneOk, Explored, ScopeOk, WithinHops, NeighborScope;
    var queue, dist := [Hop(start, 0)], map[start := 0];
    ghost var done, level := {}, 0;
    scope := map[];
    WalkStarts(lines, start, depth);
    while queue != []
      invariant HopsOk(queue, dist, level) && DistOk(lines, start, dist, level) && DoneOk(queue, dist, done)
      invariant Explored(lines, depth, dist, done) && ScopeOk(lines, depth, dist, done, scope)
      invariant done <= dist.Keys <= Ends(lines) + {start}
      decreases Ends(lines) + {start} - done
    {
      var hop := queue[0];
      Dequeue(lines, start, queue, dist, done, level);
      ghost var dist0, done0, scope0 := dist, done, scope;
      queue, done, level := queue[1..], done + {hop.cls}, hop.depth;
      if hop.depth < depth {
        scope := scope + LinesFrom(lines, hop.cls);
        GoalsAreEnds(lines, hop.cls);
        queue, dist := Visit(lines, start, hop.cls, GoalsFrom(lines, hop.cls), queue, dist, done, hop.depth);
      }
      Visited(lines, depth, dist0, dist, done0, hop.cls, scope0);
    }
    ScopeExact(lines, start, depth, dist, done, level, scope);
  }

  lemma WalkStarts(lines: map<LineKey, nat>, start: Class, depth: nat)
    ensures HopsOk([Hop(start, 0)], map[start := 0], 0) && DistOk(lines, start, map[start := 0], 0)
    ensures DoneOk([Hop(start, 0)], map[start := 0], {})
    ensures Explored(lines, depth, map[start := 0], {}) && ScopeOk(lines, depth, map[start := 0], {}, map[])
  {
    assert [Hop(start, 0)][0].cls == start;
  }

  lemma GoalsAreEnds(lines: map<LineKey, nat>, c: Class)
    ensures GoalsFrom(lines, c) <= Ends(lines)
    ensures forall d :: d in GoalsFrom(lines, c) ==> exists k :: k in lines && k.start == c && k.goal == d
  {
  }

  lemma ScopeExact(lines: map<LineKey, nat>, start: Class, depth: nat, dist: map<Class, nat>, done: set<Class>,
                   level: nat,
                   scope: map<LineKey, nat>)
    requires DistOk(lines, start, dist, level) && DoneOk([], dist, done) && Explored(lines, depth, dist, done)
    requires ScopeOk(lines, depth, dist, done, scope)
    ensures scope == NeighborScope(lines, start, depth)
  {
    forall k | k in lines && depth > 0 && WithinHops(lines, start, k.start, depth - 1) ensures k in scope {
      DistExact(lines, start, depth, dist, done, level, k.start, depth - 1);
    }
    forall k | k in scope ensures depth > 0 && WithinHops(lines, start, k.start, depth - 1) {
      HopsGrow(lines, start, k.start, dist[k.start], depth - 1);
    }
  }

  // ---- nothing is lost --------------------------------------------------------------------------------

  /** A neighbourhood search over all the lines, and the one the program makes. */
  ghost function Scoped(env: Env, depth: nat): Env {
    env.(lines := NeighborScope(env.lines, env.startClass, depth), maxDepth := depth)
  }

  /** Some object of the class with this key is derivable in `depth` rule applications. */
  ghost predicate NearKey(env: Env, depth: nat, c: Class, key: Key) {
    exists o :: DerivedObject(env, c, o, depth) && KeyOf(env, c, o) == key
  }

  /** The nodes hold, up to IDs, exactly the objects that are derivable in `depth` rule applications. */
  ghost predicate HoldsKeysNear(env: Env, depth: nat, nodes: map<Class, NodeState>) {
    forall c, key :: (c in nodes && HasKey(env, c, nodes[c].result, key)) <==> NearKey(env, depth, c, key)
  }

  lemma {:induction false} QueryWithinHops(env: Env, q: Query, n: nat)
    requires ValidEnv(env) && DerivedQuery(env, q, n)
    ensures WithinHops(env.lines, env.startClass, q.cls, n)
    decreases n, 0
  {
    if n > 0 {
      if DerivedQuery(env, q, n - 1) {
        QueryWithinHops(env, q, n - 1);
      } else {
        var c, o, r :| DerivedObject(env, c, o, n - 1) && Follows(env, c, o, r, q);
        ObjectWithinHops(env, c, o, n - 1);
        assert LineKey(c, r, q.cls).goal == q.cls;
      }
    }
  }

  lemma {:induction false} StartWithinHops(lines: map<LineKey, nat>, start: Class, n: nat)
    ensures WithinHops(lines, start, start, n)
  {
    if n > 0 { StartWithinHops(lines, start, n - 1); }
  }

  lemma {:induction false} ObjectWithinHops(env: Env, c: Class, o: Object, n: nat)
    requires ValidEnv(env) && DerivedObject(env, c, o, n)
    ensures WithinHops(env.lines, env.startClass, c, n)
    decreases n, 1
  {
    if c == env.startClass && o in env.startObjects {
      StartWithinHops(env.lines, c, n);
    } else {
      var q :| DerivedQuery(env, q, n) && q.cls == c && o in env.get(q);
      QueryWithinHops(env, q, n);
    }
  }

  lemma {:induction false} HopsGrow(lines: map<LineKey, nat>, start: Class, c: Class, m: nat, n: nat)
    requires m <= n && WithinHops(lines, start, c, m)
    ensures WithinHops(lines, start, c, n)
    decreases n
  {
    if m < n { HopsGrow(lines, start, c, m, n - 1); }
  }

  /** Down to the depth limit, the scoped rules derive exactly the queries that all rules derive. */
  lemma {:induction false} ScopeLosesNoQuery(env: Env, depth: nat, q: Query, n: nat)
    requires ValidEnv(env) && n <= depth
    ensures DerivedQuery(Scoped(env, depth), q, n) <==> DerivedQuery(env, q, n)
    decreases n, 0
  {
    if n > 0 {
      var scoped := Scoped(env, depth);
      ScopeLosesNoQuery(env, depth, q, n - 1);
      if DerivedQuery(env, q, n) && !DerivedQuery(env, q, n - 1) {
        var c, o, r :| DerivedObject(env, c, o, n - 1) && Follows(env, c, o, r, q);
        ScopeLosesNoObject(env, depth, c, o, n - 1);
        ObjectWithinHops(env, c, o, n - 1);
        HopsGrow(env.lines, env.startClass, c, n - 1, depth - 1);
        assert Follows(scoped, c, o, r, q);
      }
      if DerivedQuery(scoped, q, n) && !DerivedQuery(scoped, q, n - 1) {
        var c, o, r :| DerivedObject(scoped, c, o, n - 1) && Follows(scoped, c, o, r, q);
        ScopeLosesNoObject(env, depth, c, o, n - 1);
        assert Follows(env, c, o, r, q);
      }
    }
  }

  lemma {:induction false} ScopeLosesNoObject(env: Env, depth: nat, c: Class, o: Object, n: nat)
    requires ValidEnv(env) && n <= depth
    ensures DerivedObject(Scoped(env, depth), c, o, n) <==> DerivedObject(env, c, o, n)
    decreases n, 1
  {
    forall q ensures DerivedQuery(Scoped(env, depth), q, n) <==> DerivedQuery(env, q, n) {
      ScopeLosesNoQuery(env, depth, q, n);
    }
  }

  lemma ScopedRespectsIds(env: Env, depth: nat)
    requires RespectsIds(env)
    ensures RespectsIds(Scoped(env, depth))
  {
    var scoped := Scoped(env, depth);
    forall c, o1, o2, r, q | KeyOf(scoped, c, o1) == KeyOf(scoped, c, o2) && Follows(scoped, c, o1, r, q)
      ensures Follows(scoped, c, o2, r, q)
    {
      assert KeyOf(env, c, o1) == KeyOf(env, c, o2) && Follows(env, c, o1, r, q);
      assert Follows(env, c, o2, r, q);
    }
  }

  /** A finished search over the scoped rules admitted exactly the queries that all the rules derive
      within `depth` applications, each at its least depth. */
  lemma NeighborsExact(env: Env, depth: nat, nodes: map<Class, NodeState>, lv: Levels)
    requires ValidEnv(env) && RespectsIds(env) && Finished(Scoped(env, depth), nodes, lv)
    ensures forall q :: q in lv.depthOf <==> DerivedQuery(env, q, depth)
    ensures forall q, n: nat :: q in lv.depthOf && DerivedQuery(env, q, n) ==> lv.depthOf[q] <= n
  {
    var scoped := Scoped(env, depth);
    ScopedRespectsIds(env, depth);
    ExactBreadthFirst(scoped, nodes, lv);
    forall q | q in lv.depthOf ensures DerivedQuery(env, q, depth) {
      var n: nat :| !TooDeep(scoped, n) && DerivedQuery(scoped, q, n);
      DerivedMonotone(scoped, q, n, depth);
      ScopeLosesNoQuery(env, depth, q, depth);
    }
    forall q, n: nat | n <= depth && DerivedQuery(env, q, n) ensures q in lv.depthOf && lv.depthOf[q] <= n {
      ScopeLosesNoQuery(env, depth, q, n);
      assert !TooDeep(scoped, n);
    }
  }

  lemma {:induction false} ScopedWithinHops(env: Env, depth: nat, q: Query, n: nat)
    requires ValidEnv(env) && DerivedQuery(Scoped(env, depth), q, n)
    ensures WithinHops(env.lines, env.startClass, q.cls, depth)
    decreases n
  {
    var scoped := Scoped(env, depth);
    if n == 0 {
      StartWithinHops(env.lines, env.startClass, depth);
    } else if DerivedQuery(scoped, q, n - 1) {
      ScopedWithinHops(env, depth, q, n - 1);
    } else {
      var c, o, r :| DerivedObject(scoped, c, o, n - 1) && Follows(scoped, c, o, r, q);
      var k := LineKey(c, r, q.cls);
      assert k in env.lines && k.goal == q.cls && WithinHops(env.lines, env.startClass, k.start, depth - 1);
    }
  }

  /** Whatever the number of workers and the interleaving, a neighbourhood search runs only queries of
      classes at most `depth` lines from the start class. */
  lemma PoolWithinHops(env: Env, depth: nat, s: State)
    requires ValidEnv(env) && Reachable(Scoped(env, depth), s)
    ensures forall q :: q in s.sh.seen ==> WithinHops(env.lines, env.startClass, q.cls, depth)
  {
    OnlyDerivable(Scoped(env, depth), s);
    forall q | q in s.sh.seen ensures WithinHops(env.lines, env.startClass, q.cls, depth) {
      var n: nat :| DerivedQuery(Scoped(env, depth), q, n);
      ScopedWithinHops(env, depth, q, n);
    }
  }

  /** One worker without a depth limit admits what any unlimited concurrent run admits. */
  lemma OneWorkerAgrees(env: Env, nodes: map<Class, NodeState>, lv: Levels, s: State)
    requires ValidEnv(env) && RespectsIds(env) && Finished(env, nodes, lv)
    requires Reachable(env, s) && ShuttingDown(s) && Unlimited(env, s.sh)
    ensures lv.depthOf.Keys == s.sh.seen.Keys
  {
    ComputesLeastFixpoint(env, s);
    ExactBreadthFirst(env, nodes, lv);
    forall q | q in s.sh.seen ensures q in lv.depthOf {
      var n: nat :| DerivedQuery(env, q, n);
      assert !TooDeep(env, n);
    }
  }
}

/** When a neighbourhood search by any number of workers is exact: if no rule is left to apply where a
    walk along the scope has used up the depth, no depth label matters, and the pool finds exactly what
    is derivable within the depth. */
module PoolDepth {
  import opened Correlation
  import opened Protocol
  import opened Accounting
  import opened Fixpoint
  import opened Neighbourhood

  /** A walk of exactly `n` lines leads from `start` to `c`. */
  ghost predicate ExactHops(lines: map<LineKey, nat>, start: Class, c: Class, n: nat) {
    if n == 0 then c == start
    else exists k :: k in lines && k.goal == c && ExactHops(lines, start, k.start, n - 1)
  }

  /** No line starts where a walk of `depth` lines ends. */
  ghost predicate Levelled(lines: map<LineKey, nat>, start: Class, depth: nat) {
    forall k :: k in lines ==> !ExactHops(lines, start, k.start, depth)
  }

  /** Then no walk is longer. */
  lemma {:induction false} WalksStop(lines: map<LineKey, nat>, start: Class, depth: nat, c: Class, n: nat)
    requires Levelled(lines, start, depth) && ExactHops(lines, start, c, n)
    ensures n <= depth
    decreases n
  {
    if n > depth {
      var k :| k in lines && k.goal == c && ExactHops(lines, start, k.start, n - 1);
      WalksStop(lines, start, depth, k.start, n - 1);
    }
  }

  // ---- depth labels are lengths of walks ------------------------------------------------------------------

  ghost predicate ItemWalks(env: Env, it: Item) { ExactHops(env.lines, env.startClass, it.query.cls, it.depth) }

  ghost predicate ThreadWalks(env: Env, th: Thread) {
    && (th.job.Some? ==> ItemWalks(env, th.job.value))
    && (!th.send.Ready? ==> ItemWalks(env, th.send.item))
    && (InRules(th.pc) ==> th.depth > 0 && ExactHops(env.lines, env.startClass, th.cls, th.depth - 1))
    && (forall i :: 0 <= i < |th.pending| ==> ItemWalks(env, th.pending[i]))
  }

  ghost predicate QueueWalks(env: Env, items: seq<Item>) {
    forall i :: 0 <= i < |items| ==> ItemWalks(env, items[i])
  }

  ghost predicate DepthsWalk(env: Env, s: State) {
    QueueWalks(env, s.sh.queue) && forall i :: 0 <= i < |s.threads| ==> ThreadWalks(env, s.threads[i])
  }

  lemma ThreadWalksMove(env: Env, sh: Shared, th: Thread, a: Action)
    requires ValidEnv(env) && Guard(env, sh, th, a) && RoleOk(th)
    requires ThreadWalks(env, th) && QueueWalks(env, sh.queue)
    ensures ThreadWalks(env, Moved(env, sh, th, a))
  {
    hide Moved, Effect;
    HandsFrame(env, sh, th, a);
    RulesFrame(env, sh, th, a);
    if a.ApplyRule? {
      var items := ItemsOf(env, th, a.rule);
      SendsOk(env, th.cls, a.rule, th.depth, env.apply(a.rule, th.objects[th.at]));
      forall i | 0 <= i < |items| ensures ItemWalks(env, items[i]) {
        assert items[i] in items;
        assert LineKey(th.cls, a.rule, items[i].query.cls) in env.lines;
      }
    }
  }

  lemma QueueWalksStep(env: Env, sh: Shared, th: Thread, a: Action)
    requires Guard(env, sh, th, a) && ThreadWalks(env, th) && QueueWalks(env, sh.queue)
    ensures QueueWalks(env, Effect(env, sh, th, a).queue)
  {
    hide Moved, Effect;
    QueueFrame(env, sh, th, a);
  }

  lemma DepthsWalkStep(env: Env, s: State, t: nat, a: Action)
    requires ValidEnv(env) && Shape(env, s) && DepthsWalk(env, s) && Enabled(env, s, t, a)
    ensures DepthsWalk(env, Do(env, s, t, a))
  {
    hide Moved, Effect, Guard, ThreadWalks, QueueWalks;
    ThreadWalksMove(env, s.sh, s.threads[t], a);
    QueueWalksStep(env, s.sh, s.threads[t], a);
  }

  lemma DepthsWalkInit(env: Env, s: State)
    requires IsInit(env, s)
    ensures DepthsWalk(env, s)
  {
  }

  /** Under any interleaving, the depth of an item is the length of a walk to its class. */
  lemma {:induction false} DepthsWalkAlong(env: Env, run: seq<State>, i: nat)
    requires ValidEnv(env) && IsRun(env, run) && i < |run|
    ensures DepthsWalk(env, run[i])
    decreases i
  {
    hide DepthsWalk, Shape, Enabled, Do;
    if i == 0 {
      DepthsWalkInit(env, run[0]);
    } else {
      var t, a := StepTo(env, run, i);
      DepthsWalkAlong(env, run, i - 1);
      ShapeAlong(env, run, i - 1);
      DepthsWalkStep(env, run[i - 1], t, a);
    }
  }

  // ---- so the depth limit makes no difference ---------------------------------------------------------------

  function Boundless(env: Env): Env { env.(maxDepth := -1) }

  lemma {:induction false} AddAllSame(env: Env, c: Class, list: seq<Object>, objects: seq<Object>)
    ensures AddAll(Boundless(env), c, list, objects) == AddAll(env, c, list, objects)
    decreases objects
  {
    if objects != [] {
      assert forall o :: KeyOf(Boundless(env), c, o) == KeyOf(env, c, o);
      assert HasKey(Boundless(env), c, list, KeyOf(env, c, objects[0]))
          == HasKey(env, c, list, KeyOf(env, c, objects[0]));
      AddAllSame(env, c, AddOne(env, c, list, objects[0]), objects[1..]);
    }
  }

  lemma {:induction false} SendsSame(env: Env, c: Class, r: Rule, depth: nat, queries: seq<Query>)
    ensures Sends(Boundless(env), c, r, depth, queries) == Sends(env, c, r, depth, queries)
  {
    if queries != [] { SendsSame(env, c, r, depth, queries[1..]); }
  }

  lemma GuardSame(env: Env, sh: Shared, th: Thread, a: Action)
    requires Guard(env, sh, th, a) && ThreadWalks(env, th) && env.maxDepth >= 0
    requires Levelled(env.lines, env.startClass, env.maxDepth)
    ensures Guard(Boundless(env), sh, th, a)
  {
    if CanSend(th) {
      var it := th.pending[0];
      WalksStop(env.lines, env.startClass, env.maxDepth, it.query.cls, it.depth);
    }
  }

  lemma MovedSame(env: Env, sh: Shared, th: Thread, a: Action)
    requires Guard(env, sh, th, a) && Guard(Boundless(env), sh, th, a)
    ensures Moved(Boundless(env), sh, th, a) == Moved(env, sh, th, a)
  {
    match a
    case Record =>
      AddAllSame(env, th.job.value.query.cls, sh.nodes[th.job.value.query.cls].result, env.get(th.job.value.query));
    case ApplyRule(r) => SendsSame(env, th.cls, r, th.depth, env.apply(r, th.objects[th.at]));
    case _ =>
  }

  lemma EffectSame(env: Env, sh: Shared, th: Thread, a: Action)
    requires Guard(env, sh, th, a) && Guard(Boundless(env), sh, th, a)
    ensures Effect(Boundless(env), sh, th, a) == Effect(env, sh, th, a)
  {
    match a
    case AppendStart => AddAllSame(env, env.startClass, sh.nodes[env.startClass].result, env.startObjects);
    case Record =>
      AddAllSame(env, th.job.value.query.cls, sh.nodes[th.job.value.query.cls].result, env.get(th.job.value.query));
    case _ =>
  }

  lemma StepSame(env: Env, s: State, t: nat, a: Action)
    requires env.maxDepth >= 0 && Levelled(env.lines, env.startClass, env.maxDepth)
    requires DepthsWalk(env, s) && Enabled(env, s, t, a)
    ensures Enabled(Boundless(env), s, t, a) && Do(Boundless(env), s, t, a) == Do(env, s, t, a)
  {
    hide Guard, Moved, Effect;
    GuardSame(env, s.sh, s.threads[t], a);
    MovedSame(env, s.sh, s.threads[t], a);
    EffectSame(env, s.sh, s.threads[t], a);
  }

  /** Every run of the search is a run of the search without a depth limit. */
  lemma RunsSame(env: Env, s: State)
    requires ValidEnv(env) && env.maxDepth >= 0 && Levelled(env.lines, env.startClass, env.maxDepth)
    requires Reachable(env, s)
    ensures Reachable(Boundless(env), s)
  {
    hide DepthsWalk, Levelled, Enabled, Do;
    var run :| IsRun(env, run) && run[|run| - 1] == s;
    forall i | 0 < i < |run| ensures Next(Boundless(env), run[i - 1], run[i]) {
      var t, a := StepTo(env, run, i);
      DepthsWalkAlong(env, run, i - 1);
      StepSame(env, run[i - 1], t, a);
    }
    var workers: nat :| workers >= 1 && run[0] == Init(env, workers);
    assert run[0] == Init(Boundless(env), workers);
    assert IsRun(Boundless(env), run);
  }

  lemma {:induction false} DerivedSame(env: Env, q: Query, n: nat)
    ensures DerivedQuery(Boundless(env), q, n) <==> DerivedQuery(env, q, n)
    decreases n, 0
  {
    if n > 0 {
      DerivedSame(env, q, n - 1);
      var m: nat := n - 1;
      forall c, o ensures DerivedObject(Boundless(env), c, o, m) <==> DerivedObject(env, c, o, m) {
        DerivedObjectSame(env, c, o, m);
      }
      assert forall c, o, r :: Follows(Boundless(env), c, o, r, q) <==> Follows(env, c, o, r, q);
    }
  }

  lemma {:induction false} DerivedObjectSame(env: Env, c: Class, o: Object, n: nat)
    ensures DerivedObject(Boundless(env), c, o, n) <==> DerivedObject(env, c, o, n)
    decreases n, 1
  {
    forall q ensures DerivedQuery(Boundless(env), q, n) <==> DerivedQuery(env, q, n) { DerivedSame(env, q, n); }
  }

  /** What is derivable is so in as many applications as some walk to its class has lines. */
  lemma {:induction false} DerivedAlongWalk(env: Env, q: Query, n: nat) returns (m: nat)
    requires ValidEnv(env) && DerivedQuery(env, q, n)
    ensures DerivedQuery(env, q, m) && ExactHops(env.lines, env.startClass, q.cls, m)
    decreases n
  {
    if n == 0 {
      m := 0;
    } else if DerivedQuery(env, q, n - 1) {
      m := DerivedAlongWalk(env, q, n - 1);
    } else {
      var c, o, r :| DerivedObject(env, c, o, n - 1) && Follows(env, c, o, r, q);
      if c == env.startClass && o in env.startObjects {
        m := 0;
      } else {
        var p :| DerivedQuery(env, p, n - 1) && p.cls == c && o in env.get(p);
        m := DerivedAlongWalk(env, p, n - 1);
      }
      assert DerivedObject(env, c, o, m) && ExactHops(env.lines, env.startClass, c, m);
      assert LineKey(c, r, q.cls).goal == q.cls;
      m := m + 1;
    }
  }

  lemma DerivedWithin(env: Env, q: Query)
    requires ValidEnv(env) && env.maxDepth >= 0 && Levelled(env.lines, env.startClass, env.maxDepth)
    ensures Derivable(Boundless(env), q) <==> DerivedQuery(env, q, env.maxDepth)
  {
    if n: nat :| DerivedQuery(Boundless(env), q, n) {
      DerivedSame(env, q, n);
      var m := DerivedAlongWalk(env, q, n);
      WalksStop(env.lines, env.startClass, env.maxDepth, q.cls, m);
      DerivedMonotone(env, q, m, env.maxDepth);
    }
    if DerivedQuery(env, q, env.maxDepth) { DerivedSame(env, q, env.maxDepth); }
  }

  lemma DerivedObjectWithin(env: Env, c: Class, o: Object)
    requires ValidEnv(env) && env.maxDepth >= 0 && Levelled(env.lines, env.startClass, env.maxDepth)
    ensures DerivableObject(Boundless(env), c, o) <==> DerivedObject(env, c, o, env.maxDepth)
  {
    if n: nat :| DerivedObject(Boundless(env), c, o, n) {
      if !(c == env.startClass && o in env.startObjects) {
        var q :| DerivedQuery(Boundless(env), q, n) && q.cls == c && o in env.get(q);
        DerivedWithin(env, q);
      }
    }
    if DerivedObject(env, c, o, env.maxDepth) { DerivedObjectSame(env, c, o, env.maxDepth); }
  }

  // ---- the neighbourhood search ----------------------------------------------------------------------------

  /** The queries admitted are those that all the rules derive within the depth, and the objects
      collected are, up to IDs, those that all the rules derive within the depth. */
  ghost predicate HoldsNear(env: Env, depth: nat, s: State) {
    HoldsKeysNear(env, depth, s.sh.nodes) && forall q :: q in s.sh.seen <==> DerivedQuery(env, q, depth)
  }

  /** Every neighbourhood search that ends without being cancelled holds that. */
  ghost predicate PoolIsExact(env: Env, depth: nat) {
    forall s :: Reachable(Scoped(env, depth), s) && ShuttingDown(s) && !s.sh.cancelled ==> HoldsNear(env, depth, s)
  }

  /** Any number of workers, under any interleaving, find exactly what is derivable within the depth, if
      no line in scope starts where a walk of `depth` lines in scope ends. */
  lemma LevelledIsExact(env: Env, depth: nat)
    requires ValidEnv(env) && RespectsIds(env) && env.limit <= 0
    requires Levelled(NeighborScope(env.lines, env.startClass, depth), env.startClass, depth)
    ensures PoolIsExact(env, depth)
  {
    hide Reachable, ShuttingDown, Levelled, HasKey;
    var scoped := Scoped(env, depth);
    forall s | Reachable(scoped, s) && ShuttingDown(s) && !s.sh.cancelled ensures HoldsNear(env, depth, s) {
      var free := Boundless(scoped);
      RunsSame(scoped, s);
      ScopedRespectsIds(env, depth);
      BoundlessRespectsIds(scoped);
      ComputesLeastFixpoint(free, s);
      forall q ensures q in s.sh.seen <==> DerivedQuery(env, q, depth) {
        DerivedWithin(scoped, q);
        ScopeLosesNoQuery(env, depth, q, depth);
      }
      forall c, key
        ensures (c in s.sh.nodes && HasKey(env, c, s.sh.nodes[c].result, key)) <==> NearKey(env, depth, c, key)
      {
        KeysSame(env, depth, c, key);
        if c in s.sh.nodes { HasKeySame(env, free, c, s.sh.nodes[c].result, key); }
      }
    }
  }

  lemma BoundlessRespectsIds(env: Env)
    requires RespectsIds(env)
    ensures RespectsIds(Boundless(env))
  {
    var free := Boundless(env);
    forall c, o1, o2, r, q | KeyOf(free, c, o1) == KeyOf(free, c, o2) && Follows(free, c, o1, r, q)
      ensures Follows(free, c, o2, r, q)
    {
      assert KeyOf(env, c, o1) == KeyOf(env, c, o2) && Follows(env, c, o1, r, q);
      assert Follows(env, c, o2, r, q);
    }
  }

  lemma HasKeySame(env: Env, other: Env, c: Class, list: seq<Object>, key: Key)
    requires other.iders == env.iders && other.id == env.id
    ensures HasKey(other, c, list, key) <==> HasKey(env, c, list, key)
  {
    assert forall o :: KeyOf(other, c, o) == KeyOf(env, c, o);
  }

  lemma KeysSame(env: Env, depth: nat, c: Class, key: Key)
    requires ValidEnv(env) && Levelled(NeighborScope(env.lines, env.startClass, depth), env.startClass, depth)
    ensures DerivableKey(Boundless(Scoped(env, depth)), c, key) <==> NearKey(env, depth, c, key)
  {
    var scoped := Scoped(env, depth);
    forall o
      ensures KeyOf(Boundless(scoped), c, o) == KeyOf(env, c, o)
      ensures DerivableObject(Boundless(scoped), c, o) <==> DerivedObject(env, c, o, depth)
    {
      DerivedObjectWithin(scoped, c, o);
      ScopeLosesNoObject(env, depth, c, o, depth);
    }
  }
}

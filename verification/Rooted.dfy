/** The result graph grows out of the start class. */
module Rooted {
  import opened Correlation
  import opened Queries
  import opened Protocol
  import opened Accounting
  import opened Recording
  import opened Walks

  predicate NonEmpty(sh: Shared, c: Class) { c in sh.nodes && sh.nodes[c].result != [] }

  /** Results reached class `c` through query `q`, from a class that had results before. */
  predicate CameFrom(sh: Shared, c: Class, q: Query, earlier: seq<Class>) {
    && q.cls == c && IsRecorded(sh, q) && sh.nodes[c].queries[q] > 0
    && q in sh.seen && sh.seen[q].line.Some? && sh.seen[q].line.value.start in earlier
  }

  /** Every class with results is the start class or got its first results along a line from a class
      that had results before it. */
  ghost predicate Descends(env: Env, sh: Shared, i: nat)
    requires i < |sh.born|
  {
    sh.born[i] == env.startClass || exists q :: CameFrom(sh, sh.born[i], q, sh.born[..i])
  }

  /** An item that came along a line came from a class with results. */
  predicate Grounded(sh: Shared, it: Item) { it.line.Some? ==> NonEmpty(sh, it.line.value.start) }

  ghost predicate RootedOk(env: Env, s: State) {
    && (forall c :: NonEmpty(s.sh, c) <==> c in s.sh.born)
    && (forall i :: 0 <= i < |s.sh.born| ==> Descends(env, s.sh, i))
    && (forall q :: q in s.sh.seen ==> Grounded(s.sh, s.sh.seen[q]))
    && (forall i, j :: 0 <= i < |s.threads| && 0 <= j < |s.threads[i].pending| ==>
          Grounded(s.sh, s.threads[i].pending[j]))
  }

  lemma NonEmptyStays(env: Env, sh: Shared, th: Thread, a: Action)
    requires SharedOk(env, sh) && Guard(env, sh, th, a)
    ensures forall c :: NonEmpty(sh, c) ==> NonEmpty(Effect(env, sh, th, a), c)
    ensures forall it :: Grounded(sh, it) ==> Grounded(Effect(env, sh, th, a), it)
  {
    StepGrows(env, sh, th, a);
  }

  /** Only adding objects extends the birth order, and then by one class that had no results. */
  lemma BornMove(env: Env, sh: Shared, th: Thread, a: Action)
    requires SharedOk(env, sh) && Guard(env, sh, th, a)
    requires forall c :: NonEmpty(sh, c) <==> c in sh.born
    ensures var sh' := Effect(env, sh, th, a);
            && (forall c :: NonEmpty(sh', c) <==> c in sh'.born)
            && sh.born <= sh'.born && |sh'.born| <= |sh.born| + 1
            && (!a.AppendStart? && !a.Record? ==> sh'.born == sh.born)
            && (sh'.born != sh.born && a.AppendStart? ==> sh'.born[|sh.born|] == env.startClass)
            && (sh'.born != sh.born && a.Record? ==>
                  sh'.born[|sh.born|] == th.job.value.query.cls && NewResults(env, sh, th.job.value) > 0)
  {
    hide Moved;
    if a.Record? {
      RecordBorn(env, sh, th);
    } else if a.AppendStart? {
      AddAllAppends(env, env.startClass, sh.nodes[env.startClass].result, env.startObjects);
    } else {
      BornFrame(env, sh, th, a);
      QueriesFrame(env, sh, th, a);
    }
  }

  lemma BornFrame(env: Env, sh: Shared, th: Thread, a: Action)
    requires Guard(env, sh, th, a) && !a.AppendStart? && !a.Record?
    ensures Effect(env, sh, th, a).born == sh.born
  {
    hide Moved, Guard;
  }

  lemma RecordBorn(env: Env, sh: Shared, th: Thread)
    requires SharedOk(env, sh) && Guard(env, sh, th, Record)
    requires forall c :: NonEmpty(sh, c) <==> c in sh.born
    ensures var sh' := Effect(env, sh, th, Record);
            && (forall c :: NonEmpty(sh', c) <==> c in sh'.born)
            && (sh'.born == sh.born
                || (sh'.born == sh.born + [th.job.value.query.cls] && NewResults(env, sh, th.job.value) > 0))
  {
    var c := th.job.value.query.cls;
    AddAllAppends(env, c, sh.nodes[c].result, env.get(th.job.value.query));
  }

  lemma DescentStays(env: Env, s: State, t: nat, a: Action, i: nat)
    requires ValidEnv(env) && Shape(env, s) && RecordingOk(env, s) && RootedOk(env, s) && Enabled(env, s, t, a)
    requires i < |s.sh.born| && s.sh.born <= Do(env, s, t, a).sh.born
    ensures Descends(env, Do(env, s, t, a).sh, i)
  {
    hide Moved, Effect, Guard;
    var sh' := Do(env, s, t, a).sh;
    assert Descends(env, s.sh, i);
    assert sh'.born[i] == s.sh.born[i] && sh'.born[..i] == s.sh.born[..i];
    if s.sh.born[i] != env.startClass {
      var q :| CameFrom(s.sh, s.sh.born[i], q, s.sh.born[..i]);
      RecordedStays(env, s, t, a, q);
      RecordFrame(env, s.sh, s.threads[t], a);
      KnownMove(env, s.sh, s.threads[t], a);
      assert Known(s.sh, s.sh.seen[q]);
      assert CameFrom(sh', sh'.born[i], q, sh'.born[..i]);
    }
  }

  lemma BirthDescends(env: Env, s: State, t: nat)
    requires ValidEnv(env) && Shape(env, s) && RecordingOk(env, s) && RootedOk(env, s) && Enabled(env, s, t, Record)
    requires Do(env, s, t, Record).sh.born == s.sh.born + [s.threads[t].job.value.query.cls]
    requires NewResults(env, s.sh, s.threads[t].job.value) > 0
    ensures Descends(env, Do(env, s, t, Record).sh, |s.sh.born|)
  {
    var sh' := Do(env, s, t, Record).sh;
    var it := s.threads[t].job.value;
    assert ThreadKnown(s.sh, s.threads[t]) && Grounded(s.sh, s.sh.seen[it.query]);
    assert sh'.born[..|s.sh.born|] == s.sh.born;
    if it.line.Some? {
      assert CameFrom(sh', it.query.cls, it.query, s.sh.born);
    }
  }

  lemma PendingMove(env: Env, sh: Shared, th: Thread, a: Action)
    requires ValidEnv(env) && SharedOk(env, sh) && ThreadOk(env, sh.nodes, th) && Guard(env, sh, th, a)
    requires forall j :: 0 <= j < |th.pending| ==> Grounded(sh, th.pending[j])
    ensures forall j :: 0 <= j < |Moved(env, sh, th, a).pending| ==> Grounded(sh, Moved(env, sh, th, a).pending[j])
  {
    if a.ApplyRule? {
      SendsOk(env, th.cls, a.rule, th.depth, env.apply(a.rule, th.objects[th.at]));
      forall j | 0 <= j < |Moved(env, sh, th, a).pending| ensures Grounded(sh, Moved(env, sh, th, a).pending[j]) {
        assert Moved(env, sh, th, a).pending[j] in Moved(env, sh, th, a).pending;
      }
    }
  }

  lemma GroundedStep(env: Env, s: State, t: nat, a: Action)
    requires ValidEnv(env) && Shape(env, s) && RootedOk(env, s) && Enabled(env, s, t, a)
    ensures var s' := Do(env, s, t, a);
            && (forall q :: q in s'.sh.seen ==> Grounded(s'.sh, s'.sh.seen[q]))
            && (forall i, j :: 0 <= i < |s'.threads| && 0 <= j < |s'.threads[i].pending| ==>
                  Grounded(s'.sh, s'.threads[i].pending[j]))
  {
    var s' := Do(env, s, t, a);
    NonEmptyStays(env, s.sh, s.threads[t], a);
    PendingMove(env, s.sh, s.threads[t], a);
    RecordFrame(env, s.sh, s.threads[t], a);
    forall q | q in s'.sh.seen ensures Grounded(s'.sh, s'.sh.seen[q]) {
      if a.Admit? && q == s.threads[t].pending[0].query {
        assert Grounded(s.sh, s.threads[t].pending[0]);
      } else {
        assert Grounded(s.sh, s.sh.seen[q]);
      }
    }
  }

  lemma DescentsStep(env: Env, s: State, t: nat, a: Action)
    requires ValidEnv(env) && Shape(env, s) && RecordingOk(env, s) && RootedOk(env, s) && Enabled(env, s, t, a)
    ensures forall i :: 0 <= i < |Do(env, s, t, a).sh.born| ==> Descends(env, Do(env, s, t, a).sh, i)
  {
    hide Moved, Effect, RecordingOk, Descends;
    var s' := Do(env, s, t, a);
    BornMove(env, s.sh, s.threads[t], a);
    assert s'.sh.born[..|s.sh.born|] == s.sh.born;
    forall i | 0 <= i < |s'.sh.born| ensures Descends(env, s'.sh, i) {
      if i < |s.sh.born| {
        DescentStays(env, s, t, a, i);
      } else if a.Record? {
        assert s'.sh.born == s.sh.born + [s.threads[t].job.value.query.cls];
        BirthDescends(env, s, t);
      } else {
        FirstDescends(env, s, t, a);
      }
    }
  }

  lemma FirstDescends(env: Env, s: State, t: nat, a: Action)
    requires Enabled(env, s, t, a) && a.AppendStart? && Do(env, s, t, a).sh.born == s.sh.born + [env.startClass]
    ensures Descends(env, Do(env, s, t, a).sh, |s.sh.born|)
  {
  }

  lemma RootedStep(env: Env, s: State, t: nat, a: Action)
    requires ValidEnv(env) && Shape(env, s) && RecordingOk(env, s) && RootedOk(env, s) && Enabled(env, s, t, a)
    ensures RootedOk(env, Do(env, s, t, a))
  {
    hide Moved, Effect, Guard, RecordingOk, Descends, Grounded, NonEmpty;
    BornMove(env, s.sh, s.threads[t], a);
    GroundedStep(env, s, t, a);
    DescentsStep(env, s, t, a);
  }

  lemma RootedInit(env: Env, s: State)
    requires IsInit(env, s)
    ensures RootedOk(env, s)
  {
  }

  lemma {:induction false} RootedAlong(env: Env, run: seq<State>, i: nat)
    requires ValidEnv(env) && IsRun(env, run) && i < |run|
    ensures RootedOk(env, run[i])
    decreases i
  {
    hide RootedOk, Shape, RecordingOk, Enabled, Do;
    if i == 0 {
      RootedInit(env, run[0]);
    } else {
      var t, a := StepTo(env, run, i);
      RootedAlong(env, run, i - 1);
      ShapeAlong(env, run, i - 1);
      RecordingAlong(env, run, i - 1);
      RootedStep(env, run[i - 1], t, a);
    }
  }

  // ---- the result graph ---------------------------------------------------------------------------

  /** The nodes of `buildGraph`: the classes with results. */
  function GraphNodes(sh: Shared): set<Class> { set c | c in sh.nodes && sh.nodes[c].result != [] }

  /** The lines of `buildGraph`: those with a positive total, both of whose ends are nodes. */
  ghost function GraphLines(sh: Shared): set<LineKey> {
    set k | k in sh.lineQueries && Total(sh.lineQueries[k]) != 0
            && k.start in GraphNodes(sh) && k.goal in GraphNodes(sh)
  }

  ghost function Edges(lines: set<LineKey>): iset<(Class, Class)> { iset k | k in lines :: (k.start, k.goal) }

  /** The guard on missing ends never drops a line that had results, in any reachable state. */
  lemma GuardDropsNothing(env: Env, s: State, k: LineKey)
    requires ValidEnv(env) && Reachable(env, s) && k in s.sh.lineQueries
    ensures k in GraphLines(s.sh) <==> Total(s.sh.lineQueries[k]) > 0
  {
    var run :| IsRun(env, run) && run[|run| - 1] == s;
    RootedAlong(env, run, |run| - 1);
    RecordingAlong(env, run, |run| - 1);
    PositiveTotal(s.sh.lineQueries[k]);
    if q :| q in s.sh.lineQueries[k] && s.sh.lineQueries[k][q] > 0 {
      assert LineAgrees(s, k, q) && Grounded(s.sh, s.sh.seen[q]);
      PositiveTotal(s.sh.nodes[q.cls].queries);
      assert NodeCounts(env, s, q.cls);
    }
  }

  /** A class's first results came along a line of the graph. */
  lemma BirthEdge(env: Env, s: State, i: nat)
    requires ValidEnv(env) && Reachable(env, s) && ShuttingDown(s) && i < |s.sh.born| && s.sh.born[i] != env.startClass
    requires RootedOk(env, s) && RecordingOk(env, s) && LinesExact(s.sh) && Shape(env, s)
    ensures exists k :: k in GraphLines(s.sh) && k.goal == s.sh.born[i] && k.start in s.sh.born[..i]
  {
    assert Descends(env, s.sh, i);
    var q :| CameFrom(s.sh, s.sh.born[i], q, s.sh.born[..i]);
    var k := s.sh.seen[q].line.value;
    assert ItemOk(env, s.sh.seen[q]);
    assert q in s.sh.lineQueries[k];
    PositiveTotal(s.sh.lineQueries[k]);
    GuardDropsNothing(env, s, k);
  }

  lemma {:induction false} BornReached(env: Env, s: State, i: nat)
    requires ValidEnv(env) && Reachable(env, s) && ShuttingDown(s) && i < |s.sh.born|
    requires RootedOk(env, s) && RecordingOk(env, s) && LinesExact(s.sh) && Shape(env, s)
    ensures Reaches(Edges(GraphLines(s.sh)), env.startClass, s.sh.born[i])
    decreases i
  {
    if s.sh.born[i] == env.startClass {
      ReachesSelf(Edges(GraphLines(s.sh)), env.startClass);
    } else {
      BirthEdge(env, s, i);
      var k :| k in GraphLines(s.sh) && k.goal == s.sh.born[i] && k.start in s.sh.born[..i];
      var j :| 0 <= j < i && s.sh.born[j] == k.start;
      BornReached(env, s, j);
      ReachesStep(Edges(GraphLines(s.sh)), env.startClass, k.start, k.goal);
    }
  }

  /** In every run, cancelled or not, each class of the result graph is reached from the start class
      by a walk along lines of the graph, and every line joins two of its nodes. */
  lemma ResultGraphRooted(env: Env, s: State, c: Class)
    requires ValidEnv(env) && Reachable(env, s) && ShuttingDown(s) && c in GraphNodes(s.sh)
    ensures Reaches(Edges(GraphLines(s.sh)), env.startClass, c)
    ensures env.startClass in GraphNodes(s.sh)
  {
    var run :| IsRun(env, run) && run[|run| - 1] == s;
    RootedAlong(env, run, |run| - 1);
    RecordingAlong(env, run, |run| - 1);
    AccountedAlong(env, run, |run| - 1);
    LinesExactAtShutdown(env, s);
    assert NonEmpty(s.sh, c);
    var i :| 0 <= i < |s.sh.born| && s.sh.born[i] == c;
    BornReached(env, s, i);
    assert Descends(env, s.sh, 0);
    assert NonEmpty(s.sh, s.sh.born[0]);
  }
}

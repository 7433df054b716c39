/** Every run stays inside the least fixpoint, and every unhindered run computes all of it. */
module Fixpoint {
  import opened Correlation
  import opened Protocol
  import opened Accounting
  import opened RuleApplication
  import opened Recording

  // ---- soundness: nothing underivable is ever found ---------------------------------------------------

  ghost predicate PendingSound(env: Env, th: Thread) {
    forall i :: 0 <= i < |th.pending| ==> Derivable(env, th.pending[i].query)
  }

  ghost predicate NodesSound(env: Env, sh: Shared) {
    forall c, o :: c in sh.nodes && o in sh.nodes[c].result ==> DerivableObject(env, c, o)
  }

  ghost predicate Sound(env: Env, s: State) {
    && (forall q :: q in s.sh.seen ==> Derivable(env, q))
    && NodesSound(env, s.sh)
    && (forall i :: 0 <= i < |s.threads| ==> PendingSound(env, s.threads[i]))
  }

  lemma StartSound(env: Env)
    ensures forall q :: q in env.startQueries ==> Derivable(env, q)
    ensures forall o :: o in env.startObjects ==> DerivableObject(env, env.startClass, o)
  {
    forall q | q in env.startQueries ensures Derivable(env, q) { assert DerivedQuery(env, q, 0); }
    forall o | o in env.startObjects ensures DerivableObject(env, env.startClass, o) {
      assert DerivedObject(env, env.startClass, o, 0);
    }
  }

  lemma GetSound(env: Env, q: Query)
    requires Derivable(env, q)
    ensures forall o :: o in env.get(q) ==> DerivableObject(env, q.cls, o)
  {
    var n: nat :| DerivedQuery(env, q, n);
    forall o | o in env.get(q) ensures DerivableObject(env, q.cls, o) { assert DerivedObject(env, q.cls, o, n); }
  }

  lemma PendingSoundMove(env: Env, sh: Shared, th: Thread, a: Action)
    requires SharedOk(env, sh) && ThreadOk(env, sh.nodes, th) && Guard(env, sh, th, a)
    requires NodesSound(env, sh) && PendingSound(env, th)
    ensures PendingSound(env, Moved(env, sh, th, a))
  {
    hide Moved, Effect;
    HandsFrame(env, sh, th, a);
    StartSound(env);
    if a.ApplyRule? {
      var o := th.objects[th.at];
      var items := Sends(env, th.cls, a.rule, th.depth, env.apply(a.rule, o));
      SendsOk(env, th.cls, a.rule, th.depth, env.apply(a.rule, o));
      assert o == sh.nodes[th.cls].result[th.at];
      forall i | 0 <= i < |items| ensures Derivable(env, items[i].query) {
        assert items[i] in items;
        FollowsDerivable(env, th.cls, o, a.rule, items[i].query);
      }
    }
  }

  lemma NodesSoundMove(env: Env, sh: Shared, th: Thread, a: Action)
    requires SharedOk(env, sh) && Guard(env, sh, th, a) && NodesSound(env, sh)
    requires th.job.Some? ==> Derivable(env, th.job.value.query)
    ensures NodesSound(env, Effect(env, sh, th, a))
  {
    var sh' := Effect(env, sh, th, a);
    QueriesFrame(env, sh, th, a);
    if a.AppendStart? {
      StartSound(env);
      AddAllAppends(env, env.startClass, sh.nodes[env.startClass].result, env.startObjects);
    } else if a.Record? {
      var q := th.job.value.query;
      GetSound(env, q);
      AddAllAppends(env, q.cls, sh.nodes[q.cls].result, env.get(q));
    }
  }

  lemma SoundStep(env: Env, s: State, t: nat, a: Action)
    requires ValidEnv(env) && Shape(env, s) && ItemsKnown(s) && Sound(env, s) && Enabled(env, s, t, a)
    ensures Sound(env, Do(env, s, t, a))
  {
    var th := s.threads[t];
    var s' := Do(env, s, t, a);
    RecordFrame(env, s.sh, th, a);
    assert ThreadKnown(s.sh, th);
    NodesSoundMove(env, s.sh, th, a);
    PendingSoundMove(env, s.sh, th, a);
    forall i | 0 <= i < |s'.threads| ensures PendingSound(env, s'.threads[i]) {
      if i != t { assert s'.threads[i] == s.threads[i]; }
    }
  }

  lemma SoundInit(env: Env, s: State)
    requires IsInit(env, s)
    ensures Sound(env, s)
  {
  }

  lemma {:induction false} SoundAlong(env: Env, run: seq<State>, i: nat)
    requires ValidEnv(env) && IsRun(env, run) && i < |run|
    ensures Sound(env, run[i])
    decreases i
  {
    hide Sound, Shape, Enabled, Do;
    if i == 0 {
      SoundInit(env, run[0]);
    } else {
      var t, a := StepTo(env, run, i);
      SoundAlong(env, run, i - 1);
      ShapeAlong(env, run, i - 1);
      RecordingAlong(env, run, i - 1);
      SoundStep(env, run[i - 1], t, a);
    }
  }

  // ---- completeness ------------------------------------------------------------------------------------

  /** No depth limit, no query limit, and not cancelled so far. */
  predicate Unlimited(env: Env, sh: Shared) { Unhindered(env, sh) && env.maxDepth < 0 }

  /** Some goroutine is about to send the query, or it was admitted. */
  ghost predicate Sent(s: State, q: Query) {
    q in s.sh.seen
    || exists i, j :: 0 <= i < |s.threads| && 0 <= j < |s.threads[i].pending| && s.threads[i].pending[j].query == q
  }

  predicate PendingHas(th: Thread, q: Query) { exists j :: 0 <= j < |th.pending| && th.pending[j].query == q }

  lemma PendingKept(env: Env, sh: Shared, th: Thread, a: Action, q: Query)
    requires RoleOk(th) && Guard(env, sh, th, a) && PendingHas(th, q)
    requires !Effect(env, sh, th, a).cancelled && env.maxDepth < 0
    ensures q in Effect(env, sh, th, a).seen || PendingHas(Moved(env, sh, th, a), q)
  {
    var j :| 0 <= j < |th.pending| && th.pending[j].query == q;
    if (a.Drop? || a.Admit?) && j > 0 {
      assert Moved(env, sh, th, a).pending[j - 1].query == q;
    } else if !a.Drop? && !a.Admit? {
      assert Moved(env, sh, th, a).pending == th.pending;
    }
  }

  lemma SentStays(env: Env, s: State, t: nat, a: Action, q: Query)
    requires Shape(env, s) && Enabled(env, s, t, a) && Sent(s, q)
    requires Unlimited(env, Do(env, s, t, a).sh)
    ensures Sent(Do(env, s, t, a), q)
  {
    var s' := Do(env, s, t, a);
    RecordFrame(env, s.sh, s.threads[t], a);
    if q !in s.sh.seen {
      var i, j :| 0 <= i < |s.threads| && 0 <= j < |s.threads[i].pending| && s.threads[i].pending[j].query == q;
      if i == t {
        PendingKept(env, s.sh, s.threads[t], a, q);
        if q !in s'.sh.seen {
          var j' :| 0 <= j' < |s'.threads[t].pending| && s'.threads[t].pending[j'].query == q;
        }
      } else {
        assert s'.threads[i].pending[j].query == q;
      }
    }
  }

  lemma {:induction false} SendsAll(env: Env, c: Class, r: Rule, depth: nat, queries: seq<Query>, q: Query)
    requires q in queries && LineKey(c, r, q.cls) in env.lines
    ensures exists j :: 0 <= j < |Sends(env, c, r, depth, queries)| && Sends(env, c, r, depth, queries)[j].query == q
  {
    var items := Sends(env, c, r, depth, queries);
    if queries[0] == q {
      assert items[0].query == q;
    } else {
      SendsAll(env, c, r, depth, queries[1..], q);
      var rest := Sends(env, c, r, depth, queries[1..]);
      var j :| 0 <= j < |rest| && rest[j].query == q;
      assert items[|items| - |rest| + j].query == q;
    }
  }

  /** Whatever has been set in motion has been sent: the start queries, once the start objects are in,
      and every query of a rule application that was made. */
  ghost predicate AppliedSent(env: Env, s: State, app: Application) {
    s.sh.applied[app] > 0 ==>
      && app.cls in s.sh.nodes && app.index < |s.sh.nodes[app.cls].result|
      && forall q :: Follows(env, app.cls, s.sh.nodes[app.cls].result[app.index], app.rule, q) ==> Sent(s, q)
  }

  /** The results of a recorded query are all there, up to objects with the same key. */
  ghost predicate ResultsIn(env: Env, sh: Shared, q: Query) {
    IsRecorded(sh, q) ==>
      forall o :: o in env.get(q) ==> HasKey(env, q.cls, sh.nodes[q.cls].result, KeyOf(env, q.cls, o))
  }

  ghost predicate StartIn(env: Env, s: State) {
    StartAppended(s) ==>
      && env.startClass in s.sh.nodes
      && (forall o :: o in env.startObjects ==>
            HasKey(env, env.startClass, s.sh.nodes[env.startClass].result, KeyOf(env, env.startClass, o)))
      && (Unlimited(env, s.sh) ==> forall q :: q in env.startQueries ==> Sent(s, q))
  }

  ghost predicate Complete(env: Env, s: State) {
    && (Unlimited(env, s.sh) ==> forall app :: AppliedSent(env, s, app))
    && (forall q :: ResultsIn(env, s.sh, q))
    && StartIn(env, s)
  }

  lemma HasKeyGrows(env: Env, c: Class, list: seq<Object>, more: seq<Object>, key: Key)
    requires list <= more && HasKey(env, c, list, key)
    ensures HasKey(env, c, more, key)
  {
    var i :| 0 <= i < |list| && KeyOf(env, c, list[i]) == key;
    assert KeyOf(env, c, more[i]) == key;
  }

  lemma ResultsInStep(env: Env, sh: Shared, th: Thread, a: Action, q: Query)
    requires SharedOk(env, sh) && Guard(env, sh, th, a) && ResultsIn(env, sh, q)
    ensures ResultsIn(env, Effect(env, sh, th, a), q)
  {
    var sh' := Effect(env, sh, th, a);
    StepGrows(env, sh, th, a);
    QueriesFrame(env, sh, th, a);
    if IsRecorded(sh', q) {
      forall o | o in env.get(q) ensures HasKey(env, q.cls, sh'.nodes[q.cls].result, KeyOf(env, q.cls, o)) {
        if a.Record? && th.job.value.query == q {
          AddAllAppends(env, q.cls, sh.nodes[q.cls].result, env.get(q));
        } else {
          HasKeyGrows(env, q.cls, sh.nodes[q.cls].result, sh'.nodes[q.cls].result, KeyOf(env, q.cls, o));
        }
      }
    }
  }

  lemma NewlyApplied(env: Env, s: State, t: nat, r: Rule)
    requires Shape(env, s) && Enabled(env, s, t, ApplyRule(r))
    requires Unlimited(env, s.sh)
    ensures AppliedSent(env, Do(env, s, t, ApplyRule(r)), Application(s.threads[t].cls, s.threads[t].at, r))
  {
    var th := s.threads[t];
    var s' := Do(env, s, t, ApplyRule(r));
    var o := th.objects[th.at];
    assert s'.sh.nodes == s.sh.nodes && o == s.sh.nodes[th.cls].result[th.at];
    forall q | Follows(env, th.cls, o, r, q) ensures Sent(s', q) {
      SendsAll(env, th.cls, r, th.depth, env.apply(r, o), q);
      var j :| 0 <= j < |s'.threads[t].pending| && s'.threads[t].pending[j].query == q;
    }
  }

  lemma AppliedFrame(env: Env, sh: Shared, th: Thread, a: Action, app: Application)
    requires Guard(env, sh, th, a)
    ensures Effect(env, sh, th, a).applied[app] > 0 ==>
              sh.applied[app] > 0 || (a.ApplyRule? && app == Application(th.cls, th.at, a.rule))
  {
  }

  lemma AppliedSentStep(env: Env, s: State, t: nat, a: Action, app: Application)
    requires Shape(env, s) && Enabled(env, s, t, a) && Unlimited(env, Do(env, s, t, a).sh)
    requires AppliedSent(env, s, app)
    ensures AppliedSent(env, Do(env, s, t, a), app)
  {
    var s' := Do(env, s, t, a);
    RecordFrame(env, s.sh, s.threads[t], a);
    StepGrows(env, s.sh, s.threads[t], a);
    AppliedFrame(env, s.sh, s.threads[t], a, app);
    if s'.sh.applied[app] > 0 {
      if s.sh.applied[app] > 0 {
        forall q | Follows(env, app.cls, s'.sh.nodes[app.cls].result[app.index], app.rule, q) ensures Sent(s', q) {
          SentStays(env, s, t, a, q);
        }
      } else {
        NewlyApplied(env, s, t, a.rule);
      }
    }
  }

  lemma StartInStep(env: Env, s: State, t: nat, a: Action)
    requires Shape(env, s) && Enabled(env, s, t, a) && StartIn(env, s)
    ensures StartIn(env, Do(env, s, t, a))
  {
    var s' := Do(env, s, t, a);
    var c := env.startClass;
    RecordFrame(env, s.sh, s.threads[t], a);
    StepGrows(env, s.sh, s.threads[t], a);
    StartAppendedStep(env, s, t, a);
    if a.AppendStart? {
      AddAllAppends(env, c, s.sh.nodes[c].result, env.startObjects);
      forall q | q in env.startQueries ensures Sent(s', q) {
        var j :| 0 <= j < |env.startQueries| && env.startQueries[j] == q;
        assert s'.threads[0].pending[j].query == q;
      }
    } else if StartAppended(s) {
      forall o | o in env.startObjects ensures HasKey(env, c, s'.sh.nodes[c].result, KeyOf(env, c, o)) {
        HasKeyGrows(env, c, s.sh.nodes[c].result, s'.sh.nodes[c].result, KeyOf(env, c, o));
      }
      if Unlimited(env, s'.sh) {
        forall q | q in env.startQueries ensures Sent(s', q) { SentStays(env, s, t, a, q); }
      }
    }
  }

  lemma CompleteStep(env: Env, s: State, t: nat, a: Action)
    requires Shape(env, s) && Enabled(env, s, t, a) && Complete(env, s)
    ensures Complete(env, Do(env, s, t, a))
  {
    var s' := Do(env, s, t, a);
    RecordFrame(env, s.sh, s.threads[t], a);
    StartInStep(env, s, t, a);
    forall q ensures ResultsIn(env, s'.sh, q) { ResultsInStep(env, s.sh, s.threads[t], a, q); }
    if Unlimited(env, s'.sh) {
      forall app ensures AppliedSent(env, s', app) { AppliedSentStep(env, s, t, a, app); }
    }
  }

  lemma CompleteInit(env: Env, s: State)
    requires IsInit(env, s)
    ensures Complete(env, s)
  {
  }

  lemma {:induction false} CompleteAlong(env: Env, run: seq<State>, i: nat)
    requires ValidEnv(env) && IsRun(env, run) && i < |run|
    ensures Complete(env, run[i])
    decreases i
  {
    hide Complete, Shape, Enabled, Do;
    if i == 0 {
      CompleteInit(env, run[0]);
    } else {
      var t, a := StepTo(env, run, i);
      CompleteAlong(env, run, i - 1);
      ShapeAlong(env, run, i - 1);
      CompleteStep(env, run[i - 1], t, a);
    }
  }

  // ---- the fixpoint ----------------------------------------------------------------------------------------

  /** The final state of an unlimited run is closed: start data is in, every admitted query's results
      are in, and every query that follows from an object was admitted. */
  ghost predicate Closed(env: Env, sh: Shared) {
    && env.startClass in sh.nodes
    && (forall q :: q in env.startQueries ==> q in sh.seen)
    && (forall o :: o in env.startObjects ==>
          HasKey(env, env.startClass, sh.nodes[env.startClass].result, KeyOf(env, env.startClass, o)))
    && (forall q, o :: q in sh.seen && o in env.get(q) ==>
          q.cls in sh.nodes && HasKey(env, q.cls, sh.nodes[q.cls].result, KeyOf(env, q.cls, o)))
    && (forall c, i, r, q ::
          c in sh.nodes && 0 <= i < |sh.nodes[c].result| && Follows(env, c, sh.nodes[c].result[i], r, q) ==>
          q in sh.seen)
  }

  lemma SentIsSeen(env: Env, s: State, q: Query)
    requires Shape(env, s) && ShutdownOk(s) && ShuttingDown(s) && Sent(s, q)
    ensures q in s.sh.seen
  {
    forall i | 0 <= i < |s.threads| ensures s.threads[i].pending == [] { assert RoleOk(s.threads[i]); }
  }

  lemma FinalFetched(env: Env, s: State, q: Query)
    requires Shape(env, s) && RecordedOnce(env, s, q) && ResultsIn(env, s.sh, q)
    requires ShutdownOk(s) && ShuttingDown(s) && Unlimited(env, s.sh) && q in s.sh.seen
    ensures IsRecorded(s.sh, q)
    ensures forall o :: o in env.get(q) ==> HasKey(env, q.cls, s.sh.nodes[q.cls].result, KeyOf(env, q.cls, o))
  {
    hide HasKey, Shape;
    QuietSum(env, s, PreRecord(q));
  }

  lemma FinalExpanded(env: Env, s: State, c: Class, i: nat, r: Rule, q: Query)
    requires Shape(env, s) && ShutdownOk(s) && ShuttingDown(s) && c in s.sh.nodes && i < |s.sh.nodes[c].result|
    requires Follows(env, c, s.sh.nodes[c].result[i], r, q) && AppliedSent(env, s, Application(c, i, r))
    requires r in RulesFor(env, c) ==> s.sh.applied[Application(c, i, r)] == 1
    ensures q in s.sh.seen
  {
    assert LineKey(c, r, q.cls) in env.lines && r in RulesFor(env, c);
    SentIsSeen(env, s, q);
  }

  lemma FinalFacts(env: Env, s: State)
    requires ValidEnv(env) && Reachable(env, s) && Unlimited(env, s.sh)
    ensures Shape(env, s) && ShutdownOk(s) && StartIn(env, s) && env.startClass in s.sh.nodes
    ensures forall q :: RecordedOnce(env, s, q) && ResultsIn(env, s.sh, q)
    ensures forall app :: AppliedSent(env, s, app)
  {
    hide RecordedOnce, ResultsIn, AppliedSent, StartIn, ShutdownOk;
    var run :| IsRun(env, run) && run[|run| - 1] == s;
    AccountedAlong(env, run, |run| - 1);
    RecordingAlong(env, run, |run| - 1);
    CompleteAlong(env, run, |run| - 1);
  }

  lemma FinalIsClosed(env: Env, s: State)
    requires ValidEnv(env) && Reachable(env, s) && ShuttingDown(s) && Unlimited(env, s.sh)
    ensures Closed(env, s.sh)
  {
    hide Reachable, Shape, ShutdownOk, RecordedOnce, ResultsIn, AppliedSent, HasKey, Follows;
    FinalFacts(env, s);
    ExactlyOnce(env, s);
    forall q | q in env.startQueries ensures q in s.sh.seen { SentIsSeen(env, s, q); }
    forall q | q in s.sh.seen
      ensures q.cls in s.sh.nodes
      ensures forall o :: o in env.get(q) ==> HasKey(env, q.cls, s.sh.nodes[q.cls].result, KeyOf(env, q.cls, o))
    {
      assert RecordedOnce(env, s, q) && ResultsIn(env, s.sh, q);
      FinalFetched(env, s, q);
    }
    forall c, i, r, q |
      c in s.sh.nodes && 0 <= i < |s.sh.nodes[c].result| && Follows(env, c, s.sh.nodes[c].result[i], r, q)
      ensures q in s.sh.seen
    {
      assert AppliedSent(env, s, Application(c, i, r));
      FinalExpanded(env, s, c, i, r, q);
    }
  }

  lemma {:induction false} ClosedHoldsQueries(env: Env, sh: Shared, q: Query, n: nat)
    requires Closed(env, sh) && RespectsIds(env) && sh.nodes.Keys == NodeClasses(env) && DerivedQuery(env, q, n)
    ensures q in sh.seen
    decreases n, 0
  {
    if n > 0 {
      if DerivedQuery(env, q, n - 1) {
        ClosedHoldsQueries(env, sh, q, n - 1);
      } else {
        var c, o, r :| DerivedObject(env, c, o, n - 1) && Follows(env, c, o, r, q);
        assert LineKey(c, r, q.cls) in env.lines;
        ClosedHoldsObjects(env, sh, c, o, n - 1);
        var i :| 0 <= i < |sh.nodes[c].result| && KeyOf(env, c, sh.nodes[c].result[i]) == KeyOf(env, c, o);
        assert Follows(env, c, sh.nodes[c].result[i], r, q);
      }
    }
  }

  lemma {:induction false} ClosedHoldsObjects(env: Env, sh: Shared, c: Class, o: Object, n: nat)
    requires Closed(env, sh) && RespectsIds(env) && sh.nodes.Keys == NodeClasses(env) && DerivedObject(env, c, o, n)
    ensures c in sh.nodes && HasKey(env, c, sh.nodes[c].result, KeyOf(env, c, o))
    decreases n, 1
  {
    if !(c == env.startClass && o in env.startObjects) {
      var q :| DerivedQuery(env, q, n) && q.cls == c && o in env.get(q);
      ClosedHoldsQueries(env, sh, q, n);
    }
  }

  /** Whatever the schedule, depth limit, query limit or cancellation, a traversal admits only
      derivable queries and collects only derivable objects. */
  lemma OnlyDerivable(env: Env, s: State)
    requires ValidEnv(env) && Reachable(env, s)
    ensures forall q :: q in s.sh.seen ==> Derivable(env, q)
    ensures forall c, o :: c in s.sh.nodes && o in s.sh.nodes[c].result ==> DerivableObject(env, c, o)
  {
    var run :| IsRun(env, run) && run[|run| - 1] == s;
    SoundAlong(env, run, |run| - 1);
  }

  /** Every unlimited run, with any number of workers and any interleaving, admits exactly the derivable
      queries and collects, up to objects with one ID, exactly the derivable objects. */
  lemma ComputesLeastFixpoint(env: Env, s: State)
    requires ValidEnv(env) && RespectsIds(env) && Reachable(env, s) && ShuttingDown(s) && Unlimited(env, s.sh)
    ensures forall q :: q in s.sh.seen <==> Derivable(env, q)
    ensures forall c, key ::
              (c in s.sh.nodes && HasKey(env, c, s.sh.nodes[c].result, key)) <==> DerivableKey(env, c, key)
  {
    OnlyDerivable(env, s);
    FinalIsClosed(env, s);
    var run :| IsRun(env, run) && run[|run| - 1] == s;
    ShapeAlong(env, run, |run| - 1);
    forall q | Derivable(env, q) ensures q in s.sh.seen {
      var m: nat :| DerivedQuery(env, q, m);
      ClosedHoldsQueries(env, s.sh, q, m);
    }
    forall c, o | DerivableObject(env, c, o)
      ensures c in s.sh.nodes && HasKey(env, c, s.sh.nodes[c].result, KeyOf(env, c, o))
    {
      var m: nat :| DerivedObject(env, c, o, m);
      ClosedHoldsObjects(env, s.sh, c, o, m);
    }
    forall c, key | c in s.sh.nodes && HasKey(env, c, s.sh.nodes[c].result, key)
      ensures DerivableKey(env, c, key)
    {
      var i :| 0 <= i < |s.sh.nodes[c].result| && KeyOf(env, c, s.sh.nodes[c].result[i]) == key;
      assert s.sh.nodes[c].result[i] in s.sh.nodes[c].result;
    }
  }

  /** Confluence: if equal IDs mean equal objects, any two unlimited runs, whatever their interleavings
      and numbers of workers, end with the same admitted queries and the same objects for every class. */
  lemma Confluence(env: Env, s1: State, s2: State)
    requires ValidEnv(env) && InjectiveIds(env)
    requires Reachable(env, s1) && ShuttingDown(s1) && Unlimited(env, s1.sh)
    requires Reachable(env, s2) && ShuttingDown(s2) && Unlimited(env, s2.sh)
    ensures s1.sh.seen.Keys == s2.sh.seen.Keys
    ensures s1.sh.nodes.Keys == s2.sh.nodes.Keys
    ensures forall c, o :: c in s1.sh.nodes ==> (o in s1.sh.nodes[c].result <==> o in s2.sh.nodes[c].result)
  {
    ComputesLeastFixpoint(env, s1);
    ComputesLeastFixpoint(env, s2);
    var run1 :| IsRun(env, run1) && run1[|run1| - 1] == s1;
    ShapeAlong(env, run1, |run1| - 1);
    var run2 :| IsRun(env, run2) && run2[|run2| - 1] == s2;
    ShapeAlong(env, run2, |run2| - 1);
    forall c, o | c in s1.sh.nodes ensures o in s1.sh.nodes[c].result <==> o in s2.sh.nodes[c].result {
      MemberByKey(env, c, s1.sh.nodes[c].result, o);
      MemberByKey(env, c, s2.sh.nodes[c].result, o);
    }
  }

  lemma MemberByKey(env: Env, c: Class, list: seq<Object>, o: Object)
    requires InjectiveIds(env)
    ensures o in list <==> HasKey(env, c, list, KeyOf(env, c, o))
  {
    if o in list {
      var i :| 0 <= i < |list| && list[i] == o;
    }
    if HasKey(env, c, list, KeyOf(env, c, o)) {
      var i :| 0 <= i < |list| && KeyOf(env, c, list[i]) == KeyOf(env, c, o);
      assert list[i] == o;
    }
  }
}

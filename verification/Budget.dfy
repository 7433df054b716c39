/** The query limit bounds what any interleaving spends on a class. */
module Budget {
  import opened Correlation
  import opened Protocol
  import opened Accounting
  import opened Recording

  /** Recorded queries plus those past the check and not yet recorded. */
  ghost predicate WithinBudget(env: Env, s: State, c: Class) {
    c in s.sh.nodes && env.limit > 0 && |s.threads| > 0 ==>
      |s.sh.nodes[c].queries| + Sum(env, PassedFor(c), s.threads) <= env.limit + |s.threads| - 1
  }

  lemma {:induction false} AtMostOneEach(env: Env, c: Class, threads: seq<Thread>)
    ensures Sum(env, PassedFor(c), threads) <= |threads|
  {
    if threads != [] { AtMostOneEach(env, c, threads[1..]); }
  }

  lemma PassedAmongWorkers(env: Env, c: Class, s: State)
    requires Shape(env, s)
    ensures Sum(env, PassedFor(c), s.threads) <= |s.threads| - 1
  {
    assert IsMain(s.threads[0]);
    AtMostOneEach(env, c, s.threads[1..]);
  }

  lemma PassedMove(env: Env, sh: Shared, th: Thread, a: Action, c: Class)
    requires Guard(env, sh, th, a)
    ensures Weight(env, PassedFor(c), Moved(env, sh, th, a)) > Weight(env, PassedFor(c), th) ==>
              a.Pass? && c in sh.nodes && (env.limit > 0 ==> |sh.nodes[c].queries| <= env.limit)
    ensures a.Record? && th.job.value.query.cls == c ==>
              Weight(env, PassedFor(c), Moved(env, sh, th, a)) < Weight(env, PassedFor(c), th)
    ensures !a.Record? || th.job.value.query.cls != c ==>
              c in sh.nodes ==> Effect(env, sh, th, a).nodes[c].queries == sh.nodes[c].queries
    ensures a.Record? && c in sh.nodes ==> |Effect(env, sh, th, a).nodes[c].queries| <= |sh.nodes[c].queries| + 1
  {
    QueriesFrame(env, sh, th, a);
    if a.Record? && c in sh.nodes {
      var q := th.job.value.query;
      var m := sh.nodes[c].queries;
      var n: nat := NewResults(env, sh, th.job.value);
      if q in m { assert m[q := n].Keys == m.Keys; } else { assert m[q := n].Keys == m.Keys + {q}; }
    }
  }

  lemma BudgetStep(env: Env, s: State, t: nat, a: Action, c: Class)
    requires ValidEnv(env) && Shape(env, s) && Enabled(env, s, t, a) && WithinBudget(env, s, c)
    ensures WithinBudget(env, Do(env, s, t, a), c)
  {
    ShapeStep(env, s, t, a);
    QueriesFrame(env, s.sh, s.threads[t], a);
    if c in s.sh.nodes && env.limit > 0 {
      SumStep(env, PassedFor(c), s, t, a);
      PassedMove(env, s.sh, s.threads[t], a, c);
      PassedAmongWorkers(env, c, Do(env, s, t, a));
    }
  }

  lemma {:induction false} BudgetAlong(env: Env, run: seq<State>, c: Class, i: nat)
    requires ValidEnv(env) && IsRun(env, run) && i < |run|
    ensures WithinBudget(env, run[i], c)
    decreases i
  {
    hide Shape, Enabled, Do;
    if i == 0 {
      SumInit(env, PassedFor(c), run[0]);
    } else {
      var t, a := StepTo(env, run, i);
      BudgetAlong(env, run, c, i - 1);
      ShapeAlong(env, run, i - 1);
      BudgetStep(env, run[i - 1], t, a, c);
    }
  }

  /** With a query limit, no interleaving ever records more queries for a class than the limit plus
      the number of workers. */
  lemma QueryBudget(env: Env, s: State, c: Class)
    requires ValidEnv(env) && Reachable(env, s) && env.limit > 0 && c in s.sh.nodes
    ensures |s.sh.nodes[c].queries| <= env.limit + (|s.threads| - 1)
  {
    var run :| IsRun(env, run) && run[|run| - 1] == s;
    ShapeAlong(env, run, |run| - 1);
    BudgetAlong(env, run, c, |run| - 1);
  }

  // ---- the limit drops a query only from a class that is full --------------------------------------------------

  /** More queries were recorded for the class than the limit. */
  predicate Full(env: Env, sh: Shared, c: Class) {
    env.limit > 0 && c in sh.nodes && |sh.nodes[c].queries| > env.limit
  }

  /** The query was recorded, or there was a reason not to. */
  predicate Settled(env: Env, sh: Shared, q: Query) { sh.cancelled || IsRecorded(sh, q) || Full(env, sh, q.cls) }

  /** The goroutine is past recording its item. */
  predicate PastRecord(pc: Pc) { InRules(pc) || pc.Finishing? }

  ghost predicate SettledOnce(env: Env, s: State) {
    && (forall q :: q in s.sh.finished ==> Settled(env, s.sh, q))
    && forall i :: 0 <= i < |s.threads| && s.threads[i].job.Some? && PastRecord(s.threads[i].pc) ==>
         Settled(env, s.sh, s.threads[i].job.value.query)
  }

  lemma QueriesGrow(env: Env, sh: Shared, th: Thread, a: Action, c: Class)
    requires Guard(env, sh, th, a) && c in sh.nodes
    ensures c in Effect(env, sh, th, a).nodes
    ensures sh.nodes[c].queries.Keys <= Effect(env, sh, th, a).nodes[c].queries.Keys
    ensures |sh.nodes[c].queries| <= |Effect(env, sh, th, a).nodes[c].queries|
  {
    hide Moved;
    QueriesFrame(env, sh, th, a);
    if a.Record? && c == th.job.value.query.cls {
      var q, m := th.job.value.query, sh.nodes[c].queries;
      var n: nat := NewResults(env, sh, th.job.value);
      if q in m { assert m[q := n].Keys == m.Keys; } else { assert m[q := n].Keys == m.Keys + {q}; }
    }
  }

  lemma SettledStays(env: Env, sh: Shared, th: Thread, a: Action, q: Query)
    requires Guard(env, sh, th, a) && Settled(env, sh, q)
    ensures Settled(env, Effect(env, sh, th, a), q)
  {
    hide Guard, Moved, Effect;
    CancelledFrame(env, sh, th, a);
    if q.cls in sh.nodes { QueriesGrow(env, sh, th, a, q.cls); }
  }

  lemma RecordSettles(env: Env, sh: Shared, th: Thread)
    requires Guard(env, sh, th, Record)
    ensures Settled(env, Effect(env, sh, th, Record), th.job.value.query)
  {
    NowRecorded(env, sh, th);
  }

  lemma Abandoned(env: Env, sh: Shared, th: Thread)
    requires ValidEnv(env) && SharedOk(env, sh) && ItemsOk(env, th) && Guard(env, sh, th, Abandon)
    ensures Settled(env, Effect(env, sh, th, Abandon), th.job.value.query)
  {
    hide Moved, PendingOk;
  }

  /** A goroutine gets past recording by recording, or by giving up for a reason. */
  lemma SettledMove(env: Env, sh: Shared, th: Thread, a: Action)
    requires ValidEnv(env) && SharedOk(env, sh) && ThreadOk(env, sh.nodes, th) && Guard(env, sh, th, a)
    requires th.job.Some? && PastRecord(th.pc) ==> Settled(env, sh, th.job.value.query)
    ensures var th', sh' := Moved(env, sh, th, a), Effect(env, sh, th, a);
            th'.job.Some? && PastRecord(th'.pc) ==> Settled(env, sh', th'.job.value.query)
  {
    hide Effect, WindowOk, PendingOk, Settled;
    if th.job.Some? && PastRecord(th.pc) {
      SettledStays(env, sh, th, a, th.job.value.query);
    } else if a.Record? {
      RecordSettles(env, sh, th);
    } else if a.Abandon? {
      Abandoned(env, sh, th);
    }
  }

  lemma SettledOnceStep(env: Env, s: State, t: nat, a: Action)
    requires ValidEnv(env) && Shape(env, s) && SettledOnce(env, s) && Enabled(env, s, t, a)
    ensures SettledOnce(env, Do(env, s, t, a))
  {
    hide Moved, Effect, Guard, Settled;
    var s', th := Do(env, s, t, a), s.threads[t];
    SettledMove(env, s.sh, th, a);
    FinishedFrame(env, s.sh, th, a);
    if a.Done? { DoneIsPast(env, s.sh, th, a); }
    forall q | q in s'.sh.finished ensures Settled(env, s'.sh, q) { SettledStays(env, s.sh, th, a, q); }
    forall i | 0 <= i < |s'.threads| && s'.threads[i].job.Some? && PastRecord(s'.threads[i].pc)
      ensures Settled(env, s'.sh, s'.threads[i].job.value.query)
    {
      if i != t { SettledStays(env, s.sh, th, a, s.threads[i].job.value.query); }
    }
  }

  lemma DoneIsPast(env: Env, sh: Shared, th: Thread, a: Action)
    requires Guard(env, sh, th, a) && a.Done?
    ensures PastRecord(th.pc)
  {
  }

  lemma SettledInit(env: Env, s: State)
    requires IsInit(env, s)
    ensures SettledOnce(env, s)
  {
  }

  lemma {:induction false} SettledAlong(env: Env, run: seq<State>, i: nat)
    requires ValidEnv(env) && IsRun(env, run) && i < |run|
    ensures SettledOnce(env, run[i])
    decreases i
  {
    hide SettledOnce, Shape, Enabled, Do;
    if i == 0 {
      SettledInit(env, run[0]);
    } else {
      var t, a := StepTo(env, run, i);
      SettledAlong(env, run, i - 1);
      ShapeAlong(env, run, i - 1);
      SettledOnceStep(env, run[i - 1], t, a);
    }
  }

  /** After a run that was not cancelled, a query that was admitted and not run and recorded is of a class for
      which more queries were recorded than the limit. */
  lemma OnlyFullClassesMiss(env: Env, s: State, q: Query)
    requires ValidEnv(env) && Reachable(env, s) && ShuttingDown(s) && !s.sh.cancelled && q in s.sh.seen
    ensures q.cls in s.sh.nodes
    ensures q in s.sh.nodes[q.cls].queries || (env.limit > 0 && |s.sh.nodes[q.cls].queries| > env.limit)
  {
    ShutdownLosesNothing(env, s);
    var run :| IsRun(env, run) && run[|run| - 1] == s;
    SettledAlong(env, run, |run| - 1);
    assert q in multiset(s.sh.seen.Keys);
  }
}

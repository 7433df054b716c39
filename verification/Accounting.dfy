/** Where work is. Quantities are summed over the goroutines, so that one step changes a sum by what
    it does to one goroutine; the WaitGroup count and the fate of every admitted query follow. */
module Accounting {
  import opened Correlation
  import opened Protocol

  /** What to count in a goroutine. */
  datatype Kind =
    | Token                     // WaitGroup tokens it must give back or pass on
    | Carries(q: Query)         // admitted items for q in its hands
    | PreRecord(q: Query)       // those of them whose results are not yet recorded
    | Recording(q: Query)       // results for q recorded at the node but not yet at the line
    | PassedFor(c: Class)       // queries for class c past the limit check and not yet recorded
    | WillClaim(c: Class)       // claims of a window of c that it is bound to make
    | Owes(app: Application)    // rule applications it has claimed and not yet made

  function One(b: bool): nat { if b then 1 else 0 }

  predicate HasToken(pc: Pc) {
    !(pc.Idle? || pc.Exited? || pc.Unstarted? || pc.Waiting? || pc.Closing? || pc.Joining? || pc.Returned?)
  }

  predicate JobIs(th: Thread, q: Query) { th.job.Some? && th.job.value.query == q }

  predicate SendIs(th: Thread, q: Query) { !th.send.Ready? && th.send.item.query == q }

  function Weight(env: Env, k: Kind, th: Thread): nat {
    match k
    case Token => One(HasToken(th.pc)) + One(th.send.Counted?)
    case Carries(q) => One(JobIs(th, q)) + One(SendIs(th, q))
    case PreRecord(q) => One((th.pc.Holding? || th.pc.Passed?) && JobIs(th, q)) + One(SendIs(th, q))
    case Recording(q) => One(th.pc.Recorded? && JobIs(th, q))
    case PassedFor(c) => One(th.pc.Passed? && th.job.Some? && th.job.value.query.cls == c)
    case WillClaim(c) =>
      One((th.pc.Primed? || th.pc.Priming?) && c == env.startClass)
      + One((th.pc.Recorded? || th.pc.Claiming?) && th.cls == c)
    case Owes(app) =>
      One(th.pc.Applying? && th.cls == app.cls && th.at <= app.index < |th.objects|
          && (if app.index == th.at then app.rule in th.todo else app.rule in RulesFor(env, th.cls)))
  }

  function Sum(env: Env, k: Kind, threads: seq<Thread>): nat {
    if threads == [] then 0 else Weight(env, k, threads[0]) + Sum(env, k, threads[1..])
  }

  lemma {:induction false} SumUpdate(env: Env, k: Kind, threads: seq<Thread>, t: nat, th: Thread)
    requires t < |threads|
    ensures Sum(env, k, threads[t := th]) + Weight(env, k, threads[t]) == Sum(env, k, threads) + Weight(env, k, th)
    decreases t
  {
    if t == 0 {
      assert threads[0 := th][1..] == threads[1..];
    } else {
      assert threads[t := th][1..] == threads[1..][t - 1 := th];
      SumUpdate(env, k, threads[1..], t - 1, th);
    }
  }

  lemma {:induction false} WeightWithinSum(env: Env, k: Kind, threads: seq<Thread>, t: nat)
    requires t < |threads|
    ensures Weight(env, k, threads[t]) <= Sum(env, k, threads)
    decreases t
  {
    if t > 0 { WeightWithinSum(env, k, threads[1..], t - 1); }
  }

  lemma {:induction false} SumOfZeros(env: Env, k: Kind, threads: seq<Thread>)
    requires forall i :: 0 <= i < |threads| ==> Weight(env, k, threads[i]) == 0
    ensures Sum(env, k, threads) == 0
  {
    if threads != [] {
      assert Weight(env, k, threads[0]) == 0;
      SumOfZeros(env, k, threads[1..]);
    }
  }

  /** How a step changes a sum. */
  lemma SumStep(env: Env, k: Kind, s: State, t: nat, a: Action)
    requires Enabled(env, s, t, a)
    ensures Sum(env, k, Do(env, s, t, a).threads) + Weight(env, k, s.threads[t])
            == Sum(env, k, s.threads) + Weight(env, k, Moved(env, s.sh, s.threads[t], a))
  {
    SumUpdate(env, k, s.threads, t, Moved(env, s.sh, s.threads[t], a));
  }

  lemma SumInit(env: Env, k: Kind, s: State)
    requires IsInit(env, s)
    ensures Sum(env, k, s.threads) == 0
  {
    SumOfZeros(env, k, s.threads);
  }

  /** How many items for `q` are in the queue. */
  function Occurs(items: seq<Item>, q: Query): nat {
    if items == [] then 0 else One(items[0].query == q) + Occurs(items[1..], q)
  }

  lemma {:induction false} OccursAppend(items: seq<Item>, it: Item, q: Query)
    ensures Occurs(items + [it], q) == Occurs(items, q) + One(it.query == q)
  {
    if items == [] {
      assert items + [it] == [it];
    } else {
      assert (items + [it])[1..] == items[1..] + [it];
      OccursAppend(items[1..], it, q);
    }
  }

  lemma {:induction false} OccursMember(items: seq<Item>, i: nat)
    requires i < |items|
    ensures Occurs(items, items[i].query) > 0
    decreases i
  {
    if i > 0 { OccursMember(items[1..], i - 1); }
  }

  // ---- the WaitGroup counts exactly the outstanding work ---------------------------------------

  ghost predicate WgExact(env: Env, s: State) { s.sh.wg == |s.sh.queue| + Sum(env, Token, s.threads) }

  lemma WgFrame(env: Env, sh: Shared, th: Thread, a: Action)
    requires Guard(env, sh, th, a)
    ensures Effect(env, sh, th, a).wg ==
            if a.AddSentinel? || a.CountSend? then sh.wg + 1 else if a.Done? then sh.wg - 1 else sh.wg
  {
    hide Moved;
  }

  /** Which steps take a token at the goroutine's position and which give it back. */
  lemma TokenMove(env: Env, sh: Shared, th: Thread, a: Action)
    requires Guard(env, sh, th, a)
    ensures One(HasToken(Moved(env, sh, th, a).pc)) ==
            One(HasToken(th.pc)) + One(a.AddSentinel? || a.Get?) - One(a.Done?)
  {
    hide Effect;
  }

  lemma WgMove(env: Env, sh: Shared, th: Thread, a: Action)
    requires Guard(env, sh, th, a)
    ensures var sh' := Effect(env, sh, th, a);
            sh'.wg - |sh'.queue| - Weight(env, Token, Moved(env, sh, th, a))
            == sh.wg - |sh.queue| - Weight(env, Token, th)
  {
    hide Moved, Effect;
    WgFrame(env, sh, th, a);
    QueueFrame(env, sh, th, a);
    HandsFrame(env, sh, th, a);
    TokenMove(env, sh, th, a);
  }

  lemma WgStep(env: Env, s: State, t: nat, a: Action)
    requires Enabled(env, s, t, a) && RoleOk(s.threads[t]) && WgExact(env, s)
    ensures WgExact(env, Do(env, s, t, a))
  {
    hide Moved, Effect, Guard, Weight, RoleOk;
    WgMove(env, s.sh, s.threads[t], a);
    SumStep(env, Token, s, t, a);
  }

  // ---- every admitted query is in exactly one place ---------------------------------------------

  /** An admitted query is queued, in one goroutine's hands, or finished: exactly one of these, once.
      A query that was not admitted is nowhere. */
  ghost predicate Placed(env: Env, s: State, q: Query) {
    Occurs(s.sh.queue, q) + Sum(env, Carries(q), s.threads) + s.sh.finished[q] == One(q in s.sh.seen)
  }

  /** Only these steps hand an admitted item over; every other step leaves it where it is. */
  predicate HandsOver(a: Action) { a.Admit? || a.Put? || a.Get? || a.Done? }

  lemma FinishedFrame(env: Env, sh: Shared, th: Thread, a: Action)
    requires Guard(env, sh, th, a)
    ensures Effect(env, sh, th, a).finished ==
            if a.Done? && th.job.Some? then sh.finished + multiset{th.job.value.query} else sh.finished
  {
    hide Moved, Guard;
  }

  lemma PlacedLocal(env: Env, sh: Shared, th: Thread, a: Action, q: Query)
    requires Guard(env, sh, th, a) && RoleOk(th) && !HandsOver(a)
    ensures Weight(env, Carries(q), Moved(env, sh, th, a)) == Weight(env, Carries(q), th)
    ensures var sh' := Effect(env, sh, th, a);
            sh'.queue == sh.queue && sh'.finished == sh.finished && sh'.seen == sh.seen
  {
    hide Moved, Effect;
    HandsFrame(env, sh, th, a);
    QueueFrame(env, sh, th, a);
    SeenFrame(env, sh, th, a);
    FinishedFrame(env, sh, th, a);
  }

  /** What a goroutine carries changes with the step it takes. */
  lemma CarriesMove(env: Env, sh: Shared, th: Thread, a: Action, q: Query)
    requires Guard(env, sh, th, a) && RoleOk(th) && HandsOver(a)
    ensures Weight(env, Carries(q), Moved(env, sh, th, a)) == Weight(env, Carries(q), th)
              + One(a.Admit? && th.pending[0].query == q) + One(a.Get? && sh.queue[0].query == q)
              - One(a.Put? && th.send.item.query == q) - One(a.Done? && th.job.Some? && th.job.value.query == q)
  {
    hide Moved, Effect;
    HandsFrame(env, sh, th, a);
  }

  lemma PlacedHandOver(env: Env, sh: Shared, th: Thread, a: Action, q: Query)
    requires Guard(env, sh, th, a) && RoleOk(th) && HandsOver(a)
    ensures var sh' := Effect(env, sh, th, a);
            Occurs(sh'.queue, q) + sh'.finished[q] - One(q in sh'.seen) + Weight(env, Carries(q), Moved(env, sh, th, a))
            == Occurs(sh.queue, q) + sh.finished[q] - One(q in sh.seen) + Weight(env, Carries(q), th)
  {
    hide Moved, Effect, Weight, RoleOk;
    CarriesMove(env, sh, th, a, q);
    QueueFrame(env, sh, th, a);
    SeenFrame(env, sh, th, a);
    FinishedFrame(env, sh, th, a);
    if a.Put? { OccursAppend(sh.queue, th.send.item, q); }
  }

  lemma PlacedStep(env: Env, s: State, t: nat, a: Action, q: Query)
    requires Enabled(env, s, t, a) && RoleOk(s.threads[t]) && Placed(env, s, q)
    ensures Placed(env, Do(env, s, t, a), q)
  {
    SumStep(env, Carries(q), s, t, a);
    if HandsOver(a) {
      PlacedHandOver(env, s.sh, s.threads[t], a, q);
    } else {
      PlacedLocal(env, s.sh, s.threads[t], a, q);
    }
  }

  // ---- shutdown ---------------------------------------------------------------------------------

  /** Nothing is queued and no goroutine holds work. */
  predicate Quiet(s: State) {
    && s.sh.queue == [] && s.sh.wg == 0
    && forall i :: 0 < i < |s.threads| ==> s.threads[i].pc.Idle? || s.threads[i].pc.Exited?
  }

  /** The priming goroutine has returned from `wg.Wait`. */
  predicate ShuttingDown(s: State) {
    |s.threads| > 0 && (s.threads[0].pc.Closing? || s.threads[0].pc.Joining? || s.threads[0].pc.Returned?)
  }

  ghost predicate ShutdownOk(s: State) {
    && |s.threads| > 0
    && (ShuttingDown(s) ==> Quiet(s))
    && (s.sh.closed <==> s.threads[0].pc.Joining? || s.threads[0].pc.Returned?)
    && (forall i :: 0 < i < |s.threads| && s.threads[i].pc.Exited? ==> s.sh.closed)
    && (s.threads[0].pc.Returned? ==> forall i :: 0 < i < |s.threads| ==> s.threads[i].pc.Exited?)
  }

  /** When the count is zero, there is no work anywhere. */
  lemma ZeroMeansQuiet(env: Env, s: State)
    requires Shape(env, s) && WgExact(env, s) && s.sh.wg == 0
    ensures Quiet(s)
  {
    forall i | 0 < i < |s.threads| ensures s.threads[i].pc.Idle? || s.threads[i].pc.Exited? {
      WeightWithinSum(env, Token, s.threads, i);
      assert IsWorker(s.threads[i]);
    }
  }

  /** During shutdown no goroutine has anything left to count. */
  lemma QuietSum(env: Env, s: State, k: Kind)
    requires Shape(env, s) && ShutdownOk(s) && ShuttingDown(s)
    ensures Sum(env, k, s.threads) == 0
  {
    forall i | 0 <= i < |s.threads| ensures Weight(env, k, s.threads[i]) == 0 {
      assert RoleOk(s.threads[i]);
      assert i > 0 ==> IsWorker(s.threads[i]);
    }
    SumOfZeros(env, k, s.threads);
  }

  /** From a quiet state only the end of the shutdown is possible. */
  lemma QuietSteps(env: Env, s: State, t: nat, a: Action)
    requires Shape(env, s) && ShutdownOk(s) && ShuttingDown(s) && Enabled(env, s, t, a)
    ensures a.Cancel? || a.Exit? || a.Close? || a.Join?
    ensures t == 0 || a.Cancel? || a.Exit?
  {
    assert t > 0 ==> IsWorker(s.threads[t]) && (s.threads[t].pc.Idle? || s.threads[t].pc.Exited?);
    assert t == 0 ==> IsMain(s.threads[0]);
  }

  /** Only the priming goroutine waits, closes and joins; only workers take items and exit. */
  lemma MainSteps(env: Env, s: State, t: nat, a: Action)
    requires Shape(env, s) && Enabled(env, s, t, a)
    ensures a.Close? || a.Join? || a.WaitDone? ==> t == 0
    ensures a.Exit? || a.Get? ==> t > 0
  {
    assert t > 0 ==> IsWorker(s.threads[t]);
    assert t == 0 ==> IsMain(s.threads[0]);
  }

  /** The stages of the shutdown are entered in one way each. */
  lemma ClosedFrame(env: Env, sh: Shared, th: Thread, a: Action)
    requires Guard(env, sh, th, a) && !a.Close?
    ensures Effect(env, sh, th, a).closed == sh.closed
  {
    hide Guard, Moved;
  }

  lemma ShutdownStages(env: Env, sh: Shared, th: Thread, a: Action)
    requires Guard(env, sh, th, a) && RoleOk(th)
    ensures !a.Close? ==> Effect(env, sh, th, a).closed == sh.closed
    ensures var pc := Moved(env, sh, th, a).pc;
            && (!a.Exit? && !th.pc.Exited? ==> !pc.Exited?)
            && (!a.Close? && !a.Join? && !th.pc.Joining? && !th.pc.Returned? ==> !pc.Joining? && !pc.Returned?)
            && (!a.WaitDone? && !th.pc.Closing? ==> !pc.Closing?)
  {
    hide Effect;
    if !a.Close? { ClosedFrame(env, sh, th, a); }
  }

  lemma ShutdownStep(env: Env, s: State, t: nat, a: Action)
    requires Shape(env, s) && WgExact(env, s) && ShutdownOk(s) && Enabled(env, s, t, a)
    ensures ShutdownOk(Do(env, s, t, a))
  {
    MainSteps(env, s, t, a);
    ShutdownStages(env, s.sh, s.threads[t], a);
    if ShuttingDown(s) {
      QuietSteps(env, s, t, a);
    } else if a.WaitDone? {
      ZeroMeansQuiet(env, s);
    }
  }

  // ---- all of it, in every reachable state --------------------------------------------------------

  ghost predicate Accounted(env: Env, s: State) {
    Shape(env, s) && WgExact(env, s) && ShutdownOk(s) && forall q :: Placed(env, s, q)
  }

  lemma AccountedInit(env: Env, s: State)
    requires ValidEnv(env) && IsInit(env, s)
    ensures Accounted(env, s)
  {
    SumInit(env, Token, s);
    forall q ensures Placed(env, s, q) { SumInit(env, Carries(q), s); }
  }

  lemma AccountedStep(env: Env, s: State, t: nat, a: Action)
    requires ValidEnv(env) && Accounted(env, s) && Enabled(env, s, t, a)
    ensures Accounted(env, Do(env, s, t, a))
  {
    ShapeStep(env, s, t, a);
    WgStep(env, s, t, a);
    ShutdownStep(env, s, t, a);
    forall q ensures Placed(env, Do(env, s, t, a), q) { PlacedStep(env, s, t, a, q); }
  }

  lemma AccountedNext(env: Env, s: State, s': State)
    requires ValidEnv(env) && Accounted(env, s) && Next(env, s, s')
    ensures Accounted(env, s')
  {
    var t, a :| Enabled(env, s, t, a) && s' == Do(env, s, t, a);
    AccountedStep(env, s, t, a);
  }

  lemma {:induction false} AccountedAlong(env: Env, run: seq<State>, i: nat)
    requires ValidEnv(env) && IsRun(env, run) && i < |run|
    ensures Accounted(env, run[i])
    decreases i
  {
    if i == 0 {
      AccountedInit(env, run[0]);
    } else {
      AccountedAlong(env, run, i - 1);
      assert Next(env, run[i - 1], run[i]);
      AccountedNext(env, run[i - 1], run[i]);
    }
  }

  /** In every reachable state the WaitGroup count is never negative and equals the queued items plus
      the tokens the goroutines hold, and a goroutine about to call `wg.Add` finds it positive. */
  lemma WaitGroupExact(env: Env, s: State)
    requires ValidEnv(env) && Reachable(env, s)
    ensures s.sh.wg == |s.sh.queue| + Sum(env, Token, s.threads)
    ensures forall i :: 0 <= i < |s.threads| && s.threads[i].send.Admitted? ==> s.sh.wg > 0
  {
    var run :| IsRun(env, run) && run[|run| - 1] == s;
    AccountedAlong(env, run, |run| - 1);
    forall i | 0 <= i < |s.threads| && s.threads[i].send.Admitted? ensures s.sh.wg > 0 {
      WeightWithinSum(env, Token, s.threads, i);
    }
  }

  /** Shutdown loses no work: once `wg.Wait` has returned, the queue is empty, no worker holds work,
      no step can ever add work again, and each admitted query was finished exactly once. */
  lemma ShutdownLosesNothing(env: Env, s: State)
    requires ValidEnv(env) && Reachable(env, s) && ShuttingDown(s)
    ensures Quiet(s)
    ensures forall t, a :: Enabled(env, s, t, a) ==> a.Cancel? || a.Exit? || a.Close? || a.Join?
    ensures s.sh.finished == multiset(s.sh.seen.Keys)
  {
    var run :| IsRun(env, run) && run[|run| - 1] == s;
    AccountedAlong(env, run, |run| - 1);
    forall t, a | Enabled(env, s, t, a) ensures a.Cancel? || a.Exit? || a.Close? || a.Join? {
      QuietSteps(env, s, t, a);
    }
    forall q ensures s.sh.finished[q] == multiset(s.sh.seen.Keys)[q] {
      assert Placed(env, s, q);
      QuietSum(env, s, Carries(q));
    }
  }
}

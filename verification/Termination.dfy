/** Every run ends: no run is infinite while finitely many queries are derivable, however cyclic the
    rules, and no run gets stuck before it has shut down. */
module Termination {
  import opened Correlation
  import opened Protocol
  import opened Accounting
  import opened Recording
  import opened Fixpoint

  // ---- the measure -----------------------------------------------------------------------------------

  /** How far a position is from rest. */
  function Stage(pc: Pc): nat {
    match pc
    case Unstarted => 14
    case Primed => 13
    case Priming => 12
    case Holding => 11
    case Passed => 10
    case Recorded => 9
    case Claiming => 8
    case Applying => 7
    case Finishing => 6
    case Waiting => 4
    case Closing => 3
    case Joining => 2
    case Idle => 1
    case Exited => 0
    case Returned => 0
  }

  /** How far an item being sent is from rest, which takes a worker to handle it. */
  function Reserve(send: Send): nat { match send case Ready => 0 case Admitted(_) => 14 case Counted(_) => 13 }

  function Distance(th: Thread): nat { Stage(th.pc) + Reserve(th.send) }

  const QUEUED: nat := 12

  /** What is left of a claimed window: objects, then rules for the current object, then items to send. */
  function ObjectsLeft(th: Thread): nat { if th.at <= |th.objects| && th.pc.Applying? then |th.objects| - th.at else 0 }

  function RulesLeft(th: Thread): nat { if th.pc.Applying? then |th.todo| else 0 }

  function Unsent(th: Thread): nat { |th.pending| }

  /** The sum of a quantity over the goroutines. */
  function SumBy(f: Thread -> nat, threads: seq<Thread>): nat {
    if threads == [] then 0 else f(threads[0]) + SumBy(f, threads[1..])
  }

  lemma {:induction false} SumByUpdate(f: Thread -> nat, threads: seq<Thread>, t: nat, th: Thread)
    requires t < |threads|
    ensures SumBy(f, threads[t := th]) + f(threads[t]) == SumBy(f, threads) + f(th)
    decreases t
  {
    if t == 0 {
      assert threads[0 := th][1..] == threads[1..];
    } else {
      assert threads[t := th][1..] == threads[1..][t - 1 := th];
      SumByUpdate(f, threads[1..], t - 1, th);
    }
  }

  /** Lexicographic: cancellation still possible; derivable queries not yet admitted; distance of
      everything in flight; then the remains of the claimed windows. */
  datatype Measure = Measure(live: nat, unseen: nat, distance: nat, objects: nat, rules: nat, unsent: nat)

  function MeasureOf(universe: set<Query>, s: State): Measure {
    Measure(One(!s.sh.cancelled), |universe - s.sh.seen.Keys|, SumBy(Distance, s.threads) + QUEUED * |s.sh.queue|,
            SumBy(ObjectsLeft, s.threads), SumBy(RulesLeft, s.threads), SumBy(Unsent, s.threads))
  }

  predicate Less(m: Measure, n: Measure) {
    || m.live < n.live
    || (m.live == n.live && m.unseen < n.unseen)
    || (m.live == n.live && m.unseen == n.unseen && m.distance < n.distance)
    || (m.live == n.live && m.unseen == n.unseen && m.distance == n.distance
        && (m.objects < n.objects
            || (m.objects == n.objects && (m.rules < n.rules || (m.rules == n.rules && m.unsent < n.unsent)))))
  }

  /** Steps that leave their goroutine at its position. */
  predicate StaysPut(a: Action) {
    a.Cancel? || a.Drop? || a.Admit? || a.CountSend? || a.Put? || a.ApplyRule? || a.NextObject?
  }

  lemma StageMove(env: Env, sh: Shared, th: Thread, a: Action)
    requires Guard(env, sh, th, a) && RoleOk(th)
    ensures if StaysPut(a) then Moved(env, sh, th, a).pc == th.pc
            else Stage(Moved(env, sh, th, a).pc) < Stage(th.pc) + (if a.Get? then QUEUED else 0)
    ensures a.Get? ==> Stage(Moved(env, sh, th, a).pc) < QUEUED
  {
    hide Effect;
  }

  /** Steps that bring their goroutine closer to rest. */
  lemma DistanceMove(env: Env, sh: Shared, th: Thread, a: Action)
    requires RoleOk(th) && Guard(env, sh, th, a)
    ensures !a.Cancel? && !a.Admit? && !a.Drop? && !a.ApplyRule? && !a.NextObject? ==>
              Distance(Moved(env, sh, th, a)) + QUEUED * |Effect(env, sh, th, a).queue|
              < Distance(th) + QUEUED * |sh.queue|
    ensures a.Cancel? || a.Drop? || a.ApplyRule? || a.NextObject? ==>
              Distance(Moved(env, sh, th, a)) == Distance(th) && Effect(env, sh, th, a).queue == sh.queue
  {
    hide Moved, Effect, Stage, RoleOk;
    StageMove(env, sh, th, a);
    HandsFrame(env, sh, th, a);
    QueueFrame(env, sh, th, a);
  }

  /** Steps within a claimed window use it up. */
  lemma WindowMove(env: Env, sh: Shared, th: Thread, a: Action)
    requires Guard(env, sh, th, a) && (a.Drop? || a.ApplyRule? || a.NextObject?)
    requires th.pc.Applying? ==> th.at <= |th.objects|
    ensures var th' := Moved(env, sh, th, a);
            && (a.NextObject? ==> ObjectsLeft(th') < ObjectsLeft(th))
            && (a.ApplyRule? ==> ObjectsLeft(th') == ObjectsLeft(th) && RulesLeft(th') < RulesLeft(th))
            && (a.Drop? ==> ObjectsLeft(th') == ObjectsLeft(th) && RulesLeft(th') == RulesLeft(th)
                            && |th'.pending| < |th.pending|)
  {
    if a.ApplyRule? { assert |th.todo - {a.rule}| == |th.todo| - 1; }
  }

  lemma AdmitShrinks(universe: set<Query>, seen: map<Query, Item>, it: Item)
    requires it.query in universe && it.query !in seen
    ensures |universe - seen[it.query := it].Keys| < |universe - seen.Keys|
  {
    assert universe - seen[it.query := it].Keys == universe - seen.Keys - {it.query};
  }

  /** `universe` holds every derivable query. */
  ghost predicate Bounds(env: Env, universe: set<Query>) { forall q :: Derivable(env, q) ==> q in universe }

  /** Steps that admit nothing bring what is in flight closer to rest, or use up claimed windows. */
  lemma InFlightFalls(env: Env, universe: set<Query>, s: State, t: nat, a: Action)
    requires Shape(env, s) && Enabled(env, s, t, a) && !a.Cancel? && !a.Admit?
    ensures Less(MeasureOf(universe, Do(env, s, t, a)), MeasureOf(universe, s))
  {
    hide Moved, Effect, Distance, ObjectsLeft, RulesLeft;
    var th := s.threads[t];
    var th' := Moved(env, s.sh, th, a);
    SumByUpdate(Distance, s.threads, t, th');
    SumByUpdate(ObjectsLeft, s.threads, t, th');
    SumByUpdate(RulesLeft, s.threads, t, th');
    SumByUpdate(Unsent, s.threads, t, th');
    CancelledFrame(env, s.sh, th, a);
    SeenFrame(env, s.sh, th, a);
    DistanceMove(env, s.sh, th, a);
    if a.Drop? || a.ApplyRule? || a.NextObject? { WindowMove(env, s.sh, th, a); }
  }

  lemma StepDecreases(env: Env, universe: set<Query>, s: State, t: nat, a: Action)
    requires ValidEnv(env) && Bounds(env, universe) && Shape(env, s) && Sound(env, s) && Enabled(env, s, t, a)
    ensures Less(MeasureOf(universe, Do(env, s, t, a)), MeasureOf(universe, s))
  {
    hide Moved, Effect, Shape;
    var th := s.threads[t];
    if a.Cancel? {
      CancelledFrame(env, s.sh, th, a);
    } else if a.Admit? {
      assert PendingSound(env, th);
      AdmitShrinks(universe, s.sh.seen, th.pending[0]);
      CancelledFrame(env, s.sh, th, a);
      SeenFrame(env, s.sh, th, a);
    } else {
      InFlightFalls(env, universe, s, t, a);
    }
  }

  // ---- no infinite run ----------------------------------------------------------------------------------

  /** The trace takes a step at `i`. */
  ghost predicate MovesAt(env: Env, trace: nat -> State, i: nat) { Next(env, trace(i), trace(i + 1)) }

  ghost predicate StopsAt(trace: nat -> State, i: nat) { trace(i + 1) == trace(i) }

  /** A run observed forever: at each point it has taken a step, or it has stopped. */
  ghost predicate IsTrace(env: Env, trace: nat -> State) {
    && IsInit(env, trace(0))
    && forall i: nat :: MovesAt(env, trace, i) || StopsAt(trace, i)
  }

  lemma {:induction false} TraceReachable(env: Env, trace: nat -> State, i: nat)
    requires IsTrace(env, trace)
    ensures Reachable(env, trace(i))
    decreases i
  {
    if i == 0 {
      assert IsRun(env, [trace(0)]);
    } else {
      TraceReachable(env, trace, i - 1);
      if MovesAt(env, trace, i - 1) {
        ReachableStep(env, trace(i - 1), trace(i));
      } else {
        assert StopsAt(trace, i - 1);
      }
    }
  }

  lemma NextDecreases(env: Env, universe: set<Query>, s: State, s': State)
    requires ValidEnv(env) && Bounds(env, universe) && Reachable(env, s) && Next(env, s, s')
    ensures Less(MeasureOf(universe, s'), MeasureOf(universe, s))
  {
    var run :| IsRun(env, run) && run[|run| - 1] == s;
    ShapeAlong(env, run, |run| - 1);
    SoundAlong(env, run, |run| - 1);
    var t, a :| Enabled(env, s, t, a) && s' == Do(env, s, t, a);
    StepDecreases(env, universe, s, t, a);
  }

  /** From any point of a trace, the run stops. */
  lemma {:induction false} StopsAfter(env: Env, universe: set<Query>, trace: nat -> State, i: nat, m: Measure)
    returns (n: nat)
    requires ValidEnv(env) && Bounds(env, universe) && IsTrace(env, trace) && m == MeasureOf(universe, trace(i))
    ensures n >= i && !MovesAt(env, trace, n)
    decreases m.live, m.unseen, m.distance, m.objects, m.rules, m.unsent
  {
    if !MovesAt(env, trace, i) {
      n := i;
    } else {
      TraceReachable(env, trace, i);
      NextDecreases(env, universe, trace(i), trace(i + 1));
      n := StopsAfter(env, universe, trace, i + 1, MeasureOf(universe, trace(i + 1)));
    }
  }

  // ---- no deadlock ------------------------------------------------------------------------------------------

  /** A step the goroutine itself can take. */
  ghost predicate CanMove(env: Env, s: State, t: nat) { exists a: Action :: !a.Cancel? && Enabled(env, s, t, a) }

  lemma ByStep(env: Env, s: State, t: nat, a: Action)
    requires !a.Cancel? && Enabled(env, s, t, a)
    ensures CanMove(env, s, t)
  {
  }

  lemma ApplyingCanMove(env: Env, s: State, t: nat)
    requires Shape(env, s) && t < |s.threads| && Sending(s.threads[t])
    ensures CanMove(env, s, t)
  {
    hide CanMove;
    var th := s.threads[t];
    assert ThreadOk(env, s.sh.nodes, th);
    if th.send.Admitted? {
      ByStep(env, s, t, CountSend);
    } else if th.send.Counted? {
      ByStep(env, s, t, Put);
    } else if th.pending != [] {
      var it := th.pending[0];
      ByStep(env, s, t, if TooDeep(env, it.depth) || it.query in s.sh.seen then Drop else Admit);
    } else if th.pc.Priming? {
      ByStep(env, s, t, EndPriming);
    } else if th.at == |th.objects| {
      ByStep(env, s, t, EndApply);
    } else if th.todo == {} {
      ByStep(env, s, t, NextObject);
    } else {
      var r :| r in th.todo;
      ByStep(env, s, t, ApplyRule(r));
    }
  }

  /** No goroutine that holds work ever waits. */
  lemma HolderCanMove(env: Env, s: State, t: nat)
    requires ValidEnv(env) && Shape(env, s) && t < |s.threads| && HasToken(s.threads[t].pc)
    ensures CanMove(env, s, t)
  {
    hide CanMove;
    var th := s.threads[t];
    assert ThreadOk(env, s.sh.nodes, th);
    if th.pc.Holding? {
      ByStep(env, s, t, if UnderLimit(env, s.sh.nodes, th.job.value) then Pass else Abandon);
    } else if th.pc.Passed? {
      ByStep(env, s, t, Record);
    } else if th.pc.Recorded? {
      ByStep(env, s, t, SetLine);
    } else if th.pc.Claiming? {
      ByStep(env, s, t, Claim);
    } else if th.pc.Finishing? {
      ByStep(env, s, t, Done);
    } else if th.pc.Primed? {
      ByStep(env, s, t, AppendStart);
    } else {
      ApplyingCanMove(env, s, t);
    }
  }

  lemma RestingCanMove(env: Env, s: State)
    requires ValidEnv(env) && Accounted(env, s) && !HasReturned(s)
    requires forall t :: 0 <= t < |s.threads| ==> !HasToken(s.threads[t].pc)
    ensures exists t :: CanMove(env, s, t)
  {
    hide CanMove;
    assert IsMain(s.threads[0]) && IsWorker(s.threads[1]);
    if s.sh.queue != [] {
      ByStep(env, s, 1, Get);
    } else {
      forall i | 0 <= i < |s.threads| ensures Weight(env, Token, s.threads[i]) == 0 { assert RoleOk(s.threads[i]); }
      SumOfZeros(env, Token, s.threads);
      if s.threads[0].pc.Unstarted? {
        ByStep(env, s, 0, AddSentinel);
      } else if s.threads[0].pc.Waiting? {
        ByStep(env, s, 0, WaitDone);
      } else if s.threads[0].pc.Closing? {
        ByStep(env, s, 0, Close);
      } else if i :| 0 < i < |s.threads| && !s.threads[i].pc.Exited? {
        assert IsWorker(s.threads[i]);
        ByStep(env, s, i, Exit);
      } else {
        ByStep(env, s, 0, Join);
      }
    }
  }

  predicate HasReturned(s: State) { |s.threads| > 0 && s.threads[0].pc.Returned? }

  /** In every reachable state before the traversal returns, some goroutine can take a step. */
  lemma NeverStuck(env: Env, s: State)
    requires ValidEnv(env) && Reachable(env, s) && !HasReturned(s)
    ensures exists t :: CanMove(env, s, t)
  {
    var run :| IsRun(env, run) && run[|run| - 1] == s;
    AccountedAlong(env, run, |run| - 1);
    if t :| 0 <= t < |s.threads| && HasToken(s.threads[t].pc) {
      HolderCanMove(env, s, t);
    } else {
      RestingCanMove(env, s);
    }
  }

  /** A trace that stops only when no goroutine can move. */
  ghost predicate Eager(env: Env, trace: nat -> State) {
    forall i: nat, t: nat :: CanMove(env, trace(i), t) ==> MovesAt(env, trace, i)
  }

  /** If finitely many queries are derivable, every traversal returns, on cyclic rules too, under any
      scheduler that keeps going while some goroutine can move. */
  lemma AlwaysReturns(env: Env, universe: set<Query>, trace: nat -> State)
    requires ValidEnv(env) && Bounds(env, universe) && IsTrace(env, trace) && Eager(env, trace)
    ensures exists n: nat :: HasReturned(trace(n))
  {
    var n := StopsAfter(env, universe, trace, 0, MeasureOf(universe, trace(0)));
    TraceReachable(env, trace, n);
    if !HasReturned(trace(n)) {
      NeverStuck(env, trace(n));
    }
  }
}

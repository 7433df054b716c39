/** With a depth limit every run ends, whatever the queries: an item only leads to finitely many deeper
    ones, so work moves down through the levels of depth and runs out. */
module DepthLimit {
  import opened Correlation
  import opened Protocol
  import opened Accounting
  import opened Termination

  // ---- no infinite descent -----------------------------------------------------------------------------

  datatype Work = Work(distance: nat, objects: nat, rules: nat, unsent: nat)

  predicate WorkLess(a: Work, b: Work) {
    || a.distance < b.distance
    || (a.distance == b.distance && a.objects < b.objects)
    || (a.distance == b.distance && a.objects == b.objects && a.rules < b.rules)
    || (a.distance == b.distance && a.objects == b.objects && a.rules == b.rules && a.unsent < b.unsent)
  }

  predicate LessAt(a: seq<Work>, b: seq<Work>, k: nat) {
    |a| == |b| && k < |a| && a[..k] == b[..k] && WorkLess(a[k], b[k])
  }

  /** Lexicographically less, among sequences of one length. */
  ghost predicate LexLess(a: seq<Work>, b: seq<Work>) { exists k :: LessAt(a, b, k) }

  ghost predicate FallsAt(f: nat -> seq<Work>, length: nat, i: nat) {
    |f(i)| == |f(i + 1)| == length && LexLess(f(i + 1), f(i))
  }

  ghost predicate Descends(f: nat -> seq<Work>, length: nat) { forall i: nat :: FallsAt(f, length, i) }

  lemma HeadFalls(a: seq<Work>, b: seq<Work>)
    requires LexLess(a, b)
    ensures a != [] && b != [] && (a[0] == b[0] || WorkLess(a[0], b[0]))
  {
    var k: nat :| LessAt(a, b, k);
    if k > 0 { assert a[0] == a[..k][0] == b[..k][0] == b[0]; }
  }

  /** With equal heads, the tails descend. */
  lemma TailFalls(a: seq<Work>, b: seq<Work>)
    requires LexLess(a, b) && a != [] && b != [] && a[0] == b[0]
    ensures LexLess(a[1..], b[1..])
  {
    var k: nat :| LessAt(a, b, k);
    assert k > 0;
    var p: nat := k - 1;
    assert a[1..][..p] == a[..k][1..] && b[1..][..p] == b[..k][1..];
    assert LessAt(a[1..], b[1..], p);
  }

  lemma {:induction false} HeadsFall(f: nat -> seq<Work>, length: nat, i: nat, j: nat)
    requires length > 0 && Descends(f, length) && i <= j
    ensures |f(i)| == |f(j)| == length && (f(j)[0] == f(i)[0] || WorkLess(f(j)[0], f(i)[0]))
    decreases j
  {
    assert FallsAt(f, length, i);
    if i < j {
      var p: nat := j - 1;
      HeadsFall(f, length, i, p);
      assert FallsAt(f, length, p);
      HeadFalls(f(j), f(p));
    }
  }

  ghost predicate SettledFrom(f: nat -> seq<Work>, length: nat, n: nat) {
    length > 0 && forall j: nat :: n <= j ==> |f(j)| == |f(n)| == length && f(j)[0] == f(n)[0]
  }

  /** The first component falls only so often. */
  lemma {:induction false} HeadSettles(f: nat -> seq<Work>, length: nat, i: nat, head: Work) returns (n: nat)
    requires length > 0 && Descends(f, length) && |f(i)| == length && head == f(i)[0]
    ensures SettledFrom(f, length, n)
    decreases head.distance, head.objects, head.rules, head.unsent
  {
    if j: nat :| i <= j && (|f(j)| != length || f(j)[0] != f(i)[0]) {
      HeadsFall(f, length, i, j);
      n := HeadSettles(f, length, j, f(j)[0]);
    } else {
      n := i;
    }
  }

  function Tails(f: nat -> seq<Work>, n: nat): nat -> seq<Work> {
    (i: nat) => if f(n + i) == [] then [] else f(n + i)[1..]
  }

  lemma TailsFall(f: nat -> seq<Work>, length: nat, n: nat, p: nat)
    requires Descends(f, length) && SettledFrom(f, length, n) && n <= p
    ensures |f(p)| == |f(p + 1)| == length && LexLess(f(p + 1)[1..], f(p)[1..])
  {
    hide LexLess;
    assert FallsAt(f, length, p);
    assert f(p + 1)[0] == f(n)[0] == f(p)[0];
    TailFalls(f(p + 1), f(p));
  }

  lemma TailsDescend(f: nat -> seq<Work>, length: nat, n: nat)
    requires Descends(f, length) && SettledFrom(f, length, n)
    ensures Descends(Tails(f, n), length - 1)
  {
    hide LexLess;
    var rest: nat := length - 1;
    forall i: nat ensures FallsAt(Tails(f, n), rest, i) {
      TailsFall(f, length, n, n + i);
      assert n + (i + 1) == n + i + 1;
    }
  }

  /** Sequences of one length do not descend forever. */
  lemma {:induction false} NoInfiniteDescent(f: nat -> seq<Work>, length: nat)
    ensures !Descends(f, length)
    decreases length
  {
    if Descends(f, length) {
      assert FallsAt(f, length, 0);
      var n := HeadSettles(f, length, 0, f(0)[0]);
      TailsDescend(f, length, n);
      NoInfiniteDescent(Tails(f, n), length - 1);
    }
  }

  // ---- levels --------------------------------------------------------------------------------------------

  /** The level of a goroutine is one more than the depth of its item, so items it sends are of its level
      or deeper, and are handled at a higher one. */
  function Level(th: Thread): nat { if th.job.Some? then th.job.value.depth + 1 else 0 }

  function StageAt(level: nat): Thread -> nat {
    (th: Thread) =>
      (if Level(th) == level && !th.pc.Idle? then Stage(th.pc) else 0)
      + (if !th.send.Ready? && th.send.item.depth + 1 == level then Reserve(th.send) else 0)
  }

  function ObjectsAt(level: nat): Thread -> nat { (th: Thread) => if Level(th) == level then ObjectsLeft(th) else 0 }

  function RulesAt(level: nat): Thread -> nat { (th: Thread) => if Level(th) == level then RulesLeft(th) else 0 }

  function UnsentAt(level: nat): Thread -> nat { (th: Thread) => if Level(th) == level then Unsent(th) else 0 }

  function Idling(th: Thread): nat { One(th.pc.Idle?) }

  /** How many queued items will be handled at the level. */
  function QueuedAt(items: seq<Item>, level: nat): nat {
    if items == [] then 0 else One(items[0].depth + 1 == level) + QueuedAt(items[1..], level)
  }

  lemma {:induction false} QueuedAppend(items: seq<Item>, it: Item, level: nat)
    ensures QueuedAt(items + [it], level) == QueuedAt(items, level) + One(it.depth + 1 == level)
  {
    if items == [] {
      assert items + [it] == [it];
    } else {
      assert (items + [it])[1..] == items[1..] + [it];
      QueuedAppend(items[1..], it, level);
    }
  }

  function WorkAt(s: State, level: nat): Work {
    Work(SumBy(StageAt(level), s.threads) + QUEUED * QueuedAt(s.sh.queue, level),
         SumBy(ObjectsAt(level), s.threads), SumBy(RulesAt(level), s.threads), SumBy(UnsentAt(level), s.threads))
  }

  /** Cancellation still possible; the work at each level, shallowest first; workers still to exit. */
  function Ranks(env: Env, s: State): seq<Work>
    requires env.maxDepth >= 0
  {
    [Work(One(!s.sh.cancelled), 0, 0, 0)] + seq(env.maxDepth + 2, level requires 0 <= level => WorkAt(s, level))
    + [Work(SumBy(Idling, s.threads), 0, 0, 0)]
  }

  // ---- depths stay within the limit ------------------------------------------------------------------------

  predicate ThreadDepths(env: Env, th: Thread) {
    && (th.job.Some? ==> th.job.value.depth <= env.maxDepth)
    && (!th.send.Ready? ==> Level(th) <= th.send.item.depth <= env.maxDepth)
    && (InRules(th.pc) ==> Level(th) <= th.depth)
    && (forall i :: 0 <= i < |th.pending| ==> Level(th) <= th.pending[i].depth)
  }

  predicate Shallow(env: Env, items: seq<Item>) { forall i :: 0 <= i < |items| ==> items[i].depth <= env.maxDepth }

  predicate DepthsFit(env: Env, s: State) {
    Shallow(env, s.sh.queue) && forall i :: 0 <= i < |s.threads| ==> ThreadDepths(env, s.threads[i])
  }

  lemma ThreadDepthsMove(env: Env, sh: Shared, th: Thread, a: Action)
    requires env.maxDepth >= 0 && Guard(env, sh, th, a) && RoleOk(th) && ThreadDepths(env, th) && Shallow(env, sh.queue)
    ensures ThreadDepths(env, Moved(env, sh, th, a))
  {
    hide Moved, Effect;
    HandsFrame(env, sh, th, a);
    RulesFrame(env, sh, th, a);
    if a.ApplyRule? {
      var items := ItemsOf(env, th, a.rule);
      SendsOk(env, th.cls, a.rule, th.depth, env.apply(a.rule, th.objects[th.at]));
      forall i | 0 <= i < |items| ensures items[i].depth == th.depth { assert items[i] in items; }
    }
  }

  lemma QueueDepths(env: Env, sh: Shared, th: Thread, a: Action)
    requires Guard(env, sh, th, a) && ThreadDepths(env, th) && Shallow(env, sh.queue)
    ensures Shallow(env, Effect(env, sh, th, a).queue)
  {
    hide Moved, Effect;
    QueueFrame(env, sh, th, a);
  }

  lemma DepthsStep(env: Env, s: State, t: nat, a: Action)
    requires env.maxDepth >= 0 && Shape(env, s) && DepthsFit(env, s) && Enabled(env, s, t, a)
    ensures DepthsFit(env, Do(env, s, t, a))
  {
    hide Moved, Effect, Guard, ThreadDepths, Shallow;
    ThreadDepthsMove(env, s.sh, s.threads[t], a);
    QueueDepths(env, s.sh, s.threads[t], a);
  }

  lemma DepthsInit(env: Env, s: State)
    requires IsInit(env, s)
    ensures DepthsFit(env, s)
  {
  }

  lemma {:induction false} DepthsAlong(env: Env, run: seq<State>, i: nat)
    requires ValidEnv(env) && env.maxDepth >= 0 && IsRun(env, run) && i < |run|
    ensures DepthsFit(env, run[i])
    decreases i
  {
    hide DepthsFit, Shape, Enabled, Do;
    if i == 0 {
      DepthsInit(env, run[0]);
    } else {
      var t, a := StepTo(env, run, i);
      DepthsAlong(env, run, i - 1);
      ShapeAlong(env, run, i - 1);
      DepthsStep(env, run[i - 1], t, a);
    }
  }

  // ---- every step descends -----------------------------------------------------------------------------------

  /** The shallowest level at which the step changes anything. */
  function StepLevel(sh: Shared, th: Thread, a: Action): nat {
    if a.Get? && sh.queue != [] then sh.queue[0].depth + 1
    else if (a.CountSend? || a.Put?) && !th.send.Ready? then th.send.item.depth + 1
    else Level(th)
  }

  /** Below that level the goroutine and the queue stay as they were; a worker's exit changes no level. */
  lemma LevelFrame(env: Env, sh: Shared, th: Thread, a: Action, level: nat)
    requires Guard(env, sh, th, a) && RoleOk(th) && ThreadDepths(env, th) && !a.Cancel?
    requires level < StepLevel(sh, th, a) || a.Exit?
    ensures var th' := Moved(env, sh, th, a);
            && StageAt(level)(th') == StageAt(level)(th) && ObjectsAt(level)(th') == ObjectsAt(level)(th)
            && RulesAt(level)(th') == RulesAt(level)(th) && UnsentAt(level)(th') == UnsentAt(level)(th)
            && QueuedAt(Effect(env, sh, th, a).queue, level) == QueuedAt(sh.queue, level)
  {
    hide Effect;
    HandsFrame(env, sh, th, a);
    QueueFrame(env, sh, th, a);
    if a.Put? { QueuedAppend(sh.queue, th.send.item, level); }
  }

  /** What one goroutine and the queue contribute to a level. */
  function Share(th: Thread, queue: seq<Item>, level: nat): Work {
    Work(StageAt(level)(th) + QUEUED * QueuedAt(queue, level),
         ObjectsAt(level)(th), RulesAt(level)(th), UnsentAt(level)(th))
  }

  /** At that level the goroutine and the queue together come closer to rest, or use up their window. */
  lemma LevelDrops(env: Env, sh: Shared, th: Thread, a: Action)
    requires Guard(env, sh, th, a) && RoleOk(th) && ThreadDepths(env, th) && WindowOk(env, sh.nodes, th)
    requires !a.Cancel? && !a.Exit?
    ensures var th', queue' := Moved(env, sh, th, a), Effect(env, sh, th, a).queue;
            var level := StepLevel(sh, th, a);
            WorkLess(Share(th', queue', level), Share(th, sh.queue, level))
  {
    hide Moved, Effect, Stage;
    HandsFrame(env, sh, th, a);
    QueueFrame(env, sh, th, a);
    StageMove(env, sh, th, a);
    if a.Put? { QueuedAppend(sh.queue, th.send.item, StepLevel(sh, th, a)); }
    if a.Drop? || a.ApplyRule? || a.NextObject? { WindowMove(env, sh, th, a); }
    if a.Admit? { AdmitStays(env, sh, th); }
  }

  lemma AdmitStays(env: Env, sh: Shared, th: Thread)
    requires Guard(env, sh, th, Admit)
    ensures var th' := Moved(env, sh, th, Admit);
            Level(th') == Level(th) && ObjectsLeft(th') == ObjectsLeft(th) && RulesLeft(th') == RulesLeft(th)
  {
  }

  lemma WorkFrame(env: Env, s: State, t: nat, a: Action, level: nat)
    requires Shape(env, s) && DepthsFit(env, s) && Enabled(env, s, t, a) && !a.Cancel?
    requires level < StepLevel(s.sh, s.threads[t], a) || a.Exit?
    ensures WorkAt(Do(env, s, t, a), level) == WorkAt(s, level)
  {
    hide Moved, Effect, Guard, ThreadDepths, StageAt, ObjectsAt, RulesAt, UnsentAt;
    var th := s.threads[t];
    var th' := Moved(env, s.sh, th, a);
    LevelFrame(env, s.sh, th, a, level);
    SumByUpdate(StageAt(level), s.threads, t, th');
    SumByUpdate(ObjectsAt(level), s.threads, t, th');
    SumByUpdate(RulesAt(level), s.threads, t, th');
    SumByUpdate(UnsentAt(level), s.threads, t, th');
  }

  lemma WorkDrops(env: Env, s: State, t: nat, a: Action)
    requires Shape(env, s) && DepthsFit(env, s) && Enabled(env, s, t, a) && !a.Cancel? && !a.Exit?
    ensures var level := StepLevel(s.sh, s.threads[t], a); WorkLess(WorkAt(Do(env, s, t, a), level), WorkAt(s, level))
  {
    hide Moved, Effect, Guard, ThreadDepths, StageAt, ObjectsAt, RulesAt, UnsentAt;
    var th := s.threads[t];
    var th' := Moved(env, s.sh, th, a);
    var level := StepLevel(s.sh, th, a);
    LevelDrops(env, s.sh, th, a);
    SumByUpdate(StageAt(level), s.threads, t, th');
    SumByUpdate(ObjectsAt(level), s.threads, t, th');
    SumByUpdate(RulesAt(level), s.threads, t, th');
    SumByUpdate(UnsentAt(level), s.threads, t, th');
  }

  lemma LevelFits(env: Env, sh: Shared, th: Thread, a: Action)
    requires env.maxDepth >= 0 && Guard(env, sh, th, a) && ThreadDepths(env, th) && Shallow(env, sh.queue)
    ensures StepLevel(sh, th, a) <= env.maxDepth + 1
  {
  }

  lemma ExitIdles(env: Env, s: State, t: nat, a: Action)
    requires Enabled(env, s, t, a) && a.Exit?
    ensures SumBy(Idling, Do(env, s, t, a).threads) < SumBy(Idling, s.threads)
  {
    hide Effect;
    SumByUpdate(Idling, s.threads, t, Moved(env, s.sh, s.threads[t], a));
  }

  /** Every step, by any goroutine, lowers the ranks. */
  lemma RanksFall(env: Env, s: State, t: nat, a: Action)
    requires env.maxDepth >= 0 && Shape(env, s) && DepthsFit(env, s) && Enabled(env, s, t, a)
    ensures LexLess(Ranks(env, Do(env, s, t, a)), Ranks(env, s))
  {
    hide Moved, Effect, Guard, Shape, WorkAt, ThreadDepths;
    var s' := Do(env, s, t, a);
    var ranks, ranks' := Ranks(env, s), Ranks(env, s');
    CancelledFrame(env, s.sh, s.threads[t], a);
    if a.Cancel? {
      assert LessAt(ranks', ranks, 0);
    } else if a.Exit? {
      forall level: nat ensures WorkAt(s', level) == WorkAt(s, level) { WorkFrame(env, s, t, a, level); }
      ExitIdles(env, s, t, a);
      assert LessAt(ranks', ranks, env.maxDepth + 3);
    } else {
      var level := StepLevel(s.sh, s.threads[t], a);
      forall l: nat | l < level ensures WorkAt(s', l) == WorkAt(s, l) { WorkFrame(env, s, t, a, l); }
      WorkDrops(env, s, t, a);
      LevelFits(env, s.sh, s.threads[t], a);
      assert LessAt(ranks', ranks, level + 1);
    }
  }

  lemma NextFalls(env: Env, s: State, s': State)
    requires ValidEnv(env) && env.maxDepth >= 0 && Reachable(env, s) && Next(env, s, s')
    ensures LexLess(Ranks(env, s'), Ranks(env, s))
  {
    hide Ranks, LexLess, Do, Enabled;
    var run :| IsRun(env, run) && run[|run| - 1] == s;
    ShapeAlong(env, run, |run| - 1);
    DepthsAlong(env, run, |run| - 1);
    var t, a :| Enabled(env, s, t, a) && s' == Do(env, s, t, a);
    RanksFall(env, s, t, a);
  }

  // ---- every run ends -------------------------------------------------------------------------------------------

  function RanksOf(env: Env, trace: nat -> State): nat -> seq<Work>
    requires env.maxDepth >= 0
  {
    (i: nat) => Ranks(env, trace(i))
  }

  /** With a depth limit every run stops, under any interleaving, however many queries are derivable. */
  lemma LimitedRunsStop(env: Env, trace: nat -> State)
    requires ValidEnv(env) && env.maxDepth >= 0 && IsTrace(env, trace)
    ensures exists n: nat :: !MovesAt(env, trace, n)
  {
    if forall n: nat :: MovesAt(env, trace, n) {
      var f := RanksOf(env, trace);
      var length: nat := env.maxDepth + 4;
      forall i: nat ensures FallsAt(f, length, i) {
        TraceReachable(env, trace, i);
        assert MovesAt(env, trace, i);
        NextFalls(env, trace(i), trace(i + 1));
      }
      NoInfiniteDescent(f, length);
    }
  }

  /** With a depth limit every traversal returns, with any number of workers, under any scheduler that
      keeps going while some goroutine can move. */
  lemma LimitedAlwaysReturns(env: Env, trace: nat -> State)
    requires ValidEnv(env) && env.maxDepth >= 0 && IsTrace(env, trace) && Eager(env, trace)
    ensures exists n: nat :: HasReturned(trace(n))
  {
    LimitedRunsStop(env, trace);
    var n: nat :| !MovesAt(env, trace, n);
    TraceReachable(env, trace, n);
    if !HasReturned(trace(n)) { NeverStuck(env, trace(n)); }
  }
}

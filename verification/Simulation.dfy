/** How the code's actions, made by one goroutine while the other rests, are steps of the protocol. */
module Simulation {
  import opened Correlation
  import opened Queries
  import opened Protocol

  /** What the program itself keeps of the shared state. */
  datatype Core = Core(
    queue: seq<Item>,
    wg: int,
    seen: set<Query>,
    nodes: map<Class, NodeState>,
    lineQueries: map<LineKey, map<Query, nat>>)

  function CoreOf(sh: Shared): Core { Core(sh.queue, sh.wg, sh.seen.Keys, sh.nodes, sh.lineQueries) }

  /** A reachable state of two goroutines with this core, in which goroutine `t` is at `th` and the
      other one rests: the worker in get, the priming goroutine before its start or in wait. */
  ghost predicate At(env: Env, s: State, core: Core, t: nat, th: Thread) {
    && Reachable(env, s) && CoreOf(s.sh) == core && !s.sh.cancelled && !s.sh.closed
    && |s.threads| == 2 && t < 2 && s.threads[t] == th
    && (t == 0 ==> s.threads[1] == NewThread(env, Idle)) && (t == 1 ==> s.threads[0].pc.Waiting?)
  }

  /** One step of goroutine `t`. */
  lemma Step(env: Env, s: State, core: Core, t: nat, th: Thread, a: Action) returns (s': State)
    requires At(env, s, core, t, th) && Guard(env, s.sh, th, a) && !a.Join? && !a.Close? && !a.Cancel?
    ensures At(env, s', CoreOf(s'.sh), t, Moved(env, s.sh, th, a)) && s'.sh == Effect(env, s.sh, th, a)
  {
    assert Enabled(env, s, t, a);
    s' := Do(env, s, t, a);
    assert Next(env, s, s');
    ReachableStep(env, s, s');
  }

  /** `dedupAndSend` of the next pending item. */
  function Sent(env: Env, core: Core, it: Item): Core {
    if TooDeep(env, it.depth) || it.query in core.seen then core
    else core.(seen := core.seen + {it.query}, wg := core.wg + 1, queue := core.queue + [it])
  }

  lemma AdmitStep(env: Env, s: State, core: Core, t: nat, th: Thread) returns (s': State)
    requires At(env, s, core, t, th) && CanSend(th) && !TooDeep(env, th.pending[0].depth)
    requires th.pending[0].query !in core.seen
    ensures At(env, s', core.(seen := core.seen + {th.pending[0].query}), t,
               th.(pending := th.pending[1..], send := Admitted(th.pending[0])))
  {
    s' := Step(env, s, core, t, th, Admit);
  }

  lemma CountSendStep(env: Env, s: State, core: Core, t: nat, th: Thread) returns (s': State)
    requires At(env, s, core, t, th) && Sending(th) && th.send.Admitted?
    ensures At(env, s', core.(wg := core.wg + 1), t, th.(send := Counted(th.send.item)))
  {
    s' := Step(env, s, core, t, th, CountSend);
  }

  lemma PutStep(env: Env, s: State, core: Core, t: nat, th: Thread) returns (s': State)
    requires At(env, s, core, t, th) && Sending(th) && th.send.Counted?
    ensures At(env, s', core.(queue := core.queue + [th.send.item]), t, th.(send := Ready))
  {
    s' := Step(env, s, core, t, th, Put);
  }

  lemma DropStep(env: Env, s: State, core: Core, t: nat, th: Thread) returns (s': State)
    requires At(env, s, core, t, th) && CanSend(th)
    requires TooDeep(env, th.pending[0].depth) || th.pending[0].query in core.seen
    ensures At(env, s', core, t, th.(pending := th.pending[1..]))
  {
    s' := Step(env, s, core, t, th, Drop);
  }

  lemma SendStep(env: Env, s: State, core: Core, t: nat, th: Thread) returns (s': State)
    requires At(env, s, core, t, th) && CanSend(th)
    ensures At(env, s', Sent(env, core, th.pending[0]), t, th.(pending := th.pending[1..]))
  {
    var it := th.pending[0];
    if TooDeep(env, it.depth) || it.query in core.seen {
      s' := DropStep(env, s, core, t, th);
    } else {
      var core1, th1 := core.(seen := core.seen + {it.query}), th.(pending := th.pending[1..], send := Admitted(it));
      s' := AdmitStep(env, s, core, t, th);
      s' := CountSendStep(env, s', core1, t, th1);
      s' := PutStep(env, s', core1.(wg := core.wg + 1), t, th1.(send := Counted(it)));
    }
  }

  lemma ApplyRuleStep(env: Env, s: State, core: Core, t: nat, th: Thread, r: Rule) returns (s': State)
    requires At(env, s, core, t, th) && BetweenRules(th) && r in th.todo
    ensures At(env, s', core, t, th.(todo := th.todo - {r},
                                     pending := Sends(env, th.cls, r, th.depth, env.apply(r, th.objects[th.at]))))
  {
    s' := Step(env, s, core, t, th, ApplyRule(r));
  }

  lemma NextObjectStep(env: Env, s: State, core: Core, t: nat, th: Thread) returns (s': State)
    requires At(env, s, core, t, th) && BetweenRules(th) && th.todo == {}
    ensures At(env, s', core, t, th.(at := th.at + 1, todo := RulesFor(env, th.cls)))
  {
    s' := Step(env, s, core, t, th, NextObject);
  }

  /** The node table after class `c` is claimed to its end. */
  function ClaimedNodes(nodes: map<Class, NodeState>, c: Class): map<Class, NodeState>
    requires c in nodes
  {
    nodes[c := nodes[c].(processed := |nodes[c].result|)]
  }

  /** The goroutine with a window of class `c` to apply rules to. */
  function Applier(env: Env, th: Thread, n: NodeState): Thread {
    th.(pc := Applying, objects := n.result, at := n.processed, todo := RulesFor(env, th.cls))
  }

  lemma ClaimStep(env: Env, s: State, core: Core, t: nat, th: Thread) returns (s': State)
    requires At(env, s, core, t, th) && th.pc.Claiming? && th.cls in core.nodes
    ensures var n := core.nodes[th.cls];
            At(env, s', core.(nodes := ClaimedNodes(core.nodes, th.cls)), t,
               if n.processed >= |n.result| then th.(pc := Finishing) else Applier(env, th, n))
  {
    s' := Step(env, s, core, t, th, Claim);
  }

  lemma EndApplyStep(env: Env, s: State, core: Core, t: nat, th: Thread) returns (s': State)
    requires At(env, s, core, t, th) && th.pc.Applying? && th.send.Ready? && th.pending == [] && th.at == |th.objects|
    ensures At(env, s', core, t, th.(pc := Finishing))
  {
    s' := Step(env, s, core, t, th, EndApply);
  }

  lemma DoneStep(env: Env, s: State, core: Core, t: nat, th: Thread) returns (s': State)
    requires At(env, s, core, t, th) && th.pc.Finishing?
    ensures At(env, s', core.(wg := core.wg - 1), t,
               if th.job.Some? then th.(pc := Idle, job := None) else th.(pc := Waiting))
  {
    s' := Step(env, s, core, t, th, Done);
  }

  /** The table after the results of an item are recorded at its node. */
  function RecordedNodes(env: Env, nodes: map<Class, NodeState>, it: Item): map<Class, NodeState>
    requires it.query.cls in nodes
  {
    var c := it.query.cls;
    var n := nodes[c];
    AddAllAppends(env, c, n.result, env.get(it.query));
    var result := AddAll(env, c, n.result, env.get(it.query));
    nodes[c := n.(result := result, queries := SetCount(n.queries, it.query, |result| - |n.result|))]
  }

  lemma RecordStep(env: Env, s: State, core: Core, t: nat, th: Thread, it: Item, count: nat) returns (s': State)
    requires At(env, s, core, t, th) && th.pc.Passed? && th.job == Some(it) && it.query.cls in core.nodes
    requires var list := core.nodes[it.query.cls].result;
             count == |AddAll(env, it.query.cls, list, env.get(it.query))| - |list|
    ensures At(env, s', core.(nodes := RecordedNodes(env, core.nodes, it)), t,
               th.(pc := if it.line.Some? then Recorded else Claiming, count := count, cls := it.query.cls,
                   depth := it.depth + 1))
  {
    s' := Step(env, s, core, t, th, Record);
  }

  lemma SetLineStep(env: Env, s: State, core: Core, t: nat, th: Thread, it: Item) returns (s': State)
    requires At(env, s, core, t, th) && th.pc.Recorded? && th.job == Some(it) && it.line.Some?
    requires it.line.value in core.lineQueries
    ensures var k := it.line.value;
            var lineQueries := core.lineQueries[k := SetCount(core.lineQueries[k], it.query, th.count)];
            At(env, s', core.(lineQueries := lineQueries), t, th.(pc := Claiming))
  {
    s' := Step(env, s, core, t, th, SetLine);
  }

  /** Nothing is left to send. */
  predicate Clean(th: Thread) { th.send.Ready? && th.pending == [] }

  /** The worker in get, the priming goroutine in wait. */
  ghost predicate WorkerIdle(env: Env, s: State, core: Core, th: Thread) {
    At(env, s, core, 1, th) && th.pc.Idle? && th.job.None? && Clean(th)
  }

  lemma Beginning(env: Env) returns (s: State)
    ensures At(env, s, CoreOf(s.sh), 0, NewThread(env, Unstarted)) && s == Init(env, 1)
  {
    s := Init(env, 1);
    assert IsRun(env, [s]);
  }

  lemma SentinelStep(env: Env, s: State, core: Core, th: Thread) returns (s': State)
    requires At(env, s, core, 0, th) && th.pc.Unstarted?
    ensures At(env, s', core.(wg := core.wg + 1), 0, th.(pc := Primed))
  {
    s' := Step(env, s, core, 0, th, AddSentinel);
  }

  lemma AppendStartStep(env: Env, s: State, core: Core, th: Thread) returns (s': State)
    requires At(env, s, core, 0, th) && th.pc.Primed? && env.startClass in core.nodes
    ensures var n := core.nodes[env.startClass];
            var n' := n.(result := AddAll(env, env.startClass, n.result, env.startObjects));
            At(env, s', core.(nodes := core.nodes[env.startClass := n']), 0,
               th.(pc := Priming, pending := StartItems(env.startQueries)))
  {
    s' := Step(env, s, core, 0, th, AppendStart);
  }

  lemma EndPrimingStep(env: Env, s: State, core: Core, th: Thread) returns (s': State)
    requires At(env, s, core, 0, th) && th.pc.Priming? && Clean(th)
    ensures At(env, s', core, 0, th.(pc := Claiming, cls := env.startClass, depth := 1))
  {
    s' := Step(env, s, core, 0, th, EndPriming);
  }

  lemma GetStep(env: Env, s: State, core: Core, th: Thread) returns (s': State)
    requires WorkerIdle(env, s, core, th) && core.queue != []
    ensures At(env, s', core.(queue := core.queue[1..]), 1, th.(pc := Holding, job := Some(core.queue[0])))
  {
    s' := Step(env, s, core, 1, th, Get);
  }

  lemma CheckStep(env: Env, s: State, core: Core, th: Thread, it: Item) returns (s': State)
    requires At(env, s, core, 1, th) && th.pc.Holding? && th.job == Some(it)
    ensures At(env, s', core, 1, th.(pc := if UnderLimit(env, core.nodes, it) then Passed else Finishing))
  {
    if UnderLimit(env, core.nodes, it) {
      s' := Step(env, s, core, 1, th, Pass);
    } else {
      s' := Step(env, s, core, 1, th, Abandon);
    }
  }

  /** The worker takes over when the priming goroutine waits. */
  lemma HandOver(env: Env, s: State, core: Core, th: Thread)
    requires At(env, s, core, 0, th) && th.pc.Waiting?
    ensures |s.threads| == 2 && WorkerIdle(env, s, core, s.threads[1])
  {
  }

  lemma StepOf(env: Env, s: State, t: nat, a: Action) returns (s': State)
    requires Reachable(env, s) && Enabled(env, s, t, a)
    ensures Reachable(env, s') && s' == Do(env, s, t, a)
  {
    s' := Do(env, s, t, a);
    assert Next(env, s, s');
    ReachableStep(env, s, s');
  }

  /** With nothing left to do, the shutdown runs to its end. */
  lemma Finish(env: Env, s: State, core: Core, th: Thread) returns (s': State)
    requires WorkerIdle(env, s, core, th) && core.wg == 0 && core.queue == []
    ensures Reachable(env, s') && CoreOf(s'.sh) == core && !s'.sh.cancelled && s'.sh.closed && |s'.threads| == 2
    ensures s'.threads[0].pc.Returned?
  {
    var s1 := StepOf(env, s, 0, WaitDone);
    var s2 := StepOf(env, s1, 0, Close);
    var s3 := StepOf(env, s2, 1, Exit);
    s' := StepOf(env, s3, 0, Join);
  }
}

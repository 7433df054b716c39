/** The concurrent traversal as a transition system: any number of workers and the priming
    goroutine, one step per critical section, any interleaving. */
module Protocol {
  import opened Correlation
  import opened Queries

  /** A query to run, the line whose rule produced it (None for a start query), and its depth. */
  datatype Item = Item(query: Query, line: Option<LineKey>, depth: nat)

  /** The mutable state of one class: its objects, the result count of each query run for it, and
      how many of its objects have been claimed for rule application. */
  datatype NodeState = NodeState(result: seq<Object>, queries: map<Query, nat>, processed: nat)

  /** Progress of one item through `dedupAndSend`. */
  datatype Send =
    | Ready
    | Admitted(item: Item)  // entered in seen; about to call wg.Add
    | Counted(item: Item)   // wg.Add done; about to put

  /** Where a goroutine is. */
  datatype Pc =
    // worker
    | Idle       // in get
    | Exited
    | Holding    // about to look up the node and check the query limit
    | Passed     // about to run the query and add its results
    | Recorded   // about to set the line's count
    // priming goroutine
    | Unstarted
    | Primed     // sentinel added; about to append the start objects
    | Priming    // sending the start queries
    | Waiting    // in wg.Wait
    | Closing    // about to close the queue
    | Joining    // waiting for the workers to exit
    | Returned
    // either
    | Claiming   // in applyRules, about to claim a window of the result list
    | Applying   // in applyRules, applying rules and sending the queries they yield
    | Finishing  // about to call wg.Done

  /** A goroutine and its local variables. `job` is the item whose WaitGroup token it holds, None in
      the priming goroutine; `objects[at..]` and `todo` are what `applyRules` has left to do, and
      `pending` the items it has yet to send. */
  datatype Thread = Thread(
    pc: Pc,
    job: Option<Item>,
    count: nat,
    cls: Class,
    depth: nat,
    objects: seq<Object>,
    at: nat,
    todo: set<Rule>,
    pending: seq<Item>,
    send: Send)

  /** One application of a rule to the object at a position of a class's result list. */
  datatype Application = Application(cls: Class, index: nat, rule: Rule)

  /** What the goroutines share. `seen` maps each query to the item that was admitted for it: the
      program keeps only the keys. The last three fields are history: queries whose item has been
      finished, rule applications made, and classes in the order in which they first had results. */
  datatype Shared = Shared(
    queue: seq<Item>,
    closed: bool,
    wg: int,
    cancelled: bool,
    seen: map<Query, Item>,
    nodes: map<Class, NodeState>,
    lineQueries: map<LineKey, map<Query, nat>>,
    finished: multiset<Query>,
    applied: multiset<Application>,
    born: seq<Class>)

  /** `threads[0]` is the priming goroutine, the others are the workers. */
  datatype State = State(sh: Shared, threads: seq<Thread>)

  function NewThread(env: Env, pc: Pc): Thread { Thread(pc, None, 0, env.startClass, 0, [], 0, {}, [], Ready) }

  /** `newTraverser`, with the workers launched and blocked on the empty queue. */
  function Init(env: Env, workers: nat): State {
    State(
      Shared([], false, 0, false, map[],
             map c | c in NodeClasses(env) :: NodeState([], map[], 0),
             map k | k in env.lines :: map[],
             multiset{}, multiset{}, []),
      [NewThread(env, Unstarted)] + seq(workers, i => NewThread(env, Idle)))
  }

  /** One atomic step of one goroutine; `Cancel` is the context being cancelled. */
  datatype Action =
    | Cancel
    | AddSentinel | AppendStart | EndPriming | WaitDone | Close | Join
    | Drop | Admit | CountSend | Put
    | Get | Exit | Abandon | Pass | Record | SetLine
    | Claim | ApplyRule(rule: Rule) | NextObject | EndApply
    | Done

  predicate Sending(th: Thread) { th.pc.Priming? || th.pc.Applying? }

  /** The thread may take up its next pending item. */
  predicate CanSend(th: Thread) { Sending(th) && th.send.Ready? && th.pending != [] }

  /** The thread is between rules, with nothing left to send. */
  predicate BetweenRules(th: Thread) { th.pc.Applying? && th.send.Ready? && th.pending == [] && th.at < |th.objects| }

  predicate TooDeep(env: Env, depth: nat) { env.maxDepth >= 0 && depth > env.maxDepth }

  /** The query has a node, and the node is not over the query limit. */
  predicate UnderLimit(env: Env, nodes: map<Class, NodeState>, it: Item) {
    it.query.cls in nodes && !(env.limit > 0 && |nodes[it.query.cls].queries| > env.limit)
  }

  /** The items `applyRules` sends for the queries of one rule application. */
  function Sends(env: Env, c: Class, r: Rule, depth: nat, queries: seq<Query>): seq<Item> {
    if queries == [] then []
    else
      var key := LineKey(c, r, queries[0].cls);
      (if key in env.lines then [Item(queries[0], Some(key), depth)] else [])
      + Sends(env, c, r, depth, queries[1..])
  }

  function StartItems(queries: seq<Query>): (items: seq<Item>) {
    seq(|queries|, i requires 0 <= i < |queries| => Item(queries[i], None, 0))
  }

  /** When a thread at `th` may take step `a`. Steps that look at the context may see it cancelled
      or, if they looked earlier, not. */
  predicate Guard(env: Env, sh: Shared, th: Thread, a: Action) {
    match a
    case Cancel => !sh.cancelled
    case AddSentinel => th.pc.Unstarted?
    case AppendStart => th.pc.Primed? && env.startClass in sh.nodes
    case EndPriming => th.pc.Priming? && th.send.Ready? && th.pending == []
    case WaitDone => th.pc.Waiting? && sh.wg == 0
    case Close => th.pc.Closing?
    case Join => th.pc.Joining?
    case Drop => CanSend(th) && (TooDeep(env, th.pending[0].depth) || sh.cancelled || th.pending[0].query in sh.seen)
    case Admit => CanSend(th) && !TooDeep(env, th.pending[0].depth) && th.pending[0].query !in sh.seen
    case CountSend => Sending(th) && th.send.Admitted?
    case Put => Sending(th) && th.send.Counted?
    case Get => th.pc.Idle? && sh.queue != []
    case Exit => th.pc.Idle? && sh.queue == [] && sh.closed
    case Abandon => th.pc.Holding? && th.job.Some? && (sh.cancelled || !UnderLimit(env, sh.nodes, th.job.value))
    case Pass => th.pc.Holding? && th.job.Some? && UnderLimit(env, sh.nodes, th.job.value)
    case Record => th.pc.Passed? && th.job.Some? && th.job.value.query.cls in sh.nodes
    case SetLine =>
      th.pc.Recorded? && th.job.Some? && th.job.value.line.Some? && th.job.value.line.value in sh.lineQueries
    case Claim => th.pc.Claiming? && th.cls in sh.nodes
    case ApplyRule(r) => BetweenRules(th) && r in th.todo
    case NextObject => BetweenRules(th) && th.todo == {}
    case EndApply =>
      || (th.pc.Applying? && th.send.Ready? && th.pending == [] && th.at == |th.objects|)
      || (BetweenRules(th) && th.todo != {} && sh.cancelled)
    case Done => th.pc.Finishing?
  }

  /** The result list of the node for the query of `it`, after the results of the query are added. */
  function ResultsAfter(env: Env, sh: Shared, it: Item): seq<Object>
    requires it.query.cls in sh.nodes
  {
    AddAll(env, it.query.cls, sh.nodes[it.query.cls].result, env.get(it.query))
  }

  /** How many of the results of the query of `it` are new. */
  function NewResults(env: Env, sh: Shared, it: Item): nat
    requires it.query.cls in sh.nodes
  {
    AddAllAppends(env, it.query.cls, sh.nodes[it.query.cls].result, env.get(it.query));
    |ResultsAfter(env, sh, it)| - |sh.nodes[it.query.cls].result|
  }

  /** The items a goroutine has to send after applying the rule to its current object. */
  function ItemsOf(env: Env, th: Thread, r: Rule): seq<Item>
    requires th.at < |th.objects|
  {
    Sends(env, th.cls, r, th.depth, env.apply(r, th.objects[th.at]))
  }

  /** Where the thread is after the step. */
  function Moved(env: Env, sh: Shared, th: Thread, a: Action): Thread
    requires Guard(env, sh, th, a)
  {
    match a
    case Cancel => th
    case AddSentinel => th.(pc := Primed)
    case AppendStart => th.(pc := Priming, pending := StartItems(env.startQueries))
    case EndPriming => th.(pc := Claiming, cls := env.startClass, depth := 1)
    case WaitDone => th.(pc := Closing)
    case Close => th.(pc := Joining)
    case Join => th.(pc := Returned)
    case Drop => th.(pending := th.pending[1..])
    case Admit => th.(pending := th.pending[1..], send := Admitted(th.pending[0]))
    case CountSend => th.(send := Counted(th.send.item))
    case Put => th.(send := Ready)
    case Get => th.(pc := Holding, job := Some(sh.queue[0]))
    case Exit => th.(pc := Exited)
    case Abandon => th.(pc := Finishing)
    case Pass => th.(pc := Passed)
    case Record =>
      var it := th.job.value;
      th.(pc := if it.line.Some? then Recorded else Claiming,
          count := NewResults(env, sh, it), cls := it.query.cls, depth := it.depth + 1)
    case SetLine => th.(pc := Claiming)
    case Claim =>
      var n := sh.nodes[th.cls];
      if n.processed >= |n.result| then th.(pc := Finishing)
      else th.(pc := Applying, objects := n.result, at := n.processed, todo := RulesFor(env, th.cls))
    case ApplyRule(r) => th.(todo := th.todo - {r}, pending := ItemsOf(env, th, r))
    case NextObject => th.(at := th.at + 1, todo := RulesFor(env, th.cls))
    case EndApply => th.(pc := Finishing)
    case Done => if th.job.Some? then th.(pc := Idle, job := None) else th.(pc := Waiting)
  }

  /** The shared state after the node of class `c` becomes `n`. */
  function SetNode(sh: Shared, c: Class, n: NodeState): Shared
    requires c in sh.nodes
  {
    sh.(nodes := sh.nodes[c := n],
        born := if sh.nodes[c].result == [] && n.result != [] then sh.born + [c] else sh.born)
  }

  /** The shared state after the step. */
  function Effect(env: Env, sh: Shared, th: Thread, a: Action): Shared
    requires Guard(env, sh, th, a)
  {
    match a
    case Cancel => sh.(cancelled := true)
    case AddSentinel => sh.(wg := sh.wg + 1)
    case AppendStart =>
      var n := sh.nodes[env.startClass];
      SetNode(sh, env.startClass, n.(result := AddAll(env, env.startClass, n.result, env.startObjects)))
    case Close => sh.(closed := true)
    case Admit => sh.(seen := sh.seen[th.pending[0].query := th.pending[0]])
    case CountSend => sh.(wg := sh.wg + 1)
    case Put => sh.(queue := sh.queue + [th.send.item])
    case Get => sh.(queue := sh.queue[1..])
    case Record =>
      var it := th.job.value;
      var n := sh.nodes[it.query.cls];
      SetNode(sh, it.query.cls,
              n.(result := ResultsAfter(env, sh, it),
                 queries := SetCount(n.queries, it.query, NewResults(env, sh, it))))
    case SetLine =>
      var k := th.job.value.line.value;
      sh.(lineQueries := sh.lineQueries[k := SetCount(sh.lineQueries[k], th.job.value.query, th.count)])
    case Claim =>
      var n := sh.nodes[th.cls];
      sh.(nodes := sh.nodes[th.cls := n.(processed := |n.result|)])
    case ApplyRule(r) => sh.(applied := sh.applied + multiset{Application(th.cls, th.at, r)})
    case Done =>
      sh.(wg := sh.wg - 1, finished := if th.job.Some? then sh.finished + multiset{th.job.value.query} else sh.finished)
    case _ => sh
  }

  predicate Enabled(env: Env, s: State, t: nat, a: Action) {
    && t < |s.threads|
    && Guard(env, s.sh, s.threads[t], a)
    && (a.Join? ==> forall i :: 0 < i < |s.threads| ==> s.threads[i].pc.Exited?)
  }

  function Do(env: Env, s: State, t: nat, a: Action): State
    requires Enabled(env, s, t, a)
  {
    State(Effect(env, s.sh, s.threads[t], a), s.threads[t := Moved(env, s.sh, s.threads[t], a)])
  }

  // ---- runs --------------------------------------------------------------------------------

  ghost predicate Next(env: Env, s: State, s': State) {
    exists t, a :: Enabled(env, s, t, a) && s' == Do(env, s, t, a)
  }

  /** A traversal about to start, with at least one worker. */
  ghost predicate IsInit(env: Env, s: State) { exists workers: nat :: workers >= 1 && s == Init(env, workers) }

  /** The states of a run, in order. */
  ghost predicate IsRun(env: Env, run: seq<State>) {
    && run != [] && IsInit(env, run[0])
    && forall i :: 0 < i < |run| ==> Next(env, run[i - 1], run[i])
  }

  ghost predicate Reachable(env: Env, s: State) { exists run :: IsRun(env, run) && run[|run| - 1] == s }

  lemma ReachableStep(env: Env, s: State, s': State)
    requires Reachable(env, s) && Next(env, s, s')
    ensures Reachable(env, s')
  {
    var run :| IsRun(env, run) && run[|run| - 1] == s;
    assert IsRun(env, run + [s']);
  }

  /** The step of a run that led to state `i`. */
  lemma StepTo(env: Env, run: seq<State>, i: nat) returns (t: nat, a: Action)
    requires IsRun(env, run) && 0 < i < |run|
    ensures Enabled(env, run[i - 1], t, a) && run[i] == Do(env, run[i - 1], t, a)
  {
    assert Next(env, run[i - 1], run[i]);
    t, a :| Enabled(env, run[i - 1], t, a) && run[i] == Do(env, run[i - 1], t, a);
  }

  // ---- well-formedness ----------------------------------------------------------------------

  predicate IsMain(th: Thread) {
    && th.job.None?
    && !(th.pc.Idle? || th.pc.Exited? || th.pc.Holding? || th.pc.Passed? || th.pc.Recorded?)
  }

  predicate IsWorker(th: Thread) {
    && (th.pc.Idle? || th.pc.Exited? || th.pc.Holding? || th.pc.Passed? || th.pc.Recorded?
        || th.pc.Claiming? || th.pc.Applying? || th.pc.Finishing?)
    && (th.job.None? <==> th.pc.Idle? || th.pc.Exited?)
  }

  /** A start query, or a query that arrived along a line in scope to its own class. */
  predicate ItemOk(env: Env, it: Item) {
    match it.line
    case None => it.query in env.startQueries
    case Some(k) => k in env.lines && k.goal == it.query.cls
  }

  ghost predicate PendingOk(env: Env, pending: seq<Item>) { forall it :: it in pending ==> ItemOk(env, it) }

  /** Every item the thread holds or is about to send is well-formed. */
  ghost predicate ItemsOk(env: Env, th: Thread) {
    && (th.job.Some? ==> ItemOk(env, th.job.value))
    && (th.send.Ready? || ItemOk(env, th.send.item))
    && PendingOk(env, th.pending)
  }

  /** The goroutine has a class and a depth to apply rules for. */
  predicate InRules(pc: Pc) { pc.Recorded? || pc.Claiming? || pc.Applying? }

  /** The thread's local variables fit its position. */
  predicate RoleOk(th: Thread) {
    && (IsMain(th) || IsWorker(th))
    && (th.send.Ready? || Sending(th))
    && (th.pending != [] ==> Sending(th))
    && (th.pc.Recorded? ==> th.job.Some? && th.job.value.line.Some?)
    && (InRules(th.pc) ==>
          th.depth >= 1 && (th.job.Some? ==> th.cls == th.job.value.query.cls))
  }

  /** What the thread captured under the node's lock still stands at the front of its result list. */
  ghost predicate WindowOk(env: Env, nodes: map<Class, NodeState>, th: Thread) {
    && (InRules(th.pc) ==> th.cls in nodes)
    && (th.pc.Applying? ==>
          && th.objects <= nodes[th.cls].result
          && th.at <= |th.objects| <= nodes[th.cls].processed
          && th.todo <= RulesFor(env, th.cls))
  }

  ghost predicate ThreadOk(env: Env, nodes: map<Class, NodeState>, th: Thread) {
    ItemsOk(env, th) && RoleOk(th) && WindowOk(env, nodes, th)
  }

  ghost predicate SharedOk(env: Env, sh: Shared) {
    && sh.nodes.Keys == NodeClasses(env)
    && sh.lineQueries.Keys == env.lines.Keys
    && (forall c :: c in sh.nodes ==> sh.nodes[c].processed <= |sh.nodes[c].result|)
    && PendingOk(env, sh.queue)
  }

  ghost predicate Shape(env: Env, s: State) {
    && |s.threads| >= 2
    && IsMain(s.threads[0])
    && (forall i :: 0 < i < |s.threads| ==> IsWorker(s.threads[i]))
    && SharedOk(env, s.sh)
    && (forall i :: 0 <= i < |s.threads| ==> ThreadOk(env, s.sh.nodes, s.threads[i]))
  }

  /** Along any step, node lists only grow. */
  ghost predicate Grows(nodes: map<Class, NodeState>, nodes': map<Class, NodeState>) {
    && nodes'.Keys == nodes.Keys
    && forall c :: c in nodes ==> nodes[c].result <= nodes'[c].result && nodes[c].processed <= nodes'[c].processed
  }

  lemma SendsOk(env: Env, c: Class, r: Rule, depth: nat, queries: seq<Query>)
    ensures forall it :: it in Sends(env, c, r, depth, queries) ==>
              it.line == Some(LineKey(c, r, it.query.cls)) && LineKey(c, r, it.query.cls) in env.lines
              && it.depth == depth && it.query in queries
  {
  }

  /** Which steps change what a goroutine holds, sends and has left to send, and how. */
  lemma HandsFrame(env: Env, sh: Shared, th: Thread, a: Action)
    requires Guard(env, sh, th, a)
    ensures var th' := Moved(env, sh, th, a);
            && th'.job == (if a.Get? then Some(sh.queue[0]) else if a.Done? then None else th.job)
            && th'.send == (if a.Admit? then Admitted(th.pending[0])
                            else if a.CountSend? then Counted(th.send.item) else if a.Put? then Ready else th.send)
            && th'.pending == (if a.AppendStart? then StartItems(env.startQueries)
                               else if a.Drop? || a.Admit? then th.pending[1..]
                               else if a.ApplyRule? then ItemsOf(env, th, a.rule) else th.pending)
  {
    hide Effect;
  }

  /** Which steps set the class and depth that a goroutine applies rules for. */
  lemma RulesFrame(env: Env, sh: Shared, th: Thread, a: Action)
    requires Guard(env, sh, th, a) && RoleOk(th)
    ensures var th' := Moved(env, sh, th, a);
            InRules(th'.pc) ==>
              && (a.EndPriming? ==> th'.cls == env.startClass && th'.depth == 1)
              && (a.Record? ==> th'.cls == th.job.value.query.cls && th'.depth == th.job.value.depth + 1)
              && (!a.EndPriming? && !a.Record? ==> InRules(th.pc) && th'.cls == th.cls && th'.depth == th.depth)
  {
    hide Effect;
  }

  /** Only adding objects and claiming them change the node table. */
  lemma NodesFrame(env: Env, sh: Shared, th: Thread, a: Action)
    requires Guard(env, sh, th, a)
    ensures !a.AppendStart? && !a.Record? && !a.Claim? ==> Effect(env, sh, th, a).nodes == sh.nodes
  {
  }

  /** Adding objects to a node. */
  lemma ResultsGrow(env: Env, nodes: map<Class, NodeState>, c: Class, objects: seq<Object>, n: NodeState)
    requires c in nodes && n.result == AddAll(env, c, nodes[c].result, objects) && n.processed == nodes[c].processed
    ensures Grows(nodes, nodes[c := n])
  {
    AddAllAppends(env, c, nodes[c].result, objects);
  }

  lemma StepGrows(env: Env, sh: Shared, th: Thread, a: Action)
    requires SharedOk(env, sh) && Guard(env, sh, th, a)
    ensures Grows(sh.nodes, Effect(env, sh, th, a).nodes)
  {
    hide Moved, AddAll, SetCount, NewResults, PendingOk, NodeClasses;
    if a.AppendStart? {
      var c := env.startClass;
      ResultsGrow(env, sh.nodes, c, env.startObjects, Effect(env, sh, th, a).nodes[c]);
    } else if a.Record? {
      var q := th.job.value.query;
      ResultsGrow(env, sh.nodes, q.cls, env.get(q), Effect(env, sh, th, a).nodes[q.cls]);
    } else if !a.Claim? {
      hide Effect, Guard;
      NodesFrame(env, sh, th, a);
    }
  }

  lemma CancelledFrame(env: Env, sh: Shared, th: Thread, a: Action)
    requires Guard(env, sh, th, a)
    ensures Effect(env, sh, th, a).cancelled == (sh.cancelled || a.Cancel?)
    ensures a.Cancel? ==> !sh.cancelled
  {
    hide Moved;
  }

  lemma SeenFrame(env: Env, sh: Shared, th: Thread, a: Action)
    requires Guard(env, sh, th, a)
    ensures if a.Admit? then Effect(env, sh, th, a).seen == sh.seen[th.pending[0].query := th.pending[0]]
            else Effect(env, sh, th, a).seen == sh.seen
  {
    hide Moved, Guard, SetCount, ResultsAfter, NewResults;
  }

  lemma LinesKept(env: Env, sh: Shared, th: Thread, a: Action)
    requires Guard(env, sh, th, a) && !a.SetLine?
    ensures Effect(env, sh, th, a).lineQueries == sh.lineQueries
  {
    hide Moved, Guard, SetCount, ResultsAfter, NewResults, AddAll;
    match a
    case AppendStart =>
    case Record =>
    case Claim =>
    case _ =>
  }

  lemma LinesFrame(env: Env, sh: Shared, th: Thread, a: Action)
    requires Guard(env, sh, th, a)
    ensures if a.SetLine? then
              var k := th.job.value.line.value;
              Effect(env, sh, th, a).lineQueries
              == sh.lineQueries[k := SetCount(sh.lineQueries[k], th.job.value.query, th.count)]
            else Effect(env, sh, th, a).lineQueries == sh.lineQueries
  {
    hide Moved, Guard;
    if !a.SetLine? {
      hide Effect;
      LinesKept(env, sh, th, a);
    }
  }

  lemma QueueFrame(env: Env, sh: Shared, th: Thread, a: Action)
    requires Guard(env, sh, th, a)
    ensures Effect(env, sh, th, a).queue ==
            if a.Put? then sh.queue + [th.send.item] else if a.Get? then sh.queue[1..] else sh.queue
  {
    hide Moved, Guard;
  }

  lemma ItemsStep(env: Env, sh: Shared, th: Thread, a: Action)
    requires PendingOk(env, sh.queue) && ItemsOk(env, th) && Guard(env, sh, th, a)
    ensures ItemsOk(env, Moved(env, sh, th, a)) && PendingOk(env, Effect(env, sh, th, a).queue)
  {
    hide Moved, Effect;
    HandsFrame(env, sh, th, a);
    QueueFrame(env, sh, th, a);
    if a.ApplyRule? { SendsOk(env, th.cls, a.rule, th.depth, env.apply(a.rule, th.objects[th.at])); }
  }

  lemma RoleStep(env: Env, sh: Shared, th: Thread, a: Action)
    requires RoleOk(th) && Guard(env, sh, th, a)
    ensures RoleOk(Moved(env, sh, th, a))
    ensures IsMain(th) ==> IsMain(Moved(env, sh, th, a))
    ensures IsWorker(th) ==> IsWorker(Moved(env, sh, th, a))
  {
    hide Effect;
  }

  /** Only a claim makes a new window. */
  lemma WindowKept(env: Env, sh: Shared, th: Thread, a: Action)
    requires SharedOk(env, sh) && WindowOk(env, sh.nodes, th) && Guard(env, sh, th, a) && !a.Claim?
    ensures WindowOk(env, sh.nodes, Moved(env, sh, th, a))
  {
    hide Effect, PendingOk, RulesFor, Sends;
  }

  lemma WindowStep(env: Env, sh: Shared, th: Thread, a: Action)
    requires SharedOk(env, sh) && WindowOk(env, sh.nodes, th) && Guard(env, sh, th, a)
    ensures WindowOk(env, Effect(env, sh, th, a).nodes, Moved(env, sh, th, a))
  {
    if !a.Claim? {
      hide Moved, Effect, Guard;
      WindowKept(env, sh, th, a);
      StepGrows(env, sh, th, a);
    }
  }

  lemma CursorsStep(env: Env, sh: Shared, th: Thread, a: Action)
    requires SharedOk(env, sh) && Guard(env, sh, th, a)
    ensures var nodes := Effect(env, sh, th, a).nodes;
            forall c :: c in nodes ==> nodes[c].processed <= |nodes[c].result|
  {
    hide Moved;
    StepGrows(env, sh, th, a);
    NodesFrame(env, sh, th, a);
  }

  lemma SharedStep(env: Env, sh: Shared, th: Thread, a: Action)
    requires SharedOk(env, sh) && ThreadOk(env, sh.nodes, th) && Guard(env, sh, th, a)
    ensures SharedOk(env, Effect(env, sh, th, a))
  {
    hide Moved, Effect;
    StepGrows(env, sh, th, a);
    CursorsStep(env, sh, th, a);
    LinesFrame(env, sh, th, a);
    ItemsStep(env, sh, th, a);
  }

  lemma OthersOk(env: Env, nodes: map<Class, NodeState>, nodes': map<Class, NodeState>, th: Thread)
    requires ThreadOk(env, nodes, th) && Grows(nodes, nodes')
    ensures ThreadOk(env, nodes', th)
  {
  }

  lemma ShapeStep(env: Env, s: State, t: nat, a: Action)
    requires ValidEnv(env) && Shape(env, s) && Enabled(env, s, t, a)
    ensures Shape(env, Do(env, s, t, a))
  {
    hide Moved, Effect, Guard;
    var s' := Do(env, s, t, a);
    var th := s.threads[t];
    StepGrows(env, s.sh, th, a);
    ItemsStep(env, s.sh, th, a);
    RoleStep(env, s.sh, th, a);
    WindowStep(env, s.sh, th, a);
    SharedStep(env, s.sh, th, a);
    forall i | 0 <= i < |s'.threads| ensures ThreadOk(env, s'.sh.nodes, s'.threads[i]) {
      OthersOk(env, s.sh.nodes, s'.sh.nodes, s.threads[i]);
    }
  }

  lemma ShapeInit(env: Env, s: State)
    requires IsInit(env, s)
    ensures Shape(env, s)
  {
  }

  /** In every reachable state, thread roles, items, captured slices and node tables are in order. */
  lemma {:induction false} ShapeAlong(env: Env, run: seq<State>, i: nat)
    requires ValidEnv(env) && IsRun(env, run) && i < |run|
    ensures Shape(env, run[i])
    decreases i
  {
    hide Shape;
    if i == 0 {
      ShapeInit(env, run[0]);
    } else {
      var t, a := StepTo(env, run, i);
      ShapeAlong(env, run, i - 1);
      ShapeStep(env, run[i - 1], t, a);
    }
  }
}

/** What is recorded about queries: once per query, at the node of its class and at the one line
    that produced it, with counts that add up to the objects found. */
module Recording {
  import opened Correlation
  import opened Queries
  import opened Protocol
  import opened Accounting

  // ---- each query is recorded at most once --------------------------------------------------------

  predicate IsRecorded(sh: Shared, q: Query) { q.cls in sh.nodes && q in sh.nodes[q.cls].queries }

  /** Nothing makes a worker give up on a query: no cancellation and no query limit. */
  predicate Unhindered(env: Env, sh: Shared) { !sh.cancelled && env.limit <= 0 }

  /** An admitted query is on its way to being recorded, or recorded, never both and never twice;
      only cancellation or the query limit can make it neither. */
  ghost predicate RecordedOnce(env: Env, s: State, q: Query) {
    var n := Occurs(s.sh.queue, q) + Sum(env, PreRecord(q), s.threads) + One(IsRecorded(s.sh, q));
    n <= One(q in s.sh.seen) && (Unhindered(env, s.sh) ==> n == One(q in s.sh.seen))
  }

  /** Steps that leave recording alone. */
  lemma RecordFrame(env: Env, sh: Shared, th: Thread, a: Action)
    requires Guard(env, sh, th, a)
    ensures var sh' := Effect(env, sh, th, a);
            && (!a.Admit? ==> sh'.seen == sh.seen)
            && (!a.Put? && !a.Get? ==> sh'.queue == sh.queue)
            && (!a.SetLine? ==> sh'.lineQueries == sh.lineQueries)
            && (sh.cancelled ==> sh'.cancelled)
  {
    hide Guard, Moved, Effect;
    SeenFrame(env, sh, th, a);
    QueueFrame(env, sh, th, a);
    LinesFrame(env, sh, th, a);
    CancelledFrame(env, sh, th, a);
  }

  lemma QueriesFrame(env: Env, sh: Shared, th: Thread, a: Action)
    requires Guard(env, sh, th, a)
    ensures var sh' := Effect(env, sh, th, a);
            && sh'.nodes.Keys == sh.nodes.Keys
            && (!a.Record? ==> forall c :: c in sh.nodes ==> sh'.nodes[c].queries == sh.nodes[c].queries)
            && (!a.Record? && !a.AppendStart? ==>
                  forall c :: c in sh.nodes ==> sh'.nodes[c].result == sh.nodes[c].result)
  {
    if !a.AppendStart? && !a.Record? && !a.Claim? {
      assert Effect(env, sh, th, a).nodes == sh.nodes;
    }
  }

  lemma PreRecordLocal(env: Env, sh: Shared, th: Thread, a: Action, q: Query)
    requires Guard(env, sh, th, a) && RoleOk(th)
    requires !a.Admit? && !a.Put? && !a.Get? && !a.Record? && !a.Abandon?
    ensures Weight(env, PreRecord(q), Moved(env, sh, th, a)) == Weight(env, PreRecord(q), th)
  {
  }

  lemma PreRecordMoves(env: Env, sh: Shared, th: Thread, a: Action, q: Query)
    requires Guard(env, sh, th, a) && RoleOk(th)
    requires a.Admit? || a.Put? || a.Get? || a.Record? || a.Abandon?
    ensures var w' := Weight(env, PreRecord(q), Moved(env, sh, th, a));
            var w := Weight(env, PreRecord(q), th);
            && (a.Admit? ==> w' == w + One(th.pending[0].query == q))
            && (a.Put? ==> w' == w - One(th.send.item.query == q))
            && (a.Get? ==> w' == w + One(sh.queue[0].query == q))
            && (a.Record? || a.Abandon? ==> w' == w - One(th.job.value.query == q))
  {
  }

  /** Recording the query of an item records no other query. */
  lemma NowRecorded(env: Env, sh: Shared, th: Thread)
    requires Guard(env, sh, th, Record)
    ensures var sh' := Effect(env, sh, th, Record);
            IsRecorded(sh', th.job.value.query)
            && forall q :: q != th.job.value.query ==> (IsRecorded(sh', q) <==> IsRecorded(sh, q))
  {
  }

  lemma RecordedOnceLocal(env: Env, s: State, t: nat, a: Action, q: Query)
    requires Enabled(env, s, t, a) && RoleOk(s.threads[t]) && RecordedOnce(env, s, q)
    requires !a.Admit? && !a.Put? && !a.Get? && !a.Record? && !a.Abandon?
    ensures RecordedOnce(env, Do(env, s, t, a), q)
  {
    hide Moved, Effect, Guard, RoleOk, Weight;
    SumStep(env, PreRecord(q), s, t, a);
    RecordFrame(env, s.sh, s.threads[t], a);
    QueriesFrame(env, s.sh, s.threads[t], a);
    PreRecordLocal(env, s.sh, s.threads[t], a, q);
  }

  /** Queued, carried to be recorded, or recorded, less admitted: what one goroutine and the tables show. */
  function RecordGap(env: Env, sh: Shared, th: Thread, q: Query): int {
    Occurs(sh.queue, q) + Weight(env, PreRecord(q), th) + One(IsRecorded(sh, q)) - One(q in sh.seen)
  }

  lemma RecordGapMoves(env: Env, sh: Shared, th: Thread, a: Action, q: Query)
    requires Guard(env, sh, th, a) && RoleOk(th)
    requires a.Admit? || a.Put? || a.Get? || a.Record? || a.Abandon?
    requires a.Record? && IsRecorded(sh, q) ==> th.job.value.query != q
    ensures var gap := RecordGap(env, sh, th, q);
            var gap' := RecordGap(env, Effect(env, sh, th, a), Moved(env, sh, th, a), q);
            gap' <= gap && (!a.Abandon? ==> gap' == gap)
  {
    hide Moved, Effect, Weight;
    PreRecordMoves(env, sh, th, a, q);
    QueriesFrame(env, sh, th, a);
    QueueFrame(env, sh, th, a);
    SeenFrame(env, sh, th, a);
    if a.Put? {
      OccursAppend(sh.queue, th.send.item, q);
    } else if a.Record? {
      NowRecorded(env, sh, th);
    }
  }

  lemma RecordedOnceMoves(env: Env, s: State, t: nat, a: Action, q: Query)
    requires ValidEnv(env) && Shape(env, s) && Enabled(env, s, t, a) && RecordedOnce(env, s, q)
    requires a.Admit? || a.Put? || a.Get? || a.Record? || a.Abandon?
    ensures RecordedOnce(env, Do(env, s, t, a), q)
  {
    hide Moved, Effect, WindowOk, PendingOk, Occurs;
    var th := s.threads[t];
    SumStep(env, PreRecord(q), s, t, a);
    WeightWithinSum(env, PreRecord(q), s.threads, t);
    CancelledFrame(env, s.sh, th, a);
    RecordGapMoves(env, s.sh, th, a, q);
  }

  lemma RecordedOnceStep(env: Env, s: State, t: nat, a: Action, q: Query)
    requires ValidEnv(env) && Shape(env, s) && Enabled(env, s, t, a) && RecordedOnce(env, s, q)
    ensures RecordedOnce(env, Do(env, s, t, a), q)
  {
    hide RecordedOnce;
    if a.Admit? || a.Put? || a.Get? || a.Record? || a.Abandon? {
      RecordedOnceMoves(env, s, t, a, q);
    } else {
      RecordedOnceLocal(env, s, t, a, q);
    }
  }

  // ---- items keep their identity -------------------------------------------------------------------

  /** `it` is the item that was admitted for its query. */
  predicate Known(sh: Shared, it: Item) { it.query in sh.seen && sh.seen[it.query] == it }

  predicate ThreadKnown(sh: Shared, th: Thread) {
    (th.job.Some? ==> Known(sh, th.job.value)) && (!th.send.Ready? ==> Known(sh, th.send.item))
  }

  /** Admitted items are well-formed. */
  ghost predicate SeenOk(env: Env, sh: Shared) {
    forall q :: q in sh.seen ==> sh.seen[q].query == q && ItemOk(env, sh.seen[q])
  }

  lemma SeenOkStep(env: Env, sh: Shared, th: Thread, a: Action)
    requires Guard(env, sh, th, a) && ItemsOk(env, th) && SeenOk(env, sh)
    ensures SeenOk(env, Effect(env, sh, th, a))
  {
    RecordFrame(env, sh, th, a);
  }

  ghost predicate ItemsKnown(s: State) {
    && (forall i :: 0 <= i < |s.sh.queue| ==> Known(s.sh, s.sh.queue[i]))
    && (forall i :: 0 <= i < |s.threads| ==> ThreadKnown(s.sh, s.threads[i]))
  }

  lemma KnownAdmit(env: Env, sh: Shared, th: Thread)
    requires Guard(env, sh, th, Admit) && ThreadKnown(sh, th)
    ensures ThreadKnown(Effect(env, sh, th, Admit), Moved(env, sh, th, Admit))
    ensures forall it :: Known(sh, it) ==> Known(Effect(env, sh, th, Admit), it)
  {
  }

  /** An admitted item stays known, and what a goroutine holds or sends is known. */
  lemma KnownMove(env: Env, sh: Shared, th: Thread, a: Action)
    requires Guard(env, sh, th, a) && ThreadKnown(sh, th)
    requires forall i :: 0 <= i < |sh.queue| ==> Known(sh, sh.queue[i])
    ensures ThreadKnown(Effect(env, sh, th, a), Moved(env, sh, th, a))
    ensures forall it :: Known(sh, it) ==> Known(Effect(env, sh, th, a), it)
  {
    hide Moved, Effect;
    if a.Admit? {
      KnownAdmit(env, sh, th);
    } else {
      HandsFrame(env, sh, th, a);
      RecordFrame(env, sh, th, a);
    }
  }

  lemma ItemsKnownStep(env: Env, s: State, t: nat, a: Action)
    requires Enabled(env, s, t, a) && ItemsKnown(s)
    ensures ItemsKnown(Do(env, s, t, a))
  {
    var th := s.threads[t];
    var s' := Do(env, s, t, a);
    KnownMove(env, s.sh, th, a);
    RecordFrame(env, s.sh, th, a);
    forall i | 0 <= i < |s'.threads| ensures ThreadKnown(s'.sh, s'.threads[i]) {
      if i != t { assert ThreadKnown(s.sh, s.threads[i]); }
    }
  }

  // ---- counts ----------------------------------------------------------------------------------------

  /** How many start objects the start class's list began with. */
  function StartCount(env: Env): nat { |AddAll(env, env.startClass, [], env.startObjects)| }

  predicate StartAppended(s: State) { |s.threads| > 0 && !s.threads[0].pc.Unstarted? && !s.threads[0].pc.Primed? }

  function Base(env: Env, s: State, c: Class): nat {
    if c == env.startClass && StartAppended(s) then StartCount(env) else 0
  }

  /** Each node holds its start objects and, for each query recorded there, as many as its count. */
  ghost predicate NodeCounts(env: Env, s: State, c: Class) {
    c in s.sh.nodes ==>
      && |s.sh.nodes[c].result| == Base(env, s, c) + Total(s.sh.nodes[c].queries)
      && forall q :: q in s.sh.nodes[c].queries ==> q.cls == c
  }

  /** Nothing is admitted before the start objects are in. */
  ghost predicate StartFirst(s: State) { !StartAppended(s) ==> s.sh.seen == map[] }

  lemma StartAppendedStep(env: Env, s: State, t: nat, a: Action)
    requires Shape(env, s) && Enabled(env, s, t, a)
    ensures StartAppended(Do(env, s, t, a)) <==> StartAppended(s) || a.AppendStart?
    ensures a.AppendStart? ==> t == 0 && !StartAppended(s)
  {
    hide Effect;
    assert t > 0 ==> IsWorker(s.threads[t]);
    assert t == 0 ==> IsMain(s.threads[t]);
  }

  lemma StartFirstStep(env: Env, s: State, t: nat, a: Action)
    requires Shape(env, s) && ItemsKnown(s) && Enabled(env, s, t, a) && StartFirst(s)
    ensures StartFirst(Do(env, s, t, a))
  {
    StartAppendedStep(env, s, t, a);
    RecordFrame(env, s.sh, s.threads[t], a);
    if a.Admit? {
      assert ThreadKnown(s.sh, s.threads[t]);
      assert t > 0 ==> IsWorker(s.threads[t]);
    }
  }

  lemma AppendStartCount(env: Env, s: State, t: nat)
    requires Shape(env, s) && StartFirst(s) && Enabled(env, s, t, AppendStart) && t == 0
    requires NodeCounts(env, s, env.startClass) && forall q :: RecordedOnce(env, s, q)
    ensures NodeCounts(env, Do(env, s, t, AppendStart), env.startClass)
  {
    var n := s.sh.nodes[env.startClass];
    forall q ensures q !in n.queries {
      assert RecordedOnce(env, s, q);
    }
    assert n.queries == map[] && n.result == [];
  }

  lemma RecordCount(env: Env, s: State, t: nat)
    requires Shape(env, s) && Enabled(env, s, t, Record)
    requires NodeCounts(env, s, s.threads[t].job.value.query.cls) && RecordedOnce(env, s, s.threads[t].job.value.query)
    ensures !IsRecorded(s.sh, s.threads[t].job.value.query)
    ensures NodeCounts(env, Do(env, s, t, Record), s.threads[t].job.value.query.cls)
  {
    var q := s.threads[t].job.value.query;
    WeightWithinSum(env, PreRecord(q), s.threads, t);
    AddAllAppends(env, q.cls, s.sh.nodes[q.cls].result, env.get(q));
    TotalAdd(s.sh.nodes[q.cls].queries, q, NewResults(env, s.sh, s.threads[t].job.value));
  }

  lemma NodeCountsStep(env: Env, s: State, t: nat, a: Action, c: Class)
    requires ValidEnv(env) && Shape(env, s) && ItemsKnown(s) && StartFirst(s) && Enabled(env, s, t, a)
    requires NodeCounts(env, s, c) && forall q :: RecordedOnce(env, s, q)
    ensures NodeCounts(env, Do(env, s, t, a), c)
  {
    StartAppendedStep(env, s, t, a);
    QueriesFrame(env, s.sh, s.threads[t], a);
    if a.AppendStart? && c == env.startClass {
      AppendStartCount(env, s, t);
    } else if a.Record? && c == s.threads[t].job.value.query.cls {
      RecordCount(env, s, t);
    }
  }

  /** What a line has recorded is recorded at the node with the same count, for a query it produced. */
  ghost predicate LineAgrees(s: State, k: LineKey, q: Query) {
    k in s.sh.lineQueries && q in s.sh.lineQueries[k] ==>
      && IsRecorded(s.sh, q) && q in s.sh.seen && s.sh.seen[q].line == Some(k)
      && s.sh.lineQueries[k][q] == s.sh.nodes[q.cls].queries[q]
  }

  /** What a node has recorded for a query that came along a line, the line has or will have. */
  ghost predicate LineFollows(env: Env, s: State, q: Query) {
    IsRecorded(s.sh, q) && q in s.sh.seen && s.sh.seen[q].line.Some? && s.sh.seen[q].line.value in s.sh.lineQueries ==>
      q in s.sh.lineQueries[s.sh.seen[q].line.value] || Sum(env, Recording(q), s.threads) > 0
  }

  /** A worker about to set a line's count has the count recorded at the node. */
  ghost predicate CountHeld(s: State, th: Thread) {
    th.pc.Recorded? && th.job.Some? ==>
      IsRecorded(s.sh, th.job.value.query) && s.sh.nodes[th.job.value.query.cls].queries[th.job.value.query] == th.count
  }

  /** Recorded counts are final. */
  lemma RecordedStays(env: Env, s: State, t: nat, a: Action, q: Query)
    requires ValidEnv(env) && Shape(env, s) && Enabled(env, s, t, a) && forall p :: RecordedOnce(env, s, p)
    requires forall c :: NodeCounts(env, s, c)
    requires IsRecorded(s.sh, q)
    ensures IsRecorded(Do(env, s, t, a).sh, q)
    ensures Do(env, s, t, a).sh.nodes[q.cls].queries[q] == s.sh.nodes[q.cls].queries[q]
  {
    QueriesFrame(env, s.sh, s.threads[t], a);
    if a.Record? {
      assert NodeCounts(env, s, s.threads[t].job.value.query.cls);
      RecordCount(env, s, t);
    }
  }

  lemma CountHeldMove(env: Env, s: State, t: nat, a: Action)
    requires Enabled(env, s, t, a) && CountHeld(s, s.threads[t])
    ensures CountHeld(Do(env, s, t, a), Do(env, s, t, a).threads[t]) || s.threads[t].pc.Recorded?
  {
  }

  lemma RecordedMove(env: Env, s: State, t: nat, a: Action)
    requires Enabled(env, s, t, a) && s.threads[t].pc.Recorded?
    ensures a.Cancel? || a.SetLine?
    ensures a.Cancel? ==> Do(env, s, t, a).threads[t] == s.threads[t]
    ensures a.SetLine? ==> !Do(env, s, t, a).threads[t].pc.Recorded?
  {
  }

  lemma LineAgreesStep(env: Env, s: State, t: nat, a: Action, k: LineKey, q: Query)
    requires ValidEnv(env) && Shape(env, s) && ItemsKnown(s) && Enabled(env, s, t, a)
    requires forall p :: RecordedOnce(env, s, p)
    requires forall c :: NodeCounts(env, s, c)
    requires CountHeld(s, s.threads[t]) && LineAgrees(s, k, q)
    ensures LineAgrees(Do(env, s, t, a), k, q)
  {
    hide Moved, Effect;
    RecordFrame(env, s.sh, s.threads[t], a);
    LinesFrame(env, s.sh, s.threads[t], a);
    SeenFrame(env, s.sh, s.threads[t], a);
    KnownMove(env, s.sh, s.threads[t], a);
    assert ThreadKnown(s.sh, s.threads[t]);
    if IsRecorded(s.sh, q) { RecordedStays(env, s, t, a, q); }
  }

  lemma RecordingMove(env: Env, sh: Shared, th: Thread, a: Action, q: Query)
    requires Guard(env, sh, th, a)
    ensures Weight(env, Recording(q), Moved(env, sh, th, a)) < Weight(env, Recording(q), th) ==>
              a.SetLine? && th.job.value.query == q
    ensures a.Record? && th.job.value.query == q && th.job.value.line.Some? ==>
              Weight(env, Recording(q), Moved(env, sh, th, a)) > 0
  {
  }

  lemma LineFollowsStep(env: Env, s: State, t: nat, a: Action, q: Query)
    requires ValidEnv(env) && Shape(env, s) && ItemsKnown(s) && Enabled(env, s, t, a)
    requires RecordedOnce(env, s, q) && LineFollows(env, s, q)
    ensures LineFollows(env, Do(env, s, t, a), q)
  {
    hide Moved, Effect;
    var th := s.threads[t];
    SeenFrame(env, s.sh, th, a);
    LinesFrame(env, s.sh, th, a);
    QueriesFrame(env, s.sh, th, a);
    SumStep(env, Recording(q), s, t, a);
    RecordingMove(env, s.sh, th, a, q);
    WeightWithinSum(env, Recording(q), s.threads, t);
    assert ThreadKnown(s.sh, th);
    if a.Record? { NowRecorded(env, s.sh, th); }
  }

  // ---- all of it, in every reachable state ------------------------------------------------------

  ghost predicate RecordingOk(env: Env, s: State) {
    && SeenOk(env, s.sh) && ItemsKnown(s) && StartFirst(s)
    && (forall q :: RecordedOnce(env, s, q))
    && (forall c :: NodeCounts(env, s, c))
    && (forall k, q :: LineAgrees(s, k, q))
    && (forall q :: LineFollows(env, s, q))
    && (forall i :: 0 <= i < |s.threads| ==> CountHeld(s, s.threads[i]))
  }

  lemma RecordingInit(env: Env, s: State)
    requires IsInit(env, s)
    ensures RecordingOk(env, s)
  {
    forall q ensures RecordedOnce(env, s, q) { SumInit(env, PreRecord(q), s); }
  }

  lemma CountHeldStep(env: Env, s: State, t: nat, a: Action, i: nat)
    requires ValidEnv(env) && Shape(env, s) && RecordingOk(env, s) && Enabled(env, s, t, a) && i < |s.threads|
    ensures CountHeld(Do(env, s, t, a), Do(env, s, t, a).threads[i])
  {
    var th := s.threads[i];
    assert CountHeld(s, th);
    if th.pc.Recorded? && th.job.Some? { RecordedStays(env, s, t, a, th.job.value.query); }
    if i == t {
      CountHeldMove(env, s, t, a);
      if th.pc.Recorded? { RecordedMove(env, s, t, a); }
    }
  }

  lemma RecordingStep(env: Env, s: State, t: nat, a: Action)
    requires ValidEnv(env) && Shape(env, s) && RecordingOk(env, s) && Enabled(env, s, t, a)
    ensures RecordingOk(env, Do(env, s, t, a))
  {
    var s' := Do(env, s, t, a);
    ItemsKnownStep(env, s, t, a);
    SeenOkStep(env, s.sh, s.threads[t], a);
    StartFirstStep(env, s, t, a);
    forall q ensures RecordedOnce(env, s', q) { RecordedOnceStep(env, s, t, a, q); }
    forall c ensures NodeCounts(env, s', c) { NodeCountsStep(env, s, t, a, c); }
    assert CountHeld(s, s.threads[t]);
    forall k, q ensures LineAgrees(s', k, q) { LineAgreesStep(env, s, t, a, k, q); }
    forall q ensures LineFollows(env, s', q) { LineFollowsStep(env, s, t, a, q); }
    forall i | 0 <= i < |s'.threads| ensures CountHeld(s', s'.threads[i]) { CountHeldStep(env, s, t, a, i); }
  }

  lemma {:induction false} RecordingAlong(env: Env, run: seq<State>, i: nat)
    requires ValidEnv(env) && IsRun(env, run) && i < |run|
    ensures RecordingOk(env, run[i])
    decreases i
  {
    hide RecordingOk, Shape, Enabled, Do;
    if i == 0 {
      RecordingInit(env, run[0]);
    } else {
      var t, a := StepTo(env, run, i);
      RecordingAlong(env, run, i - 1);
      ShapeAlong(env, run, i - 1);
      RecordingStep(env, run[i - 1], t, a);
    }
  }

  // ---- conservation ---------------------------------------------------------------------------------

  /** The queries of class `c` recorded at its node that did not come along a line. */
  function StartPart(sh: Shared, c: Class): map<Query, nat>
    requires c in sh.nodes
  {
    map q | q in sh.nodes[c].queries && q in sh.seen && sh.seen[q].line.None? :: sh.nodes[c].queries[q]
  }

  /** The total over a set of lines. */
  ghost function LinesTotal(sh: Shared, keys: set<LineKey>): nat
    requires keys <= sh.lineQueries.Keys
  {
    if keys == {} then 0
    else
      var k :| k in keys;
      Total(sh.lineQueries[k]) + LinesTotal(sh, keys - {k})
  }

  /** The node's records that came along a line in `keys`, or along none. */
  function NodePart(sh: Shared, c: Class, keys: set<LineKey>): map<Query, nat>
    requires c in sh.nodes
  {
    map q | q in sh.nodes[c].queries && q in sh.seen && (sh.seen[q].line.None? || sh.seen[q].line.value in keys) ::
      sh.nodes[c].queries[q]
  }

  /** The lines of the table hold exactly what the nodes recorded for the queries they produced. */
  ghost predicate LinesExact(sh: Shared) {
    forall k, q :: k in sh.lineQueries ==>
      (q in sh.lineQueries[k] <==> IsRecorded(sh, q) && q in sh.seen && sh.seen[q].line == Some(k))
      && (q in sh.lineQueries[k] ==> sh.lineQueries[k][q] == sh.nodes[q.cls].queries[q])
  }

  lemma NodePartWithLine(sh: Shared, c: Class, keys: set<LineKey>, k: LineKey)
    requires LinesExact(sh) && c in sh.nodes && k in sh.lineQueries && k !in keys
    requires forall q :: q in sh.lineQueries[k] ==> q.cls == c
    requires forall q :: q in sh.nodes[c].queries ==> q.cls == c
    ensures NodePart(sh, c, keys).Keys !! sh.lineQueries[k].Keys
    ensures NodePart(sh, c, keys + {k}) == NodePart(sh, c, keys) + sh.lineQueries[k]
  {
    var whole, part, line := NodePart(sh, c, keys + {k}), NodePart(sh, c, keys), sh.lineQueries[k];
    forall q ensures q in line <==> q in sh.nodes[c].queries && q in sh.seen && sh.seen[q].line == Some(k) {
      if q in sh.nodes[c].queries { assert IsRecorded(sh, q); }
    }
    forall q ensures q in whole <==> q in part || q in line { }
    forall q | q in whole ensures whole[q] == (part + line)[q] { }
  }

  /** Adding up line by line gives the node's total. */
  lemma {:induction false} TotalsByLine(sh: Shared, c: Class, keys: set<LineKey>)
    requires LinesExact(sh) && c in sh.nodes && keys <= sh.lineQueries.Keys
    requires forall k, q :: k in keys && q in sh.lineQueries[k] ==> q.cls == c
    requires forall q :: q in sh.nodes[c].queries ==> q.cls == c
    ensures Total(NodePart(sh, c, keys)) == Total(StartPart(sh, c)) + LinesTotal(sh, keys)
    decreases keys
  {
    if keys == {} {
      assert NodePart(sh, c, keys) == StartPart(sh, c);
    } else {
      var k :| k in keys && LinesTotal(sh, keys) == Total(sh.lineQueries[k]) + LinesTotal(sh, keys - {k});
      TotalsByLine(sh, c, keys - {k});
      NodePartWithLine(sh, c, keys - {k}, k);
      assert keys - {k} + {k} == keys;
      TotalSplit(NodePart(sh, c, keys), NodePart(sh, c, keys - {k}), sh.lineQueries[k]);
    }
  }

  lemma LinesExactAtShutdown(env: Env, s: State)
    requires Accounted(env, s) && RecordingOk(env, s) && ShuttingDown(s)
    ensures LinesExact(s.sh)
  {
    forall k, q | k in s.sh.lineQueries
      ensures q in s.sh.lineQueries[k] <==> IsRecorded(s.sh, q) && q in s.sh.seen && s.sh.seen[q].line == Some(k)
      ensures q in s.sh.lineQueries[k] ==> s.sh.lineQueries[k][q] == s.sh.nodes[q.cls].queries[q]
    {
      assert LineAgrees(s, k, q);
      assert LineFollows(env, s, q);
      QuietSum(env, s, Recording(q));
    }
  }

  /** In every reachable state, each node's query counts add up to its objects less its start objects. */
  lemma NodeCountsConserved(env: Env, s: State, c: Class)
    requires ValidEnv(env) && Reachable(env, s) && c in s.sh.nodes
    ensures |s.sh.nodes[c].result| == Base(env, s, c) + Total(s.sh.nodes[c].queries)
    ensures forall k, q :: k in s.sh.lineQueries && q in s.sh.lineQueries[k] ==>
              IsRecorded(s.sh, q) && s.sh.lineQueries[k][q] == s.sh.nodes[q.cls].queries[q]
  {
    var run :| IsRun(env, run) && run[|run| - 1] == s;
    RecordingAlong(env, run, |run| - 1);
    assert NodeCounts(env, s, c);
    forall k, q | k in s.sh.lineQueries && q in s.sh.lineQueries[k]
      ensures IsRecorded(s.sh, q) && s.sh.lineQueries[k][q] == s.sh.nodes[q.cls].queries[q]
    {
      assert LineAgrees(s, k, q);
    }
  }

  /** The lines in scope that lead to class `c`. */
  function Incoming(sh: Shared, c: Class): set<LineKey> { set k | k in sh.lineQueries && k.goal == c }

  lemma AllThroughIncoming(env: Env, s: State, c: Class)
    requires Shape(env, s) && RecordingOk(env, s) && LinesExact(s.sh) && c in s.sh.nodes
    ensures NodePart(s.sh, c, Incoming(s.sh, c)) == s.sh.nodes[c].queries
    ensures forall k, q :: k in Incoming(s.sh, c) && q in s.sh.lineQueries[k] ==> q.cls == c
  {
    assert NodeCounts(env, s, c);
    forall q | q in s.sh.nodes[c].queries
      ensures q in s.sh.seen && (s.sh.seen[q].line.None? || s.sh.seen[q].line.value in Incoming(s.sh, c))
    {
      assert RecordedOnce(env, s, q) && IsRecorded(s.sh, q);
    }
  }

  /** After shutdown each query is on at most one line, and for every class the totals of its incoming
      lines and of its start queries make up the node's total, hence all objects it gained. */
  lemma CountsConserved(env: Env, s: State, c: Class)
    requires ValidEnv(env) && Reachable(env, s) && ShuttingDown(s) && c in s.sh.nodes
    ensures LinesExact(s.sh)
    ensures Total(s.sh.nodes[c].queries) == Total(StartPart(s.sh, c)) + LinesTotal(s.sh, Incoming(s.sh, c))
    ensures |s.sh.nodes[c].result| == Base(env, s, c) + Total(s.sh.nodes[c].queries)
  {
    var run :| IsRun(env, run) && run[|run| - 1] == s;
    RecordingAlong(env, run, |run| - 1);
    AccountedAlong(env, run, |run| - 1);
    LinesExactAtShutdown(env, s);
    assert NodeCounts(env, s, c);
    AllThroughIncoming(env, s, c);
    TotalsByLine(s.sh, c, Incoming(s.sh, c));
  }
}

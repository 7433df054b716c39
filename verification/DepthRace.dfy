/** Why only such searches are exact: if a rule is left to apply where a walk along the scope has used up
    the depth, a worker may claim an object later than it was found, and drop what follows, or claim one
    as if it had been found sooner, and admit what follows. */
module DepthRace {
  import opened Correlation
  import opened Protocol
  import opened Accounting
  import opened Simulation
  import opened Sequential
  import opened Neighbourhood
  import opened PoolDepth

  predicate IsWalk(lines: map<LineKey, nat>, start: Class, walk: seq<LineKey>) {
    forall i :: 0 <= i < |walk| ==> walk[i] in lines && walk[i].start == WalkEnd(start, walk[..i])
  }

  function WalkEnd(start: Class, walk: seq<LineKey>): Class { if walk == [] then start else walk[|walk| - 1].goal }

  /** A position on one of two walks. */
  datatype Mark = Mark(onShort: bool, at: nat)

  /** A selector and an object for every mark, and IDs, which no class uses. */
  datatype Naming = Naming(
    selector: Mark -> Selector,
    selectorMark: Selector -> Mark,
    thing: Mark -> Object,
    thingMark: Object -> Mark,
    id: (Class, Object) -> Id)

  ghost predicate NamesApart(names: Naming) {
    forall m :: names.selectorMark(names.selector(m)) == m && names.thingMark(names.thing(m)) == m
  }

  /** A search of depth `depth` over `lines`, and two walks from its start class. */
  datatype Race = Race(
    lines: map<LineKey, nat>,
    start: Class,
    depth: nat,
    short: seq<LineKey>,
    long: seq<LineKey>,
    names: Naming)

  ghost predicate RaceOk(race: Race) {
    && IsWalk(race.lines, race.start, race.short) && IsWalk(race.lines, race.start, race.long)
    && 0 < race.depth <= |race.long| && NamesApart(race.names)
  }

  // ---- the data of the race ----------------------------------------------------------------------------------

  function Walk(race: Race, m: Mark): seq<LineKey> { if m.onShort then race.short else race.long }

  predicate HasLine(race: Race, m: Mark) { m.at < |Walk(race, m)| }

  function LineAt(race: Race, m: Mark): LineKey
    requires HasLine(race, m)
  {
    Walk(race, m)[m.at]
  }

  function Onward(m: Mark): Mark { m.(at := m.at + 1) }

  function ClassAt(race: Race, m: Mark): Class {
    if 0 < m.at <= |Walk(race, m)| then Walk(race, m)[m.at - 1].goal else race.start
  }

  function QueryAt(race: Race, m: Mark): Query { Query(ClassAt(race, m), race.names.selector(m)) }

  function ItemAt(race: Race, m: Mark): Item {
    Item(QueryAt(race, m), if 0 < m.at <= |Walk(race, m)| then Some(Walk(race, m)[m.at - 1]) else None, m.at)
  }

  const Origin := Mark(false, 0)
  const First := Mark(true, 0)

  /** The query at a mark finds the object at it, except at the end of a walk. */
  function Finds(race: Race, m: Mark): seq<Object> { if HasLine(race, m) then [race.names.thing(m)] else [] }

  /** The object at a mark leads along the line there to the next query. */
  function Leads(race: Race, r: Rule, m: Mark): seq<Query> {
    if HasLine(race, m) && LineAt(race, m).rule == r then [QueryAt(race, Onward(m))] else []
  }

  function RaceEnv(race: Race): Env {
    Env(race.lines,
        (q: Query) => Finds(race, race.names.selectorMark(q.data)),
        (r: Rule, o: Object) => Leads(race, r, race.names.thingMark(o)),
        {}, race.names.id, race.start, [race.names.thing(Origin)], [QueryAt(race, First)], 0, race.depth)
  }

  lemma LineJoins(race: Race, m: Mark)
    requires RaceOk(race) && HasLine(race, m)
    ensures LineAt(race, m) in race.lines
    ensures LineAt(race, m) == LineKey(ClassAt(race, m), LineAt(race, m).rule, ClassAt(race, Onward(m)))
  {
    hide NamesApart;
    var walk := Walk(race, m);
    assert IsWalk(race.lines, race.start, walk);
    hide IsWalk, RaceOk;
    assert walk[m.at].start == WalkEnd(race.start, walk[..m.at]);
    assert walk[m.at].goal == ClassAt(race, Onward(m));
  }

  lemma ClassKnown(race: Race, m: Mark)
    requires RaceOk(race)
    ensures ClassAt(race, m) in NodeClasses(RaceEnv(race))
    ensures ItemAt(race, m).line.Some? ==> ItemAt(race, m).line.value in race.lines
  {
    if 0 < m.at <= |Walk(race, m)| { LineJoins(race, m.(at := m.at - 1)); }
  }

  lemma {:induction false} ShortDerived(race: Race, i: nat)
    requires RaceOk(race) && i <= |race.short|
    ensures DerivedQuery(RaceEnv(race), QueryAt(race, Mark(true, i)), i)
    decreases i
  {
    if i > 0 {
      var env, m := RaceEnv(race), Mark(true, i - 1);
      ShortDerived(race, i - 1);
      LineJoins(race, m);
      assert Onward(m) == Mark(true, i);
      assert race.names.thing(m) in env.get(QueryAt(race, m));
      assert DerivedObject(env, ClassAt(race, m), race.names.thing(m), i - 1);
      assert Follows(env, ClassAt(race, m), race.names.thing(m), LineAt(race, m).rule, QueryAt(race, Onward(m)));
    }
  }

  /** No query is derivable sooner than its position. */
  lemma {:induction false} NotSooner(race: Race, q: Query, n: nat)
    requires NamesApart(race.names) && DerivedQuery(RaceEnv(race), q, n)
    ensures race.names.selectorMark(q.data).at <= n
    decreases n
  {
    var env := RaceEnv(race);
    if n > 0 {
      if DerivedQuery(env, q, n - 1) {
        NotSooner(race, q, n - 1);
      } else {
        var c, o, r :| DerivedObject(env, c, o, n - 1) && Follows(env, c, o, r, q);
        var m := race.names.thingMark(o);
        assert q == QueryAt(race, Onward(m));
        if o != race.names.thing(Origin) {
          var p :| DerivedQuery(env, p, n - 1) && p.cls == c && o in env.get(p);
          NotSooner(race, p, n - 1);
          assert o in Finds(race, race.names.selectorMark(p.data));
        }
      }
    }
  }

  // ---- one action at a time ------------------------------------------------------------------------------------

  /** How far along each walk queries were admitted. */
  datatype Reach = Reach(short: int, long: int)

  function ReachOf(reach: Reach, m: Mark): int { if m.onShort then reach.short else reach.long }

  function Extended(reach: Reach, m: Mark): Reach {
    if m.onShort then reach.(short := m.at) else reach.(long := m.at)
  }

  /** Exactly the queries that far were admitted; there is none at the start of the long walk. */
  ghost predicate SeenWithin(race: Race, seen: map<Query, Item>, reach: Reach) {
    && (forall q :: q in seen ==>
          var m := race.names.selectorMark(q.data); q == QueryAt(race, m) && m.at <= ReachOf(reach, m))
    && (forall m: Mark :: m != Origin && m.at <= ReachOf(reach, m) ==> QueryAt(race, m) in seen)
  }

  lemma SeenExtends(race: Race, seen: map<Query, Item>, reach: Reach, m: Mark, it: Item)
    requires NamesApart(race.names) && SeenWithin(race, seen, reach) && m.at == ReachOf(reach, m) + 1
    ensures QueryAt(race, m) !in seen && SeenWithin(race, seen[QueryAt(race, m) := it], Extended(reach, m))
  {
  }

  ghost predicate Calm(race: Race, s: State) {
    Reachable(RaceEnv(race), s) && |s.threads| == 3 && !s.sh.cancelled
  }

  ghost predicate Scene(race: Race, s: State, queue: seq<Item>, wg: int, reach: Reach) {
    && Calm(race, s) && |s.threads| == 3
    && s.sh.queue == queue && s.sh.wg == wg && SeenWithin(race, s.sh.seen, reach)
  }

  lemma Act(race: Race, s: State, t: nat, a: Action) returns (s': State)
    requires Calm(race, s) && Enabled(RaceEnv(race), s, t, a) && !a.Cancel?
    ensures Calm(race, s') && s' == Do(RaceEnv(race), s, t, a) && |s.threads| == |s'.threads| == 3
  {
    hide Guard, Moved, Effect, RaceEnv, Reachable;
    CancelledFrame(RaceEnv(race), s.sh, s.threads[t], a);
    s' := StepOf(RaceEnv(race), s, t, a);
  }

  lemma Tables(race: Race, s: State)
    requires RaceOk(race) && Calm(race, s)
    ensures s.sh.nodes.Keys == NodeClasses(RaceEnv(race)) && s.sh.lineQueries.Keys == race.lines.Keys
  {
    var env := RaceEnv(race);
    var run :| IsRun(env, run) && run[|run| - 1] == s;
    ShapeAlong(env, run, |run| - 1);
  }

  /** In get, or in wait. */
  predicate AtRest(th: Thread) { (th.pc.Idle? || th.pc.Waiting?) && Clean(th) }

  /** The objects were added to the node of the class. */
  predicate Added(nodes: map<Class, NodeState>, nodes': map<Class, NodeState>, c: Class, objects: seq<Object>) {
    && c in nodes && nodes'.Keys == nodes.Keys
    && nodes'[c].result == nodes[c].result + objects && nodes'[c].processed == nodes[c].processed
    && forall d :: d in nodes && d != c ==> nodes'[d] == nodes[d]
  }

  /** The object at `m` is the last of its node, and the only one that is not claimed. */
  predicate OneLeft(race: Race, nodes: map<Class, NodeState>, c: Class, m: Mark) {
    && c in nodes && nodes[c].result != []
    && nodes[c].result[|nodes[c].result| - 1] == race.names.thing(m) && nodes[c].processed == |nodes[c].result| - 1
    && forall d :: d in nodes && d != c ==> nodes[d].processed == |nodes[d].result|
  }

  /** The item at a mark, at any depth. */
  predicate IsItem(race: Race, it: Item, m: Mark) { it == ItemAt(race, m).(depth := it.depth) }

  lemma Receive(race: Race, s: State, t: nat, it: Item, m: Mark, rest: seq<Item>, wg: int, reach: Reach)
    returns (s': State)
    requires RaceOk(race) && Scene(race, s, [it] + rest, wg, reach) && t < 3 && s.threads[t].pc.Idle?
    requires IsItem(race, it, m)
    ensures Scene(race, s', rest, wg, reach) && s'.sh.nodes == s.sh.nodes
    ensures s'.threads == s.threads[t := s.threads[t].(pc := Passed, job := Some(it))]
  {
    hide Calm, NodeClasses;
    Tables(race, s);
    ClassKnown(race, m);
    assert ([it] + rest)[1..] == rest;
    var s1 := Act(race, s, t, Get);
    s' := Act(race, s1, t, Pass);
  }

  lemma AddedOne(race: Race, c: Class, list: seq<Object>, objects: seq<Object>)
    requires |objects| <= 1
    ensures AddAll(RaceEnv(race), c, list, objects) == list + objects
  {
    if objects != [] { assert objects[1..] == [] && objects == [objects[0]]; }
  }

  /** A worker when the results of its item are in. */
  function Fetched(th: Thread, it: Item, pc: Pc, count: nat): Thread {
    th.(pc := pc, count := count, cls := it.query.cls, depth := it.depth + 1)
  }

  lemma Recorded(race: Race, s: State, t: nat, it: Item, m: Mark, queue: seq<Item>, wg: int, reach: Reach)
    returns (s': State, count: nat)
    requires RaceOk(race) && Scene(race, s, queue, wg, reach) && t < 3
    requires s.threads[t].pc.Passed? && s.threads[t].job == Some(it) && IsItem(race, it, m)
    ensures Scene(race, s', queue, wg, reach) && Added(s.sh.nodes, s'.sh.nodes, ClassAt(race, m), Finds(race, m))
    ensures var pc := if it.line.Some? then Pc.Recorded else Claiming;
            s'.threads == s.threads[t := Fetched(s.threads[t], it, pc, count)]
  {
    hide Calm, NodeClasses, AddAll;
    var c := ClassAt(race, m);
    Tables(race, s);
    ClassKnown(race, m);
    assert RaceEnv(race).get(QueryAt(race, m)) == Finds(race, m);
    AddedOne(race, c, s.sh.nodes[c].result, Finds(race, m));
    count := NewResults(RaceEnv(race), s.sh, it);
    s' := Act(race, s, t, Record);
  }

  lemma Fetch(race: Race, s: State, t: nat, it: Item, m: Mark, queue: seq<Item>, wg: int, reach: Reach)
    returns (s': State, count: nat)
    requires RaceOk(race) && Scene(race, s, queue, wg, reach) && t < 3
    requires s.threads[t].pc.Passed? && s.threads[t].job == Some(it) && IsItem(race, it, m)
    ensures Scene(race, s', queue, wg, reach) && Added(s.sh.nodes, s'.sh.nodes, ClassAt(race, m), Finds(race, m))
    ensures s'.threads == s.threads[t := Fetched(s.threads[t], it, Claiming, count)]
  {
    hide Calm, NodeClasses, Added, Finds;
    s', count := Recorded(race, s, t, it, m, queue, wg, reach);
    if it.line.Some? {
      Tables(race, s');
      ClassKnown(race, m);
      s' := Act(race, s', t, SetLine);
    }
  }

  /** The goroutine with a window of one object, after the rule that leads on from it. */
  function Leading(race: Race, th: Thread, m: Mark, result: seq<Object>): Thread
    requires HasLine(race, m) && result != []
  {
    th.(pc := Applying, objects := result, at := |result| - 1,
        todo := RulesFor(RaceEnv(race), th.cls) - {LineAt(race, m).rule},
        pending := [Item(QueryAt(race, Onward(m)), Some(LineAt(race, m)), th.depth)])
  }

  lemma SendsNext(race: Race, m: Mark, depth: nat)
    requires RaceOk(race) && HasLine(race, m)
    ensures var env, c, r := RaceEnv(race), ClassAt(race, m), LineAt(race, m).rule;
            && r in RulesFor(env, c)
            && Sends(env, c, r, depth, env.apply(r, race.names.thing(m)))
               == [Item(QueryAt(race, Onward(m)), Some(LineAt(race, m)), depth)]
  {
    LineJoins(race, m);
    assert LineAt(race, m) in RaceEnv(race).lines && [QueryAt(race, Onward(m))][1..] == [];
  }

  lemma ClaimOne(race: Race, s: State, t: nat, m: Mark, queue: seq<Item>, wg: int, reach: Reach) returns (s': State)
    requires RaceOk(race) && Scene(race, s, queue, wg, reach) && t < 3
    requires s.threads[t].pc.Claiming? && s.threads[t].cls == ClassAt(race, m)
    requires OneLeft(race, s.sh.nodes, ClassAt(race, m), m)
    ensures Scene(race, s', queue, wg, reach) && AllClaimed(s'.sh.nodes)
    ensures s'.threads == s.threads[t := Applier(RaceEnv(race), s.threads[t], s.sh.nodes[ClassAt(race, m)])]
  {
    hide Calm, RaceEnv, RulesFor, SeenWithin, IsWalk, NamesApart, WalkEnd, ClassAt;
    s' := Act(race, s, t, Claim);
  }

  lemma Expand(race: Race, s: State, t: nat, m: Mark, queue: seq<Item>, wg: int, reach: Reach) returns (s': State)
    requires RaceOk(race) && Scene(race, s, queue, wg, reach) && t < 3 && HasLine(race, m)
    requires s.threads[t].pc.Claiming? && Clean(s.threads[t]) && s.threads[t].cls == ClassAt(race, m)
    requires OneLeft(race, s.sh.nodes, ClassAt(race, m), m)
    ensures Scene(race, s', queue, wg, reach) && AllClaimed(s'.sh.nodes)
    ensures s'.threads == s.threads[t := Leading(race, s.threads[t], m, s.sh.nodes[ClassAt(race, m)].result)]
  {
    hide Calm, RaceEnv, Sends, RulesFor, SeenWithin, IsWalk, NamesApart, WalkEnd, ClassAt, AllClaimed;
    var s1 := ClaimOne(race, s, t, m, queue, wg, reach);
    SendsNext(race, m, s.threads[t].depth);
    s' := Act(race, s1, t, ApplyRule(LineAt(race, m).rule));
  }

  lemma SendOne(race: Race, s: State, t: nat, it: Item, m: Mark, queue: seq<Item>, wg: int, reach: Reach)
    returns (s': State)
    requires RaceOk(race) && Scene(race, s, queue, wg, reach) && t < 3
    requires Sending(s.threads[t]) && s.threads[t].send.Ready? && s.threads[t].pending == [it]
    requires it.depth <= race.depth && it.query == QueryAt(race, m) && m.at == ReachOf(reach, m) + 1
    ensures Scene(race, s', queue + [it], wg + 1, Extended(reach, m)) && s'.sh.nodes == s.sh.nodes
    ensures s'.threads == s.threads[t := s.threads[t].(pending := [])]
  {
    hide Calm;
    SeenExtends(race, s.sh.seen, reach, m, it);
    hide SeenWithin;
    var s1 := Act(race, s, t, Admit);
    assert s1.threads[t] == s.threads[t].(pending := [], send := Admitted(it));
    var s2 := Act(race, s1, t, CountSend);
    assert s2.threads[t] == s.threads[t].(pending := [], send := Counted(it));
    s' := Act(race, s2, t, Put);
  }

  /** With its rules applied the goroutine gives its token back. */
  lemma GiveBack(race: Race, s: State, t: nat, queue: seq<Item>, wg: int, reach: Reach) returns (s': State)
    requires RaceOk(race) && Scene(race, s, queue, wg, reach) && t < 3
    requires s.threads[t].pc.Applying? && Clean(s.threads[t]) && s.threads[t].todo == {}
    requires s.threads[t].at + 1 == |s.threads[t].objects|
    ensures Scene(race, s', queue, wg - 1, reach) && s'.sh.nodes == s.sh.nodes
    ensures s'.threads == s.threads[t := s'.threads[t]] && AtRest(s'.threads[t])
    ensures s'.threads[t].pc == if s.threads[t].job.Some? then Idle else Waiting
  {
    hide Calm, RaceEnv;
    var s1 := Act(race, s, t, NextObject);
    var s2 := Act(race, s1, t, EndApply);
    s' := Act(race, s2, t, Done);
  }

  /** The rules left yield nothing. */
  lemma {:induction false} WindDown(race: Race, s: State, t: nat, m: Mark, queue: seq<Item>, wg: int, reach: Reach)
    returns (s': State)
    requires RaceOk(race) && Scene(race, s, queue, wg, reach) && t < 3
    requires s.threads[t].pc.Applying? && Clean(s.threads[t]) && s.threads[t].at + 1 == |s.threads[t].objects|
    requires s.threads[t].objects[s.threads[t].at] == race.names.thing(m)
    requires HasLine(race, m) ==> LineAt(race, m).rule !in s.threads[t].todo
    ensures Scene(race, s', queue, wg - 1, reach) && s'.sh.nodes == s.sh.nodes
    ensures s'.threads == s.threads[t := s'.threads[t]] && AtRest(s'.threads[t])
    ensures s'.threads[t].pc == if s.threads[t].job.Some? then Idle else Waiting
    decreases s.threads[t].todo
  {
    hide Calm, AtRest, SeenWithin, IsWalk, WalkEnd;
    if r :| r in s.threads[t].todo {
      assert RaceEnv(race).apply(r, race.names.thing(m)) == [];
      var s1 := Act(race, s, t, ApplyRule(r));
      s' := WindDown(race, s1, t, m, queue, wg, reach);
    } else {
      s' := GiveBack(race, s, t, queue, wg, reach);
    }
  }

  // ---- the race ------------------------------------------------------------------------------------------------

  /** A worker handles the item at a mark: it finds one object and sends the next query. */
  lemma Relay(race: Race, s: State, t: nat, m: Mark, rest: seq<Item>, wg: int, reach: Reach) returns (s': State)
    requires RaceOk(race) && Scene(race, s, [ItemAt(race, m)] + rest, wg, reach) && AllClaimed(s.sh.nodes)
    requires t < 3 && s.threads[t].pc.Idle? && Clean(s.threads[t])
    requires HasLine(race, m) && m.at < race.depth && m.at == ReachOf(reach, m)
    ensures var next := Onward(m);
            Scene(race, s', rest + [ItemAt(race, next)], wg, Extended(reach, next)) && AllClaimed(s'.sh.nodes)
    ensures s'.threads == s.threads[t := s'.threads[t]] && s'.threads[t].pc.Idle? && Clean(s'.threads[t])
  {
    hide Calm, SeenWithin, IsWalk, NamesApart, WalkEnd;
    var c, next, reach' := ClassAt(race, m), Onward(m), Extended(reach, Onward(m));
    var it := ItemAt(race, m);
    var s1 := Receive(race, s, t, it, m, rest, wg, reach);
    var s2, count := Fetch(race, s1, t, it, m, rest, wg, reach);
    assert OneLeft(race, s2.sh.nodes, c, m);
    var s3 := Expand(race, s2, t, m, rest, wg, reach);
    var s4 := SendOne(race, s3, t, ItemAt(race, next), next, rest, wg, reach);
    s' := WindDown(race, s4, t, m, rest + [ItemAt(race, next)], wg + 1, reach');
  }

  lemma Starts(race: Race) returns (s: State)
    ensures Calm(race, s) && s == Init(RaceEnv(race), 2)
  {
    s := Init(RaceEnv(race), 2);
    assert IsInit(RaceEnv(race), s) && IsRun(RaceEnv(race), [s]);
    assert [s][|[s]| - 1] == s;
  }

  lemma Begins(race: Race) returns (s: State)
    requires RaceOk(race)
    ensures Scene(race, s, [], 1, Reach(-1, 0)) && OneLeft(race, s.sh.nodes, race.start, Origin)
    ensures var env := RaceEnv(race);
            s.threads == [NewThread(env, Priming).(pending := [ItemAt(race, First)]),
                          NewThread(env, Idle), NewThread(env, Idle)]
  {
    hide Calm, IsWalk, NamesApart, WalkEnd, AddAll;
    var s0 := Starts(race);
    var s1 := Act(race, s0, 0, AddSentinel);
    AddedOne(race, race.start, [], [race.names.thing(Origin)]);
    assert StartItems([QueryAt(race, First)]) == [ItemAt(race, First)];
    s := Act(race, s1, 0, AppendStart);
  }

  /** The priming goroutine sends the start query, and what follows from the start object. */
  lemma Primes(race: Race) returns (s: State)
    requires RaceOk(race)
    ensures Scene(race, s, [ItemAt(race, First), ItemAt(race, Onward(Origin))], 2, Reach(0, 1))
    ensures AllClaimed(s.sh.nodes) && AtRest(s.threads[0]) && s.threads[0].pc.Waiting?
    ensures forall t :: 1 <= t < 3 ==> s.threads[t].pc.Idle? && Clean(s.threads[t])
  {
    hide Calm, SeenWithin, IsWalk, NamesApart, WalkEnd;
    var next := Onward(Origin);
    var start, second := [ItemAt(race, First)], ItemAt(race, next);
    var s0 := Begins(race);
    var s1 := SendOne(race, s0, 0, ItemAt(race, First), First, [], 1, Reach(-1, 0));
    assert [] + start == start;
    var s2 := Act(race, s1, 0, EndPriming);
    var s3 := Expand(race, s2, 0, Origin, start, 2, Reach(0, 0));
    var s4 := SendOne(race, s3, 0, second, next, start, 2, Reach(0, 0));
    assert start + [second] == [ItemAt(race, First), second];
    s := WindDown(race, s4, 0, Origin, start + [second], 3, Reach(0, 1));
  }

  /** One worker relays both walks, in turn. */
  lemma {:induction false} Alternates(race: Race, i: nat) returns (s: State)
    requires RaceOk(race) && i <= |race.short| && i < race.depth
    ensures Scene(race, s, [ItemAt(race, Mark(true, i)), ItemAt(race, Mark(false, i + 1))], 2, Reach(i, i + 1))
    ensures AllClaimed(s.sh.nodes) && s.threads[0].pc.Waiting?
    ensures forall t :: 1 <= t < 3 ==> s.threads[t].pc.Idle? && Clean(s.threads[t])
    decreases i
  {
    hide Calm, SeenWithin, AllClaimed, ItemAt, IsWalk, NamesApart, WalkEnd;
    if i == 0 {
      s := Primes(race);
    } else {
      var a, b := Mark(true, i - 1), Mark(false, i);
      var s0 := Alternates(race, i - 1);
      assert [ItemAt(race, a), ItemAt(race, b)] == [ItemAt(race, a)] + [ItemAt(race, b)];
      var s1 := Relay(race, s0, 1, a, [ItemAt(race, b)], 2, Reach(i - 1, i));
      s := Relay(race, s1, 1, b, [ItemAt(race, Onward(a))], 2, Reach(i, i));
      var a', b' := ItemAt(race, Onward(a)), ItemAt(race, Onward(b));
      assert [a'] + [b'] == [a', b'];
    }
  }

  /** It takes a query of the short walk and pauses; the other worker goes on along the long walk. */
  lemma {:induction false} Overtakes(race: Race, i: nat, j: nat) returns (s: State)
    requires RaceOk(race) && i <= |race.short| && i < j <= race.depth
    ensures Scene(race, s, [ItemAt(race, Mark(false, j))], 2, Reach(i, j)) && AllClaimed(s.sh.nodes)
    ensures s.threads[0].pc.Waiting?
    ensures s.threads[1].pc.Passed? && Clean(s.threads[1]) && s.threads[1].job == Some(ItemAt(race, Mark(true, i)))
    ensures s.threads[2].pc.Idle? && Clean(s.threads[2])
    decreases j
  {
    hide Calm, SeenWithin, AllClaimed, ItemAt, IsWalk, NamesApart, WalkEnd;
    if j == i + 1 {
      var a, b := Mark(true, i), Mark(false, j);
      var s0 := Alternates(race, i);
      assert [ItemAt(race, a), ItemAt(race, b)] == [ItemAt(race, a)] + [ItemAt(race, b)];
      s := Receive(race, s0, 1, ItemAt(race, a), a, [ItemAt(race, b)], 2, Reach(i, j));
    } else {
      var b := Mark(false, j - 1);
      var s0 := Overtakes(race, i, j - 1);
      assert [ItemAt(race, b)] == [ItemAt(race, b)] + [];
      s := Relay(race, s0, 2, b, [], 2, Reach(i, j - 1));
      assert [] + [ItemAt(race, Onward(b))] == [ItemAt(race, Mark(false, j))];
    }
  }

  /** Position `i` of the short walk is at the class of position `depth` of the long walk, and of the
      queries there only the one at `m` finds something. */
  predicate Crosses(race: Race, i: nat, m: Mark) {
    var a, b := Mark(true, i), Mark(false, race.depth);
    && i < race.depth && i <= |race.short| && ClassAt(race, a) == ClassAt(race, b)
    && (m == a || m == b) && HasLine(race, m) && !HasLine(race, if m == a then b else a)
  }

  /** Both workers have recorded their results and are about to claim the one object found. */
  lemma Meets(race: Race, i: nat, m: Mark) returns (s: State)
    requires RaceOk(race) && Crosses(race, i, m)
    ensures Scene(race, s, [], 2, Reach(i, race.depth)) && OneLeft(race, s.sh.nodes, ClassAt(race, m), m)
    ensures s.threads[0].pc.Waiting?
    ensures forall t :: 1 <= t < 3 ==>
              var th := s.threads[t]; th.pc.Claiming? && Clean(th) && th.job.Some? && th.cls == ClassAt(race, m)
    ensures s.threads[1].depth == i + 1 && s.threads[2].depth == race.depth + 1
  {
    hide Calm, SeenWithin, IsWalk, NamesApart, WalkEnd;
    var a, b, reach := Mark(true, i), Mark(false, race.depth), Reach(i, race.depth);
    var first, second := ItemAt(race, a), ItemAt(race, b);
    var s0 := Overtakes(race, i, race.depth);
    assert [second] == [second] + [];
    var s1, count1 := Fetch(race, s0, 1, first, a, [second], 2, reach);
    var s2 := Receive(race, s1, 2, second, b, [], 2, reach);
    var count2;
    s, count2 := Fetch(race, s2, 2, second, b, [], 2, reach);
  }

  /** A worker that finds nothing left to claim gives its token back. */
  lemma Rests(race: Race, s: State, t: nat, m: Mark, queue: seq<Item>, wg: int, reach: Reach) returns (s': State)
    requires RaceOk(race) && Scene(race, s, queue, wg, reach) && t < 3 && AllClaimed(s.sh.nodes)
    requires s.threads[t].pc.Claiming? && s.threads[t].job.Some? && Clean(s.threads[t])
    requires s.threads[t].cls == ClassAt(race, m)
    ensures Scene(race, s', queue, wg - 1, reach) && AllClaimed(s'.sh.nodes)
    ensures s'.threads == s.threads[t := s'.threads[t]] && s'.threads[t].pc.Idle? && Clean(s'.threads[t])
  {
    hide Calm, RaceEnv, SeenWithin, IsWalk, NamesApart, WalkEnd, NodeClasses;
    Tables(race, s);
    ClassKnown(race, m);
    var s1 := Act(race, s, t, Claim);
    s' := Act(race, s1, t, Done);
  }

  /** And the search ends. */
  lemma Ends(race: Race, s: State, reach: Reach) returns (s': State)
    requires Scene(race, s, [], 0, reach) && s.threads[0].pc.Waiting?
    ensures Reachable(RaceEnv(race), s') && ShuttingDown(s') && !s'.sh.cancelled && |s'.threads| == 3
    ensures s'.sh.seen == s.sh.seen
  {
    hide Reachable, RaceEnv, SeenWithin;
    s' := Act(race, s, 0, WaitDone);
  }

  /** The worker from the long walk claims what was found on the short one, and drops what follows as too
      deep. */
  lemma Misses(race: Race, i: nat) returns (s: State)
    requires RaceOk(race) && Crosses(race, i, Mark(true, i))
    ensures Reachable(RaceEnv(race), s) && ShuttingDown(s) && !s.sh.cancelled && |s.threads| == 3
    ensures QueryAt(race, Mark(true, i + 1)) !in s.sh.seen
  {
    hide Calm, NodeClasses, IsWalk, WalkEnd, ShuttingDown, Reachable;
    var m, reach := Mark(true, i), Reach(i, race.depth);
    var s0 := Meets(race, i, m);
    var s1 := Expand(race, s0, 2, m, [], 2, reach);
    var s2 := Act(race, s1, 2, Drop);
    var s3 := WindDown(race, s2, 2, m, [], 2, reach);
    var s4 := Rests(race, s3, 1, m, [], 1, reach);
    s := Ends(race, s4, reach);
  }

  /** The worker from the short walk claims what was found at the end of the depth, and admits what follows. */
  lemma Admits(race: Race, i: nat) returns (s: State, it: Item)
    requires RaceOk(race) && Crosses(race, i, Mark(false, race.depth))
    ensures IsItem(race, it, Mark(false, race.depth + 1))
    ensures Scene(race, s, [it], 2, Reach(i, race.depth + 1)) && AllClaimed(s.sh.nodes) && s.threads[0].pc.Waiting?
    ensures s.threads[1].pc.Idle? && Clean(s.threads[1])
    ensures s.threads[2].pc.Claiming? && s.threads[2].job.Some? && Clean(s.threads[2])
    ensures s.threads[2].cls == ClassAt(race, Mark(false, race.depth))
  {
    hide Calm, NodeClasses, IsWalk, WalkEnd, SeenWithin;
    var m, reach := Mark(false, race.depth), Reach(i, race.depth);
    var next, reach' := Onward(m), Reach(i, race.depth + 1);
    it := ItemAt(race, next).(depth := i + 1);
    var s0 := Meets(race, i, m);
    var s1 := Expand(race, s0, 1, m, [], 2, reach);
    var s2 := SendOne(race, s1, 1, it, next, [], 2, reach);
    assert [] + [it] == [it];
    s := WindDown(race, s2, 1, m, [it], 3, reach');
  }

  /** The query admitted is at the end of its walk, so that the search ends. */
  lemma Adds(race: Race, i: nat) returns (s: State)
    requires RaceOk(race) && Crosses(race, i, Mark(false, race.depth)) && |race.long| == race.depth + 1
    ensures Reachable(RaceEnv(race), s) && ShuttingDown(s) && !s.sh.cancelled && |s.threads| == 3
    ensures QueryAt(race, Mark(false, race.depth + 1)) in s.sh.seen
  {
    hide Calm, NodeClasses, IsWalk, WalkEnd, ShuttingDown, Reachable;
    var last, reach := Mark(false, race.depth + 1), Reach(i, race.depth + 1);
    var s0, it := Admits(race, i);
    assert [it] == [it] + [];
    var s1 := Rests(race, s0, 2, Mark(false, race.depth), [it], 2, reach);
    var s2 := Receive(race, s1, 1, it, last, [], 1, reach);
    var s3, count := Fetch(race, s2, 1, it, last, [], 1, reach);
    var s4 := Rests(race, s3, 1, last, [], 1, reach);
    s := Ends(race, s4, reach);
  }

  // ---- which searches are exact ----------------------------------------------------------------------------------

  lemma WalkGoesOn(lines: map<LineKey, nat>, start: Class, walk: seq<LineKey>, k: LineKey)
    requires IsWalk(lines, start, walk) && k in lines && k.start == WalkEnd(start, walk)
    ensures IsWalk(lines, start, walk + [k])
  {
    var walk' := walk + [k];
    forall i | 0 <= i < |walk'| ensures walk'[i] in lines && walk'[i].start == WalkEnd(start, walk'[..i]) {
      if i < |walk| { assert walk'[..i] == walk[..i]; } else { assert walk'[..i] == walk; }
    }
  }

  lemma {:induction false} LongWalk(lines: map<LineKey, nat>, start: Class, c: Class, n: nat)
    returns (walk: seq<LineKey>)
    requires ExactHops(lines, start, c, n)
    ensures IsWalk(lines, start, walk) && |walk| == n && WalkEnd(start, walk) == c
    decreases n
  {
    if n == 0 {
      walk := [];
    } else {
      var k :| k in lines && k.goal == c && ExactHops(lines, start, k.start, n - 1);
      walk := LongWalk(lines, start, k.start, n - 1);
      WalkGoesOn(lines, start, walk, k);
      walk := walk + [k];
    }
  }

  /** A class fewer than `depth` lines away is reached in scope. */
  lemma {:induction false} ShortWalk(lines: map<LineKey, nat>, start: Class, depth: nat, c: Class, n: nat)
    returns (walk: seq<LineKey>)
    requires WithinHops(lines, start, c, n) && n <= depth
    ensures IsWalk(NeighborScope(lines, start, depth), start, walk) && |walk| <= n && WalkEnd(start, walk) == c
    decreases n
  {
    if n == 0 {
      walk := [];
    } else if WithinHops(lines, start, c, n - 1) {
      walk := ShortWalk(lines, start, depth, c, n - 1);
    } else {
      var k :| k in lines && k.goal == c && WithinHops(lines, start, k.start, n - 1);
      walk := ShortWalk(lines, start, depth, k.start, n - 1);
      HopsGrow(lines, start, k.start, n - 1, depth - 1);
      WalkGoesOn(NeighborScope(lines, start, depth), start, walk, k);
      walk := walk + [k];
    }
  }

  /** Two walks that end at one class, where a line goes on: one of `depth` lines, and a shorter one. */
  lemma TwoWalks(lines: map<LineKey, nat>, start: Class, depth: nat)
    returns (short: seq<LineKey>, long: seq<LineKey>, k: LineKey)
    requires !Levelled(NeighborScope(lines, start, depth), start, depth)
    ensures var scope := NeighborScope(lines, start, depth);
            IsWalk(scope, start, short) && IsWalk(scope, start, long) && k in scope
    ensures WalkEnd(start, short) == WalkEnd(start, long) == k.start && |short| < depth == |long|
  {
    var scope := NeighborScope(lines, start, depth);
    k :| k in scope && ExactHops(scope, start, k.start, depth);
    long := LongWalk(scope, start, k.start, depth);
    short := ShortWalk(lines, start, depth, k.start, depth - 1);
  }

  lemma EndsAt(race: Race, m: Mark)
    requires m.at <= |Walk(race, m)|
    ensures ClassAt(race, m) == WalkEnd(race.start, Walk(race, m)[..m.at])
  {
  }

  /** Some data for a search over these rules from this class, without a query limit. */
  ghost predicate IsSearch(lines: map<LineKey, nat>, start: Class, env: Env) {
    env.lines == lines && env.startClass == start && ValidEnv(env) && RespectsIds(env) && env.limit <= 0
  }

  /** Over any rules that are not levelled there is a search which two workers can end, uncancelled, without
      a query that is derivable within the depth. */
  lemma PoolMayMissQueries(lines: map<LineKey, nat>, start: Class, depth: nat, names: Naming)
    returns (env: Env, s: State, q: Query)
    requires NamesApart(names) && !Levelled(NeighborScope(lines, start, depth), start, depth)
    ensures IsSearch(lines, start, env)
    ensures Reachable(Scoped(env, depth), s) && ShuttingDown(s) && !s.sh.cancelled && |s.threads| == 3
    ensures DerivedQuery(env, q, depth) && q !in s.sh.seen
  {
    hide Reachable, ShuttingDown, Levelled;
    var short, long, k := TwoWalks(lines, start, depth);
    var i, scope := |short|, NeighborScope(lines, start, depth);
    WalkGoesOn(scope, start, short, k);
    var race := Race(scope, start, depth, short + [k], long, names);
    assert race.short[..i] == short && race.long[..depth] == long;
    EndsAt(race, Mark(true, i));
    EndsAt(race, Mark(false, depth));
    env := RaceEnv(race).(lines := lines);
    assert Scoped(env, depth) == RaceEnv(race);
    s := Misses(race, i);
    q := QueryAt(race, Mark(true, i + 1));
    ShortDerived(race, i + 1);
    DerivedMonotone(RaceEnv(race), q, i + 1, depth);
    ScopeLosesNoQuery(env, depth, q, depth);
  }

  /** And one which two workers can end, uncancelled, with a query that is not derivable within the depth. */
  lemma PoolMayAddQueries(lines: map<LineKey, nat>, start: Class, depth: nat, names: Naming)
    returns (env: Env, s: State, q: Query)
    requires NamesApart(names) && !Levelled(NeighborScope(lines, start, depth), start, depth)
    ensures IsSearch(lines, start, env)
    ensures Reachable(Scoped(env, depth), s) && ShuttingDown(s) && !s.sh.cancelled && |s.threads| == 3
    ensures q in s.sh.seen && !DerivedQuery(env, q, depth)
  {
    hide Reachable, ShuttingDown, Levelled;
    var short, long, k := TwoWalks(lines, start, depth);
    var i, scope := |short|, NeighborScope(lines, start, depth);
    WalkGoesOn(scope, start, long, k);
    var race := Race(scope, start, depth, short, long + [k], names);
    assert race.short[..i] == short && race.long[..depth] == long;
    EndsAt(race, Mark(true, i));
    EndsAt(race, Mark(false, depth));
    env := RaceEnv(race).(lines := lines);
    assert Scoped(env, depth) == RaceEnv(race);
    s := Adds(race, i);
    q := QueryAt(race, Mark(false, depth + 1));
    if DerivedQuery(env, q, depth) {
      ScopeLosesNoQuery(env, depth, q, depth);
      NotSooner(race, q, depth);
    }
  }

  /** Neighbourhood searches by any number of workers are exact, whatever the data and the interleaving,
      exactly if no rule in scope starts where a walk of `depth` rules in scope ends. */
  lemma WhenPoolsAreExact(lines: map<LineKey, nat>, start: Class, depth: nat, names: Naming)
    requires NamesApart(names)
    ensures Levelled(NeighborScope(lines, start, depth), start, depth) <==>
            forall env :: IsSearch(lines, start, env) ==> PoolIsExact(env, depth)
  {
    hide Reachable, ShuttingDown, RespectsIds, ValidEnv, Levelled;
    if Levelled(NeighborScope(lines, start, depth), start, depth) {
      forall env | IsSearch(lines, start, env) ensures PoolIsExact(env, depth) {
        LevelledIsExact(env, depth);
      }
    } else {
      var env, s, q := PoolMayMissQueries(lines, start, depth, names);
      assert !HoldsNear(env, depth, s);
    }
  }

  /** The smallest such case: one rule from a class to itself, followed once. */
  lemma LoopIsNotLevelled(c: Class, r: Rule)
    ensures var k := LineKey(c, r, c); !Levelled(NeighborScope(map[k := 0], c, 1), c, 1)
  {
    var k := LineKey(c, r, c);
    var scope := NeighborScope(map[k := 0], c, 1);
    assert k in scope && ExactHops(scope, c, k.start, 0);
    assert ExactHops(scope, c, c, 1);
  }
}

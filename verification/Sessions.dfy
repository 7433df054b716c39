/** The session pool with concurrent callers: once-entries in a shared table, replaced by
    compare-and-swap after a failure. One step per atomic operation of a `Get`. */
module Sessions {
  import opened Correlation

  // Session keys are opaque: only equality is used.
  type User(==, !new)

  datatype Once = Fresh | Running | Failed | Ready

  /** An entry, the key it was stored under, and the progress of its `once`. The session of a ready
      entry is identified with the entry. */
  datatype Entry = Entry(owner: User, once: Once)

  datatype Pc =
    | Waiting   // has its entry; in once.Do or about to call it
    | Making    // running the factory inside once.Do
    | Swapping  // saw the entry's error; about to compare and swap
    | Using     // saw the entry's session; about to return it

  /** A `Get` in progress. `known` is history: the session the table held when the `Get` began. */
  datatype Call = Call(id: User, entry: nat, pc: Pc, known: Option<nat>)

  /** A finished `Get`, with the session returned if there was no error. */
  datatype Answer = Answer(id: User, known: Option<nat>, session: Option<nat>)

  /** Entries in the order they were allocated, the table, the calls in progress, and history: the
      entries the factory was started for, and the answers given. */
  datatype State = State(
    entries: seq<Entry>,
    table: map<User, nat>,
    calls: map<nat, Call>,
    starts: seq<nat>,
    answers: seq<Answer>)

  datatype Step =
    | Load(caller: nat, id: User)        // LoadOrStore
    | Enter(caller: nat)               // first into once.Do
    | Make(caller: nat, ok: bool)      // the factory returns, once.Do completes
    | Await(caller: nat)               // once.Do returns because it is complete
    | Swap(caller: nat)                // CompareAndSwap, return the error
    | Use(caller: nat)                 // return the session
    | Expire(id: User)                   // cleanup deletes a key: any key at any time

  const START: State := State([], map[], map[], [], [])

  predicate At(s: State, caller: nat, pc: Pc) {
    caller in s.calls && s.calls[caller].pc == pc && s.calls[caller].entry < |s.entries|
  }

  function OnceOf(s: State, caller: nat): Once
    requires caller in s.calls && s.calls[caller].entry < |s.entries|
  {
    s.entries[s.calls[caller].entry].once
  }

  predicate Enabled(s: State, step: Step, cleanup: bool) {
    match step
    case Load(caller, id) => caller !in s.calls
    case Enter(caller) => At(s, caller, Waiting) && OnceOf(s, caller).Fresh?
    case Make(caller, _) => At(s, caller, Making)
    case Await(caller) => At(s, caller, Waiting) && (OnceOf(s, caller).Failed? || OnceOf(s, caller).Ready?)
    case Swap(caller) => At(s, caller, Swapping)
    case Use(caller) => At(s, caller, Using)
    case Expire(id) => cleanup && id in s.table
  }

  /** The session the table holds for a key. */
  function SessionFor(s: State, id: User): Option<nat> {
    if id in s.table && s.table[id] < |s.entries| && s.entries[s.table[id]].once.Ready? then Some(s.table[id]) else None
  }

  function SetOnce(entries: seq<Entry>, e: nat, once: Once): seq<Entry>
    requires e < |entries|
  {
    entries[e := entries[e].(once := once)]
  }

  function Answered(s: State, caller: nat, session: Option<nat>): State
    requires caller in s.calls
  {
    var call := s.calls[caller];
    s.(calls := s.calls - {caller}, answers := s.answers + [Answer(call.id, call.known, session)])
  }

  function Do(s: State, step: Step, cleanup: bool): State
    requires Enabled(s, step, cleanup)
  {
    match step
    case Load(caller, id) =>
      if id in s.table then s.(calls := s.calls[caller := Call(id, s.table[id], Waiting, SessionFor(s, id))])
      else s.(entries := s.entries + [Entry(id, Fresh)], table := s.table[id := |s.entries|],
              calls := s.calls[caller := Call(id, |s.entries|, Waiting, None)])
    case Enter(caller) =>
      var call := s.calls[caller];
      s.(entries := SetOnce(s.entries, call.entry, Running), calls := s.calls[caller := call.(pc := Making)],
         starts := s.starts + [call.entry])
    case Make(caller, ok) =>
      var call := s.calls[caller];
      s.(entries := SetOnce(s.entries, call.entry, if ok then Ready else Failed),
         calls := s.calls[caller := call.(pc := if ok then Using else Swapping)])
    case Await(caller) =>
      s.(calls := s.calls[caller := s.calls[caller].(pc := if OnceOf(s, caller).Ready? then Using else Swapping)])
    case Swap(caller) =>
      var call := s.calls[caller];
      var s' := Answered(s, caller, None);
      if call.id in s.table && s.table[call.id] == call.entry
      then s'.(entries := s.entries + [Entry(call.id, Fresh)], table := s.table[call.id := |s.entries|])
      else s'
    case Use(caller) => Answered(s, caller, Some(s.calls[caller].entry))
    case Expire(id) => s.(table := s.table - {id})
  }

  ghost predicate Next(s: State, s': State, cleanup: bool) {
    exists step {:trigger Enabled(s, step, cleanup)} :: Enabled(s, step, cleanup) && s' == Do(s, step, cleanup)
  }

  ghost predicate IsRun(run: seq<State>, cleanup: bool) {
    run != [] && run[0] == START && forall i :: 0 < i < |run| ==> Next(run[i - 1], run[i], cleanup)
  }

  // ---- invariants ---------------------------------------------------------------------------------------

  predicate IsEntry(s: State, id: User, e: nat) { e < |s.entries| && s.entries[e].owner == id }

  /** The call's position fits its entry. */
  predicate CallOk(s: State, call: Call) {
    && IsEntry(s, call.id, call.entry)
    && var once := s.entries[call.entry].once;
    && (call.pc.Making? ==> once.Running?) && (call.pc.Swapping? ==> once.Failed?) && (call.pc.Using? ==> once.Ready?)
    && (call.known.Some? ==> call.known.value == call.entry && once.Ready?)
  }

  /** A session returned for a key was made for it, and it is the one known when the `Get` began, if any. */
  predicate AnswerOk(s: State, a: Answer) {
    && (a.session.Some? ==> IsEntry(s, a.id, a.session.value) && s.entries[a.session.value].once.Ready?)
    && (a.known.Some? ==> a.session == a.known)
  }

  /** No two calls make the same entry. */
  predicate OneMakerEach(s: State) {
    forall c, d :: c in s.calls && d in s.calls && c != d && s.calls[c].pc.Making? && s.calls[d].pc.Making? ==>
      s.calls[c].entry != s.calls[d].entry
  }

  predicate Ok(s: State) {
    && (forall id :: id in s.table ==> IsEntry(s, id, s.table[id]))
    && (forall c :: c in s.calls ==> CallOk(s, s.calls[c]))
    && OneMakerEach(s)
    && (forall a :: a in s.answers ==> AnswerOk(s, a))
  }

  /** The factory was started once for every entry past Fresh. */
  predicate StartsOk(s: State) {
    && (forall e :: e in s.starts ==> e < |s.entries|)
    && (forall e: nat :: e < |s.entries| ==> multiset(s.starts)[e] == if s.entries[e].once.Fresh? then 0 else 1)
  }

  /** Without cleanup, every entry that did not fail is in the table. */
  predicate Kept(s: State) {
    forall e :: 0 <= e < |s.entries| && !s.entries[e].once.Failed? ==>
      s.entries[e].owner in s.table && s.table[s.entries[e].owner] == e
  }

  /** Entries keep their owners, and once complete they never change. */
  predicate Settled(entries: seq<Entry>, entries': seq<Entry>) {
    && |entries| <= |entries'|
    && forall e :: 0 <= e < |entries| ==>
         entries'[e].owner == entries[e].owner
         && (entries[e].once.Ready? || entries[e].once.Failed? ==> entries'[e] == entries[e])
  }

  lemma SettledStep(s: State, step: Step, cleanup: bool)
    requires Ok(s) && Enabled(s, step, cleanup)
    ensures Settled(s.entries, Do(s, step, cleanup).entries)
  {
  }

  lemma AnswersStep(s: State, step: Step, cleanup: bool)
    requires Ok(s) && Enabled(s, step, cleanup)
    ensures forall a :: a in Do(s, step, cleanup).answers ==> AnswerOk(Do(s, step, cleanup), a)
  {
    SettledStep(s, step, cleanup);
    var s' := Do(s, step, cleanup);
    forall a | a in s'.answers ensures AnswerOk(s', a) {
      if a in s.answers { assert AnswerOk(s, a); }
    }
  }

  lemma CallsStep(s: State, step: Step, cleanup: bool)
    requires Ok(s) && Enabled(s, step, cleanup)
    ensures forall c :: c in Do(s, step, cleanup).calls ==> CallOk(Do(s, step, cleanup), Do(s, step, cleanup).calls[c])
  {
    var s' := Do(s, step, cleanup);
    forall c | c in s'.calls ensures CallOk(s', s'.calls[c]) {
      if c in s.calls { assert CallOk(s, s.calls[c]); }
    }
  }

  lemma TableStep(s: State, step: Step, cleanup: bool)
    requires Ok(s) && Enabled(s, step, cleanup)
    ensures var s' := Do(s, step, cleanup);
            OneMakerEach(s') && forall id :: id in s'.table ==> IsEntry(s', id, s'.table[id])
  {
    hide AnswerOk;
  }

  lemma OkStep(s: State, step: Step, cleanup: bool)
    requires Ok(s) && Enabled(s, step, cleanup)
    ensures Ok(Do(s, step, cleanup))
  {
    TableStep(s, step, cleanup);
    hide CallOk, AnswerOk, IsEntry;
    CallsStep(s, step, cleanup);
    AnswersStep(s, step, cleanup);
  }

  lemma StartsStep(s: State, step: Step, cleanup: bool)
    requires Ok(s) && StartsOk(s) && Enabled(s, step, cleanup)
    ensures StartsOk(Do(s, step, cleanup))
  {
    var s' := Do(s, step, cleanup);
    forall e: nat | e < |s'.entries| ensures multiset(s'.starts)[e] == if s'.entries[e].once.Fresh? then 0 else 1 {
      if e == |s.entries| { assert e !in s.starts; }
    }
  }

  predicate Makes(s: State, c: nat, e: nat) { c in s.calls && s.calls[c].pc.Making? && s.calls[c].entry == e }

  /** Some call is running the factory for every entry whose `once` is under way. */
  ghost predicate Manned(s: State) {
    forall e: nat :: e < |s.entries| && s.entries[e].once.Running? ==> exists c :: Makes(s, c, e)
  }

  lemma MannedStep(s: State, step: Step, cleanup: bool)
    requires Ok(s) && Manned(s) && Enabled(s, step, cleanup)
    ensures Manned(Do(s, step, cleanup))
  {
    var s' := Do(s, step, cleanup);
    forall e: nat | e < |s'.entries| && s'.entries[e].once.Running? ensures exists c :: Makes(s', c, e) {
      if step.Enter? && e == s.calls[step.caller].entry {
        assert Makes(s', step.caller, e);
      } else {
        var c :| Makes(s, c, e);
        assert Makes(s', c, e);
      }
    }
  }

  lemma KeptStep(s: State, step: Step)
    requires Ok(s) && Kept(s) && Enabled(s, step, false)
    ensures Kept(Do(s, step, false))
  {
  }

  ghost predicate Invariant(s: State, cleanup: bool) { Ok(s) && StartsOk(s) && Manned(s) && (!cleanup ==> Kept(s)) }

  lemma InvariantStep(s: State, step: Step, cleanup: bool)
    requires Invariant(s, cleanup) && Enabled(s, step, cleanup)
    ensures Invariant(Do(s, step, cleanup), cleanup)
  {
    OkStep(s, step, cleanup);
    StartsStep(s, step, cleanup);
    MannedStep(s, step, cleanup);
    if !cleanup { KeptStep(s, step); }
  }

  lemma {:induction false} Along(run: seq<State>, i: nat, cleanup: bool)
    requires IsRun(run, cleanup) && i < |run|
    ensures Invariant(run[i], cleanup)
    decreases i
  {
    if i > 0 {
      Along(run, i - 1, cleanup);
      assert Next(run[i - 1], run[i], cleanup);
      var step :| Enabled(run[i - 1], step, cleanup) && run[i] == Do(run[i - 1], step, cleanup);
      InvariantStep(run[i - 1], step, cleanup);
    }
  }

  lemma {:induction false} SettledAlong(run: seq<State>, i: nat, j: nat, cleanup: bool)
    requires IsRun(run, cleanup) && i <= j < |run|
    ensures Settled(run[i].entries, run[j].entries)
    decreases j
  {
    if i < j {
      SettledAlong(run, i, j - 1, cleanup);
      Along(run, j - 1, cleanup);
      assert Next(run[j - 1], run[j], cleanup);
      var step :| Enabled(run[j - 1], step, cleanup) && run[j] == Do(run[j - 1], step, cleanup);
      SettledStep(run[j - 1], step, cleanup);
    }
  }

  // ---- main results -------------------------------------------------------------------------------------

  /** The factory is started at most once per entry, even with cleanup on, and exactly once for an
      entry that has a session. */
  lemma FactoryOncePerEntry(run: seq<State>, i: nat, cleanup: bool, e: nat)
    requires IsRun(run, cleanup) && i < |run|
    ensures multiset(run[i].starts)[e] <= 1
    ensures e < |run[i].entries| && run[i].entries[e].once.Ready? ==> multiset(run[i].starts)[e] == 1
  {
    Along(run, i, cleanup);
    if e !in run[i].starts { assert multiset(run[i].starts)[e] == 0; }
  }

  /** Only cleanup takes an entry that did not fail out of the table: a caller that saw an older entry
      fail never evicts it. */
  lemma StaleFailureHarmless(run: seq<State>, i: nat, cleanup: bool, step: Step, id: User)
    requires IsRun(run, cleanup) && i < |run| && Enabled(run[i], step, cleanup) && !step.Expire?
    requires id in run[i].table && run[i].table[id] < |run[i].entries| && !run[i].entries[run[i].table[id]].once.Failed?
    ensures id in Do(run[i], step, cleanup).table && Do(run[i], step, cleanup).table[id] == run[i].table[id]
  {
    Along(run, i, cleanup);
    if step.Swap? { assert CallOk(run[i], run[i].calls[step.caller]); }
  }

  /** A `Get` that began when its key had a session returns that session, even with cleanup on, and no
      `Get` returns a session made for another key. */
  lemma AnswersMatch(run: seq<State>, i: nat, cleanup: bool, a: Answer)
    requires IsRun(run, cleanup) && i < |run| && a in run[i].answers
    ensures a.known.Some? ==> a.session == a.known
    ensures a.session.Some? ==> IsEntry(run[i], a.id, a.session.value)
  {
    Along(run, i, cleanup);
  }

  /** With cleanup off, all successful Gets of a key return one session. */
  lemma OneSessionPerKey(run: seq<State>, i: nat, a: Answer, b: Answer)
    requires IsRun(run, false) && i < |run| && a in run[i].answers && b in run[i].answers
    requires a.id == b.id && a.session.Some? && b.session.Some?
    ensures a.session == b.session
  {
    Along(run, i, false);
    assert AnswerOk(run[i], a) && AnswerOk(run[i], b);
  }

  /** With cleanup off, once a `Get` of a key has returned a session, the table holds that session ever
      after: every `Get` that begins later knows it, and so returns it. */
  lemma SessionsStay(run: seq<State>, i: nat, j: nat, a: Answer)
    requires IsRun(run, false) && i <= j < |run| && a in run[i].answers && a.session.Some?
    ensures SessionFor(run[j], a.id) == a.session
    ensures forall caller: nat :: caller !in run[j].calls ==>
              Do(run[j], Load(caller, a.id), false).calls[caller] == Call(a.id, a.session.value, Waiting, a.session)
  {
    Along(run, i, false);
    Along(run, j, false);
    SettledAlong(run, i, j, false);
    assert AnswerOk(run[i], a);
    assert run[j].entries[a.session.value] == run[i].entries[a.session.value];
  }

  /** The factory decides: if it succeeds its entry has a session from then on, and the caller returns it; if it
      fails the entry never has one, and the caller returns none. */
  lemma FactoryDecides(run: seq<State>, i: nat, j: nat, cleanup: bool, caller: nat, ok: bool)
    requires IsRun(run, cleanup) && i < j < |run| && Enabled(run[i], Make(caller, ok), cleanup)
    requires run[i + 1] == Do(run[i], Make(caller, ok), cleanup)
    ensures var e := run[i].calls[caller].entry;
            && e < |run[j].entries| && run[j].entries[e].once == (if ok then Ready else Failed)
            && (!ok ==> forall a :: a in run[j].answers ==> a.session != Some(e))
            && run[i + 1].calls[caller].pc == (if ok then Using else Swapping)
  {
    Along(run, j, cleanup);
    Along(run, i, cleanup);
    SettledAlong(run, i + 1, j, cleanup);
    var e := run[i].calls[caller].entry;
    assert run[j].entries[e] == run[i + 1].entries[e];
  }

  /** A caller about to return the session of its entry returns that one, and one that saw its entry fail
      returns none. */
  lemma AnswersGiven(run: seq<State>, i: nat, cleanup: bool, caller: nat)
    requires IsRun(run, cleanup) && i < |run| && caller in run[i].calls
    ensures var s, call := run[i], run[i].calls[caller];
            && (Enabled(s, Use(caller), cleanup) ==>
                  s.entries[call.entry].once.Ready? && Do(s, Use(caller), cleanup).calls == s.calls - {caller}
                  && Do(s, Use(caller), cleanup).answers == s.answers + [Answer(call.id, call.known, Some(call.entry))])
            && (Enabled(s, Swap(caller), cleanup) ==>
                  s.entries[call.entry].once.Failed? && Do(s, Swap(caller), cleanup).calls == s.calls - {caller}
                  && Do(s, Swap(caller), cleanup).answers == s.answers + [Answer(call.id, call.known, None)])
  {
    Along(run, i, cleanup);
    assert CallOk(run[i], run[i].calls[caller]);
  }

  /** A caller whose entry failed leaves a fresh one in its place, if the failed one is still there: the next `Get`
      of the key starts on it, and may run the factory again. */
  lemma FreshAfterFailure(run: seq<State>, i: nat, cleanup: bool, caller: nat, next: nat)
    requires IsRun(run, cleanup) && i < |run| && Enabled(run[i], Swap(caller), cleanup)
    requires var call := run[i].calls[caller]; call.id in run[i].table && run[i].table[call.id] == call.entry
    requires next !in run[i].calls
    ensures var s, id := run[i], run[i].calls[caller].id;
            var s' := Do(s, Swap(caller), cleanup);
            && id in s'.table && s'.table[id] == |s.entries| && s'.entries == s.entries + [Entry(id, Fresh)]
            && Enabled(s', Load(next, id), cleanup)
            && Do(s', Load(next, id), cleanup).calls[next] == Call(id, |s.entries|, Waiting, None)
            && Enabled(Do(s', Load(next, id), cleanup), Enter(next), cleanup)
  {
    Along(run, i, cleanup);
  }

  /** While a `Get` is in progress, it or the call it waits for can take a step. */
  lemma NeverStuck(run: seq<State>, i: nat, cleanup: bool, caller: nat)
    requires IsRun(run, cleanup) && i < |run| && caller in run[i].calls
    ensures exists c, step :: c in run[i].calls && run[i].calls[c].entry == run[i].calls[caller].entry
                              && step in [Enter(c), Make(c, true), Await(c), Swap(c), Use(c)]
                              && Enabled(run[i], step, cleanup)
  {
    Along(run, i, cleanup);
    var s := run[i];
    var call := s.calls[caller];
    assert CallOk(s, call);
    if call.pc.Waiting? && OnceOf(s, caller).Running? {
      var c :| Makes(s, c, call.entry);
      assert Enabled(s, Make(c, true), cleanup);
    } else {
      var step := if call.pc.Using? then Use(caller) else if call.pc.Swapping? then Swap(caller)
                  else if call.pc.Making? then Make(caller, true)
                  else if OnceOf(s, caller).Fresh? then Enter(caller) else Await(caller);
      assert Enabled(s, step, cleanup);
    }
  }
}

/** The store holder: creates a store on demand, resets it when a call on it fails, and paces retries.
    The lock is dropped around the call to the store, so calls of many callers overlap. */
module Stores {
  import opened Correlation

  // Store clients are opaque: only identity is used.
  type Store(==, !new)

  datatype Error = NoConfiguration | Failure(message: string)

  type Config = map<string, string>

  datatype Expansion = Text(value: string) | Malformed(error: Error)

  /** What an attempt to expand the configuration and create a store comes to. */
  datatype Outcome = Made(store: Store) | Failed(error: Error)

  /** The fields of the holder, as a value. */
  datatype Holder = Holder(
    configured: bool,
    store: Option<Store>,
    lastErr: Option<Error>,
    errCount: nat,
    retryAfter: int)

  function RecordError(h: Holder, e: Error): Holder { h.(lastErr := Some(e), errCount := h.errCount + 1) }

  /** Whether `ensureLH` at time `now` goes on to create a store. */
  predicate Attempts(h: Holder, now: int) { h.store.None? && h.configured && now >= h.retryAfter }

  /** `ensureLH`, entered at `now` and, if creation fails, left at `later`: the holder, and the store and
      error returned. */
  function Ensured(h: Holder, now: int, later: int, interval: int, outcome: Outcome)
    : (Holder, Option<Store>, Option<Error>)
  {
    if h.store.Some? then (h, h.store, None)
    else if !h.configured then (h, None, Some(NoConfiguration))
    else if now < h.retryAfter then (h, None, h.lastErr)
    else match outcome
      case Made(store) => (h.(store := Some(store)), Some(store), None)
      case Failed(e) => (RecordError(h, e).(retryAfter := later + interval), None, Some(e))
  }

  /** The end of `Get`, with the lock held again, for a call on `used` that came back with `err`. */
  function Returned(h: Holder, used: Store, err: Option<Error>, now: int, interval: int): Holder {
    if err.Some? && h.store == Some(used) && h.configured
    then RecordError(h, err.value).(store := None, retryAfter := now + interval)
    else h
  }

  /** Expanding every entry and creating a store can come to `outcome`. */
  ghost predicate CanComeTo(original: Config, expand: string -> Expansion, make: Config -> Outcome, outcome: Outcome) {
    if forall k :: k in original ==> expand(original[k]).Text?
    then outcome == make(map k | k in original :: expand(original[k]).value)
    else exists k :: k in original && expand(original[k]).Malformed? && outcome == Failed(expand(original[k]).error)
  }

  class StoreHolder {
    const original: Option<Config>
    var expanded: Config
    var store: Option<Store>
    var lastErr: Option<Error>
    var errCount: nat
    var retryAfter: int

    function View(): Holder
      reads this
    {
      Holder(original.Some?, store, lastErr, errCount, retryAfter)
    }

    /** `wrap`: exactly one of a configuration and a store is given. */
    constructor (original: Option<Config>, store: Option<Store>)
      requires original.Some? <==> store.None?
      ensures this.original == original && View() == Holder(original.Some?, store, None, 0, 0)
    {
      this.original, this.store := original, store;
      expanded, lastErr, errCount, retryAfter := map[], None, 0, 0;
    }

    method RecordErrorLH(e: Error)
      modifies this`lastErr, this`errCount
      ensures View() == RecordError(old(View()), e) && lastErr == Some(e) && errCount == old(errCount) + 1
    {
      lastErr := Some(e);
      errCount := errCount + 1;
    }

    /** Expands every entry of the configuration, in any order, up to the first that fails. */
    method ExpandConfig(config: Config, expand: string -> Expansion) returns (err: Option<Error>)
      modifies this`expanded
      ensures err.None? ==> (forall k :: k in config ==> expand(config[k]).Text?)
                            && expanded == map k | k in config :: expand(config[k]).value
      ensures err.Some? ==> exists k :: k in config && expand(config[k]) == Malformed(err.value)
    {
      expanded := map[];
      var rest := config.Keys;
      while rest != {}
        invariant rest <= config.Keys && expanded.Keys == config.Keys - rest
        invariant forall k :: k in expanded ==> expand(config[k]) == Text(expanded[k])
        decreases rest
      {
        var k :| k in rest;
        match expand(config[k]) {
          case Malformed(e) => return Some(e);
          case Text(value) => expanded := expanded[k := value];
        }
        rest := rest - {k};
      }
      return None;
    }

    method EnsureLH(now: int, later: int, interval: int, expand: string -> Expansion, make: Config -> Outcome)
      returns (result: Option<Store>, err: Option<Error>, ghost outcome: Outcome)
      modifies this
      ensures (View(), result, err) == Ensured(old(View()), now, later, interval, outcome)
      ensures Attempts(old(View()), now) ==> CanComeTo(original.value, expand, make, outcome)
      ensures Attempts(old(View()), now) && (forall k :: k in original.value ==> expand(original.value[k]).Text?) ==>
                outcome == make(map k | k in original.value :: expand(original.value[k]).value)
      ensures Attempts(old(View()), now) && !(forall k :: k in original.value ==> expand(original.value[k]).Text?) ==>
                exists k :: k in original.value && expand(original.value[k]).Malformed?
                            && outcome == Failed(expand(original.value[k]).error)
      ensures old(store).Some? ==> result == old(store) && err == None && View() == old(View())
      ensures old(store).None? && original.None? ==>
                result == None && err == Some(NoConfiguration) && View() == old(View())
      ensures old(store).None? && original.Some? && now < old(retryAfter) ==>
                result == None && err == old(lastErr) && View() == old(View())
      ensures old(store).None? && original.Some? && now >= old(retryAfter) ==>
                result == store
                && match outcome
                   case Made(s) => store == Some(s) && err == None && lastErr == old(lastErr)
                                   && errCount == old(errCount) && retryAfter == old(retryAfter)
                   case Failed(e) => store == None && err == Some(e) && lastErr == Some(e)
                                     && errCount == old(errCount) + 1 && retryAfter == later + interval
    {
      outcome := Failed(NoConfiguration);
      if store.Some? { return store, None, outcome; }
      if original.None? { return None, Some(NoConfiguration), outcome; }
      if now < retryAfter { return None, lastErr, outcome; }
      err := ExpandConfig(original.value, expand);
      if err.None? {
        var made := make(expanded);
        outcome := made;
        match made {
          case Made(s) => store := Some(s);
          case Failed(e) => err := Some(e);
        }
      } else {
        outcome := Failed(err.value);
      }
      if err.Some? {
        RecordErrorLH(err.value);
        retryAfter := later + interval;
      }
      result := store;
    }

    /** `Get` after the call to the store. */
    method AfterGet(used: Store, err: Option<Error>, now: int, interval: int)
      modifies this
      ensures View() == Returned(old(View()), used, err, now, interval)
      ensures if err.Some? && old(store) == Some(used) && original.Some?
              then store == None && lastErr == err && errCount == old(errCount) + 1 && retryAfter == now + interval
              else View() == old(View())
    {
      if err.Some? && store == Some(used) && original.Some? {
        RecordErrorLH(err.value);
        store := None;
        retryAfter := now + interval;
      }
    }
  }

  // ---- interleaved callers ------------------------------------------------------------------------------

  datatype Event = Attempt(at: int) | Errored(at: int, error: Error)

  /** The holder, the calls in progress with the store each is using, the clock, and history: the stores
      created and reset, the number of failed attempts, and when attempts began and which errors were recorded when. */
  datatype State = State(
    holder: Holder,
    calls: map<nat, Store>,
    clock: int,
    created: seq<Store>,
    resets: seq<Store>,
    failed: nat,
    log: seq<Event>)

  /** One critical section: the start of `Get` by a caller, the end of it, or a call of `Ensure`. */
  datatype Step =
    | Begin(caller: nat, now: int, later: int, outcome: Outcome)
    | End(caller: nat, err: Option<Error>, now: int)
    | Ensure(now: int, later: int, outcome: Outcome)

  /** A holder from `wrap`, with a configuration and no store, or with a store only. */
  function Start(given: Option<Store>): State {
    State(Holder(given.None?, given, None, 0, 0), map[], 0, if given.Some? then [given.value] else [], [], 0, [])
  }

  /** The clock never goes back, and no store is created twice. */
  predicate Enabled(s: State, step: Step) {
    match step
    case Begin(caller, now, later, outcome) =>
      caller !in s.calls && s.clock <= now <= later && (outcome.Made? ==> outcome.store !in s.created)
    case Ensure(now, later, outcome) => s.clock <= now <= later && (outcome.Made? ==> outcome.store !in s.created)
    case End(caller, err, now) => caller in s.calls && s.clock <= now
  }

  /** `ensureLH` and its history. */
  function EnsureStep(s: State, now: int, later: int, interval: int, outcome: Outcome): State {
    var s' := s.(holder := Ensured(s.holder, now, later, interval, outcome).0, clock := later);
    if !Attempts(s.holder, now) then s'
    else match outcome
      case Made(store) => s'.(created := s.created + [store], log := s.log + [Attempt(now)])
      case Failed(e) => s'.(failed := s.failed + 1, log := s.log + [Attempt(now), Errored(later, e)])
  }

  /** The end of `Get` and its history. */
  function EndStep(s: State, used: Store, err: Option<Error>, now: int, interval: int): State {
    var h' := Returned(s.holder, used, err, now, interval);
    var s' := s.(holder := h', clock := now);
    if h' == s.holder || err.None? then s'
    else s'.(resets := s.resets + [used], log := s.log + [Errored(now, err.value)])
  }

  function Do(s: State, step: Step, interval: int): State
    requires Enabled(s, step)
  {
    match step
    case Ensure(now, later, outcome) => EnsureStep(s, now, later, interval, outcome)
    case Begin(caller, now, later, outcome) =>
      var s' := EnsureStep(s, now, later, interval, outcome);
      var result := Ensured(s.holder, now, later, interval, outcome).1;
      if result.Some? then s'.(calls := s.calls[caller := result.value]) else s'
    case End(caller, err, now) =>
      EndStep(s, s.calls[caller], err, now, interval).(calls := s.calls - {caller})
  }

  ghost predicate Next(s: State, s': State, interval: int) {
    exists step {:trigger Enabled(s, step)} :: Enabled(s, step) && s' == Do(s, step, interval)
  }

  ghost predicate IsRun(run: seq<State>, interval: int) {
    && run != [] && (exists given :: run[0] == Start(given))
    && forall i :: 0 < i < |run| ==> Next(run[i - 1], run[i], interval)
  }

  /** The stores were created and reset in turn, and the holder has the last one until it is reset. */
  predicate InTurn(s: State) {
    && s.resets <= s.created
    && |s.created| - |s.resets| == (if s.holder.store.Some? then 1 else 0)
    && (s.holder.store.Some? ==> s.holder.store.value == s.created[|s.created| - 1])
    && (forall i, j :: 0 <= i < j < |s.created| ==> s.created[i] != s.created[j])
    && (forall c :: c in s.calls ==> s.calls[c] in s.created)
  }

  /** Every error was counted, and a holder without a configuration keeps the store it was given. */
  predicate Counted(s: State) {
    && s.holder.errCount == s.failed + |s.resets|
    && (!s.holder.configured ==> s.holder.store.Some? && s.failed == 0 && s.resets == [])
  }

  /** No attempt began sooner than the interval after an error recorded before it. */
  predicate Paced(log: seq<Event>, interval: int) {
    forall i, j :: 0 <= i < j < |log| && log[i].Errored? && log[j].Attempt? ==> log[j].at >= log[i].at + interval
  }

  predicate HasError(log: seq<Event>, at: int) { exists i :: 0 <= i < |log| && log[i].Errored? && log[i].at == at }

  /** The holder refuses attempts until the interval has passed since every recorded error, no longer,
      and it holds an error as long as it refuses. */
  predicate Pacing(h: Holder, log: seq<Event>, clock: int, interval: int) {
    && Paced(log, interval) && clock >= 0
    && (forall i :: 0 <= i < |log| ==> log[i].at <= clock)
    && (forall i :: 0 <= i < |log| && log[i].Errored? ==> h.retryAfter >= log[i].at + interval)
    && (h.retryAfter == 0 || (h.lastErr.Some? && HasError(log, h.retryAfter - interval)))
  }

  lemma EnsureInTurn(s: State, now: int, later: int, interval: int, outcome: Outcome)
    requires InTurn(s) && Counted(s) && (outcome.Made? ==> outcome.store !in s.created)
    ensures InTurn(EnsureStep(s, now, later, interval, outcome))
    ensures Counted(EnsureStep(s, now, later, interval, outcome))
    ensures var result := Ensured(s.holder, now, later, interval, outcome).1;
            result.Some? ==> result.value in EnsureStep(s, now, later, interval, outcome).created
  {
  }

  lemma EndInTurn(s: State, used: Store, err: Option<Error>, now: int, interval: int)
    requires InTurn(s) && Counted(s)
    ensures InTurn(EndStep(s, used, err, now, interval)) && Counted(EndStep(s, used, err, now, interval))
  {
  }

  lemma InTurnStep(s: State, step: Step, interval: int)
    requires InTurn(s) && Counted(s) && Enabled(s, step)
    ensures InTurn(Do(s, step, interval)) && Counted(Do(s, step, interval))
  {
    match step
    case Begin(caller, now, later, outcome) => EnsureInTurn(s, now, later, interval, outcome);
    case Ensure(now, later, outcome) => EnsureInTurn(s, now, later, interval, outcome);
    case End(caller, err, now) => EndInTurn(s, s.calls[caller], err, now, interval);
  }

  /** An attempt that keeps to the pace, or an error, may be added to the log. */
  lemma Attempted(h: Holder, log: seq<Event>, clock: int, interval: int, now: int)
    requires Pacing(h, log, clock, interval) && clock <= now && h.retryAfter <= now
    ensures Pacing(h, log + [Attempt(now)], now, interval)
  {
    if h.retryAfter != 0 {
      var i :| 0 <= i < |log| && log[i].Errored? && log[i].at == h.retryAfter - interval;
      assert (log + [Attempt(now)])[i] == log[i];
    }
  }

  lemma ErrorRecorded(h: Holder, log: seq<Event>, clock: int, interval: int, e: Error, now: int)
    requires Pacing(h, log, clock, interval) && clock <= now
    ensures Pacing(RecordError(h, e).(retryAfter := now + interval), log + [Errored(now, e)], now, interval)
    ensures Pacing(RecordError(h, e).(store := None, retryAfter := now + interval), log + [Errored(now, e)], now,
                   interval)
  {
    assert (log + [Errored(now, e)])[|log|] == Errored(now, e);
  }

  predicate PacingIn(s: State, interval: int) { Pacing(s.holder, s.log, s.clock, interval) }

  lemma EnsurePaced(s: State, now: int, later: int, interval: int, outcome: Outcome)
    requires PacingIn(s, interval) && s.clock <= now <= later
    ensures PacingIn(EnsureStep(s, now, later, interval, outcome), interval)
  {
    if Attempts(s.holder, now) {
      Attempted(s.holder, s.log, s.clock, interval, now);
      if outcome.Failed? {
        ErrorRecorded(s.holder, s.log + [Attempt(now)], now, interval, outcome.error, later);
        var errored := Errored(later, outcome.error);
        assert s.log + [Attempt(now)] + [errored] == s.log + [Attempt(now), errored];
      }
    }
  }

  lemma EndPaced(s: State, used: Store, err: Option<Error>, now: int, interval: int)
    requires PacingIn(s, interval) && s.clock <= now
    ensures PacingIn(EndStep(s, used, err, now, interval), interval)
  {
    if err.Some? { ErrorRecorded(s.holder, s.log, s.clock, interval, err.value, now); }
  }

  lemma PacingStep(s: State, step: Step, interval: int)
    requires PacingIn(s, interval) && InTurn(s) && Enabled(s, step)
    ensures PacingIn(Do(s, step, interval), interval)
  {
    match step
    case Begin(caller, now, later, outcome) => EnsurePaced(s, now, later, interval, outcome);
    case Ensure(now, later, outcome) => EnsurePaced(s, now, later, interval, outcome);
    case End(caller, err, now) => EndPaced(s, s.calls[caller], err, now, interval);
  }

  /** The error recorded last. */
  function LastError(log: seq<Event>): Option<Error> {
    if log == [] then None
    else
      var last := log[|log| - 1];
      if last.Errored? then Some(last.error) else LastError(log[..|log| - 1])
  }

  lemma LastErrorAfter(log: seq<Event>, e: Event)
    ensures LastError(log + [e]) == if e.Errored? then Some(e.error) else LastError(log)
  {
    assert (log + [e])[..|log|] == log;
  }

  lemma LastErrorEnsure(s: State, now: int, later: int, interval: int, outcome: Outcome)
    requires s.holder.lastErr == LastError(s.log)
    ensures var s' := EnsureStep(s, now, later, interval, outcome); s'.holder.lastErr == LastError(s'.log)
  {
    hide LastError;
    LastErrorAfter(s.log, Attempt(now));
    if outcome.Failed? {
      var errored := Errored(later, outcome.error);
      LastErrorAfter(s.log + [Attempt(now)], errored);
      assert s.log + [Attempt(now), errored] == s.log + [Attempt(now)] + [errored];
    }
  }

  lemma LastErrorEnd(s: State, used: Store, err: Option<Error>, now: int, interval: int)
    requires s.holder.lastErr == LastError(s.log)
    ensures var s' := EndStep(s, used, err, now, interval); s'.holder.lastErr == LastError(s'.log)
  {
    hide LastError;
    if err.Some? { LastErrorAfter(s.log, Errored(now, err.value)); }
  }

  lemma LastErrorStep(s: State, step: Step, interval: int)
    requires s.holder.lastErr == LastError(s.log) && Enabled(s, step)
    ensures Do(s, step, interval).holder.lastErr == LastError(Do(s, step, interval).log)
  {
    hide LastError, EnsureStep, EndStep;
    match step
    case Begin(caller, now, later, outcome) => LastErrorEnsure(s, now, later, interval, outcome);
    case Ensure(now, later, outcome) => LastErrorEnsure(s, now, later, interval, outcome);
    case End(caller, err, now) => LastErrorEnd(s, s.calls[caller], err, now, interval);
  }

  lemma {:induction false} LastErrorAlong(run: seq<State>, i: nat, interval: int)
    requires IsRun(run, interval) && i < |run|
    ensures run[i].holder.lastErr == LastError(run[i].log)
    decreases i
  {
    if i > 0 {
      LastErrorAlong(run, i - 1, interval);
      assert Next(run[i - 1], run[i], interval);
      var step :| Enabled(run[i - 1], step) && run[i] == Do(run[i - 1], step, interval);
      LastErrorStep(run[i - 1], step, interval);
    }
  }

  lemma {:induction false} LastErrorIs(log: seq<Event>, k: nat)
    requires k < |log| && log[k].Errored? && forall j :: k < j < |log| ==> log[j].Attempt?
    ensures LastError(log) == Some(log[k].error)
    decreases |log|
  {
    if k < |log| - 1 { LastErrorIs(log[..|log| - 1], k); }
  }

  lemma {:induction false} Along(run: seq<State>, i: nat, interval: int)
    requires IsRun(run, interval) && i < |run|
    ensures InTurn(run[i]) && Counted(run[i]) && PacingIn(run[i], interval)
    decreases i
  {
    if i > 0 {
      Along(run, i - 1, interval);
      assert Next(run[i - 1], run[i], interval);
      var step :| Enabled(run[i - 1], step) && run[i] == Do(run[i - 1], step, interval);
      InTurnStep(run[i - 1], step, interval);
      PacingStep(run[i - 1], step, interval);
    }
  }

  /** In any interleaving: stores are created and reset in turn, none is created or reset twice, and
      every error is counted once. */
  lemma StoreHistory(run: seq<State>, i: nat, interval: int)
    requires IsRun(run, interval) && i < |run|
    ensures run[i].resets <= run[i].created
    ensures |run[i].created| - |run[i].resets| == (if run[i].holder.store.Some? then 1 else 0)
    ensures forall j, k :: 0 <= j < k < |run[i].resets| ==> run[i].resets[j] != run[i].resets[k]
    ensures run[i].holder.errCount == run[i].failed + |run[i].resets|
  {
    Along(run, i, interval);
  }

  /** A failed call resets the holder's store exactly if the store it used was not reset before; the
      failure of a stale store leaves the holder, and any newer store in it, alone. */
  lemma StaleFailureHarmless(run: seq<State>, i: nat, interval: int, step: Step)
    requires IsRun(run, interval) && i < |run| && Enabled(run[i], step) && step.End?
    ensures var s := run[i]; var used := s.calls[step.caller]; var s' := Do(s, step, interval);
            if step.err.Some? && s.holder.configured && used !in s.resets
            then s'.resets == s.resets + [used] && s'.holder.store == None
            else s'.holder == s.holder
  {
    Along(run, i, interval);
    var s := run[i];
    var used := s.calls[step.caller];
    var k :| 0 <= k < |s.created| && s.created[k] == used;
    if k < |s.resets| { assert s.resets[k] == used; }
  }

  /** `ensureLH` returns a store or an error, never both and never neither. */
  lemma StoreOrError(run: seq<State>, i: nat, interval: int, now: int, later: int, outcome: Outcome)
    requires IsRun(run, interval) && i < |run| && run[i].clock <= now
    ensures var r := Ensured(run[i].holder, now, later, interval, outcome); r.1.Some? <==> r.2.None?
  {
    Along(run, i, interval);
  }

  /** No creation attempt starts sooner than the interval after an error recorded before it. */
  lemma RetriesArePaced(run: seq<State>, i: nat, interval: int)
    requires IsRun(run, interval) && i < |run|
    ensures Paced(run[i].log, interval)
  {
    Along(run, i, interval);
  }

  /** The holder keeps the error recorded last, and answers a call that it refuses with that error. */
  lemma RefusedWithLastError(run: seq<State>, i: nat, interval: int, k: nat, now: int, later: int, outcome: Outcome)
    requires IsRun(run, interval) && i < |run| && k < |run[i].log|
    requires run[i].log[k].Errored? && forall j :: k < j < |run[i].log| ==> run[i].log[j].Attempt?
    ensures run[i].holder.lastErr == Some(run[i].log[k].error)
    ensures run[i].holder.configured && run[i].holder.store.None? && now < run[i].holder.retryAfter ==>
              Ensured(run[i].holder, now, later, interval, outcome) == (run[i].holder, None, Some(run[i].log[k].error))
  {
    LastErrorAlong(run, i, interval);
    LastErrorIs(run[i].log, k);
  }

  /** Once the interval after every recorded error has passed, a configured holder without a store tries again. */
  lemma RetriesResume(run: seq<State>, i: nat, interval: int, now: int)
    requires IsRun(run, interval) && i < |run| && run[i].clock <= now
    requires run[i].holder.configured && run[i].holder.store.None?
    ensures Attempts(run[i].holder, now) <==>
            forall j :: 0 <= j < |run[i].log| && run[i].log[j].Errored? ==> now >= run[i].log[j].at + interval
  {
    Along(run, i, interval);
  }
}

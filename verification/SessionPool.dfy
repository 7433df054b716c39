/** The session pool with Gets that do not overlap: creation on demand, retry after failure, expiry. */
module SessionPool {
  import opened Correlation
  import Sessions

  type User = Sessions.User

  /** What the table holds for a key: an entry without a session, or a session, identified by the order
      of its creation, and when it was last used. */
  datatype Slot = Empty | Live(serial: nat, lastUsed: int)

  datatype Pool = Pool(slots: map<User, Slot>, lastCleanup: int, made: nat)

  predicate HasSession(p: Pool, id: User) { id in p.slots && p.slots[id].Live? }

  /** The entry of the key is found or made, its factory run if need be (`ok` says whether it then
      succeeds), and replaced if it failed. */
  function Opened(p: Pool, id: User, ok: bool): Pool {
    if HasSession(p, id) then p
    else if ok then p.(slots := p.slots[id := Live(p.made, 0)], made := p.made + 1)
    else p.(slots := p.slots[id := Empty])
  }

  function Touched(p: Pool, id: User, now: int): Pool
    requires HasSession(p, id)
  {
    p.(slots := p.slots[id := Live(p.slots[id].serial, now)])
  }

  predicate Expired(slot: Slot, timeout: int, now: int) { slot.Live? && now - slot.lastUsed > timeout }

  function Cleaned(p: Pool, timeout: int, now: int): Pool {
    if timeout <= 0 || now - p.lastCleanup < timeout then p
    else p.(lastCleanup := now, slots := map id | id in p.slots && !Expired(p.slots[id], timeout, now) :: p.slots[id])
  }

  /** A `Get`: the pool afterwards and the session returned. */
  function Got(p: Pool, timeout: int, id: User, now: int, ok: bool): (Pool, Option<nat>) {
    var q := Opened(p, id, ok);
    if !HasSession(q, id) then (q, None)
    else (Cleaned(Touched(q, id, now), timeout, now), Some(q.slots[id].serial))
  }

  class Session {
    const id: User
    const serial: nat
    var lastUsed: int

    constructor (id: User, serial: nat)
      ensures this.id == id && this.serial == serial && lastUsed == 0
    {
      this.id, this.serial, lastUsed := id, serial, 0;
    }
  }

  class Entry {
    var once: bool
    var session: Option<Session>

    constructor ()
      ensures !once && session == None
    {
      once, session := false, None;
    }

    function Slot(): Slot
      reads this, if session.Some? then {session.value} else {}
    {
      if session.Some? then Live(session.value.serial, session.value.lastUsed) else Empty
    }
  }

  class PoolManager {
    const timeout: int
    var sessions: map<User, Entry>
    var lastCleanup: int
    var made: nat

    constructor (timeout: int)
      ensures this.timeout == timeout && Valid() && View() == Pool(map[], 0, 0)
    {
      this.timeout := timeout;
      sessions, lastCleanup, made := map[], 0, 0;
    }

    function Current(): set<Session>
      reads this, sessions.Values
    {
      set id | id in sessions && sessions[id].session.Some? :: sessions[id].session.value
    }

    /** Keys do not share entries or sessions. */
    predicate Wired()
      reads this, sessions.Values, Current()
    {
      && (forall id, key :: id in sessions && key in sessions && sessions[id] == sessions[key] ==> id == key)
      && (forall id :: id in sessions && sessions[id].session.Some? ==> sessions[id].session.value.id == id)
    }

    /** Between Gets, an entry whose factory failed is not kept. */
    predicate Valid()
      reads this, sessions.Values, Current()
    {
      Wired() && forall id :: id in sessions ==> (sessions[id].once <==> sessions[id].session.Some?)
    }

    function View(): Pool
      reads this, sessions.Values, Current()
    {
      Pool(map id | id in sessions :: sessions[id].Slot(), lastCleanup, made)
    }

    /** `LoadOrStore`. */
    method LoadOrStore(id: User) returns (e: Entry)
      requires Valid()
      modifies this`sessions
      ensures Valid() && id in sessions && sessions[id] == e
      ensures id in old(sessions) ==> sessions == old(sessions)
      ensures id !in old(sessions) ==> fresh(e) && sessions == old(sessions)[id := e] && !e.once && e.session == None
      ensures View() == if id in old(sessions) then old(View())
                        else old(View()).(slots := old(View()).slots[id := Empty])
    {
      if id !in sessions {
        var stored := new Entry();
        sessions := sessions[id := stored];
      }
      e := sessions[id];
    }

    /** `once.Do` with the factory. */
    method Create(e: Entry, id: User, ok: bool)
      requires Valid() && id in sessions && sessions[id] == e
      modifies e, this`made
      ensures e.once && (old(e.once) ==> e.session == old(e.session) && made == old(made))
      ensures !old(e.once) && ok ==> e.session.Some? && fresh(e.session.value) && e.session.value.id == id
                                     && e.Slot() == Live(old(made), 0) && made == old(made) + 1
      ensures !old(e.once) && !ok ==> e.session == None && made == old(made)
      ensures Wired() && View() == if old(e.once) || !ok then old(View()) else Opened(old(View()), id, true)
    {
      if !e.once {
        e.once := true;
        if ok {
          var s := new Session(id, made);
          e.session := Some(s);
          made := made + 1;
        } else {
          e.session := None;
        }
      }
    }

    /** The compare-and-swap of a failed entry for a fresh one. */
    method Replace(e: Entry, id: User)
      requires Wired() && id in sessions && sessions[id] == e && e.once && e.session == None
      requires forall key :: key in sessions && key != id ==> (sessions[key].once <==> sessions[key].session.Some?)
      modifies this`sessions
      ensures Valid() && View() == old(View())
      ensures id in sessions && fresh(sessions[id]) && sessions == old(sessions)[id := sessions[id]]
      ensures sessions[id].session == None
    {
      var stored := new Entry();
      sessions := sessions[id := stored];
    }

    /** The entry of the key, after its factory has run. */
    method FindOrMake(id: User, ok: bool) returns (e: Entry)
      requires Valid()
      modifies this`sessions, this`made, sessions.Values
      ensures Wired() && id in sessions && sessions[id] == e && e.once && View() == Opened(old(View()), id, ok)
      ensures forall key :: key in sessions && key != id ==> (sessions[key].once <==> sessions[key].session.Some?)
      ensures e.session.Some? ==> e.session.value in old(Current()) || fresh(e.session.value)
      ensures e.session.Some? <==> ok || (id in old(sessions) && old(sessions[id].session).Some?)
      ensures id in old(sessions) && old(sessions[id].session).Some? ==>
                e.session == old(sessions[id].session) && made == old(made) && sessions == old(sessions)
      ensures e.session.Some? && !(id in old(sessions) && old(sessions[id].session).Some?) ==>
                fresh(e.session.value) && e.session.value.serial == old(made) && made == old(made) + 1
      ensures e.session == None ==> made == old(made)
      ensures sessions.Keys == old(sessions).Keys + {id}
      ensures forall key :: key in old(sessions) && key != id ==>
                sessions[key] == old(sessions)[key] && sessions[key].session == old(sessions[key].session)
    {
      ghost var before, current := View(), Current();
      e := LoadOrStore(id);
      assert View().slots[id] == e.Slot();
      assert e.session.Some? ==> e.session.value in current;
      Create(e, id, ok);
      assert View().slots[id] == e.Slot();
      if e.session == None { assert View().slots == before.slots[id := Empty]; }
    }

    /** Finds or makes the entry and its session; after a failure leaves a fresh entry. */
    method Open(id: User, ok: bool) returns (session: Option<Session>)
      requires Valid()
      modifies this`sessions, this`made, sessions.Values
      ensures Valid() && View() == Opened(old(View()), id, ok)
      ensures if HasSession(View(), id) then id in sessions && session == sessions[id].session else session == None
      ensures session.Some? ==> session.value in old(Current()) || fresh(session.value)
      ensures session.Some? <==> ok || (id in old(sessions) && old(sessions[id].session).Some?)
      ensures id in old(sessions) && old(sessions[id].session).Some? ==>
                session == old(sessions[id].session) && made == old(made) && sessions == old(sessions)
      ensures session.Some? && !(id in old(sessions) && old(sessions[id].session).Some?) ==>
                fresh(session.value) && session.value.serial == old(made) && made == old(made) + 1
      ensures session == None ==>
                made == old(made) && id in sessions && fresh(sessions[id])
                && sessions[id].session == None && !sessions[id].once
      ensures sessions.Keys == old(sessions).Keys + {id}
      ensures forall key :: key in old(sessions) && key != id ==>
                sessions[key] == old(sessions)[key] && sessions[key].session == old(sessions[key].session)
    {
      hide Opened;
      var e := FindOrMake(id, ok);
      session := e.session;
      if session == None { Replace(e, id); }
    }

    /** The session of the key was used. */
    method Touch(session: Session, id: User, now: int)
      requires Valid() && id in sessions && sessions[id].session == Some(session)
      modifies session`lastUsed
      ensures Valid() && View() == Touched(old(View()), id, now) && session.lastUsed == now
    {
      ghost var before := View();
      session.lastUsed := now;
      assert View() == Touched(before, id, now);
    }

    method MaybeCleanup(now: int)
      requires Valid()
      modifies this`sessions, this`lastCleanup
      ensures Valid() && View() == Cleaned(old(View()), timeout, now)
      ensures timeout <= 0 || now - old(lastCleanup) < timeout ==>
                sessions == old(sessions) && lastCleanup == old(lastCleanup)
      ensures timeout > 0 && now - old(lastCleanup) >= timeout ==>
                lastCleanup == now
                && forall id :: id in sessions <==>
                     id in old(sessions)
                     && (var e := old(sessions)[id];
                         e.session.Some? ==> now - e.session.value.lastUsed <= timeout)
    {
      if timeout <= 0 || now - lastCleanup < timeout { return; }
      ghost var table, slots := sessions, View().slots;
      lastCleanup := now;
      var rest := sessions.Keys;
      while rest != {}
        invariant lastCleanup == now && rest <= table.Keys
        invariant forall id :: id in sessions ==> id in table && sessions[id] == table[id]
        invariant forall id :: id in table ==> (id in sessions <==> id in rest || !Expired(slots[id], timeout, now))
        decreases rest
      {
        var id :| id in rest;
        assert table[id].Slot() == slots[id];
        if sessions[id].session.Some? && now - sessions[id].session.value.lastUsed > timeout {
          sessions := sessions - {id};
        }
        rest := rest - {id};
      }
      assert View().slots == Cleaned(old(View()), timeout, now).slots;
    }

    method Get(id: User, now: int, ok: bool) returns (session: Option<Session>)
      requires Valid()
      modifies this, sessions.Values, Current()
      ensures Valid()
      ensures View() == Got(old(View()), timeout, id, now, ok).0
      ensures var serial := Got(old(View()), timeout, id, now, ok).1;
              if serial.None? then session == None
              else session.Some? && session.value.serial == serial.value && session.value.id == id
      ensures session.Some? <==> ok || (id in old(sessions) && old(sessions[id].session).Some?)
      ensures session.Some? ==> session.value.lastUsed == now
      ensures session == None ==> lastCleanup == old(lastCleanup) && sessions.Keys == old(sessions).Keys + {id}
    {
      session := Open(id, ok);
      if session.Some? {
        Touch(session.value, id, now);
        MaybeCleanup(now);
      }
    }
  }

  // ---- sequences of Gets ------------------------------------------------------------------------------

  datatype Request = Request(id: User, now: int, ok: bool)

  /** The pool after the requests. */
  function After(timeout: int, requests: seq<Request>): Pool {
    if requests == [] then Pool(map[], 0, 0)
    else
      var n := |requests| - 1;
      Got(After(timeout, requests[..n]), timeout, requests[n].id, requests[n].now, requests[n].ok).0
  }

  /** The session request `i` got. */
  function AnswerAt(timeout: int, requests: seq<Request>, i: nat): Option<nat>
    requires i < |requests|
  {
    Got(After(timeout, requests[..i]), timeout, requests[i].id, requests[i].now, requests[i].ok).1
  }

  /** A `Get` succeeds exactly if its factory would or the table has a session for its key: so after a failure
      it is enough that the factory works again. */
  lemma WhenGetSucceeds(timeout: int, requests: seq<Request>, i: nat)
    requires i < |requests|
    ensures var p, id := After(timeout, requests[..i]), requests[i].id;
            AnswerAt(timeout, requests, i).Some? <==> requests[i].ok || (id in p.slots && p.slots[id].Live?)
  {
  }

  /** A failed `Get` leaves its key without a session, and everything else as it was. */
  lemma FailedGetChangesNothing(timeout: int, requests: seq<Request>, i: nat)
    requires i < |requests| && AnswerAt(timeout, requests, i).None?
    ensures var p, p', id := After(timeout, requests[..i]), After(timeout, requests[..i + 1]), requests[i].id;
            && p'.made == p.made && p'.lastCleanup == p.lastCleanup
            && p'.slots.Keys == p.slots.Keys + {id} && p'.slots[id] == Empty
            && forall key :: key in p.slots && key != id ==> p'.slots[key] == p.slots[key]
  {
    AfterNext(timeout, requests, i);
  }

  /** A failed `Get` does not stand in the way: the next one of the key succeeds, with a new session, exactly if
      its factory does. */
  lemma RetryAfterFailure(timeout: int, requests: seq<Request>, i: nat)
    requires i + 1 < |requests| && requests[i + 1].id == requests[i].id && AnswerAt(timeout, requests, i).None?
    ensures AnswerAt(timeout, requests, i + 1) ==
            if requests[i + 1].ok then Some(After(timeout, requests[..i]).made) else None
  {
    FailedGetChangesNothing(timeout, requests, i);
  }

  /** The clock never goes back. */
  predicate InOrder(requests: seq<Request>) {
    forall i, j :: 0 <= i <= j < |requests| ==> 0 <= requests[i].now <= requests[j].now
  }

  lemma AfterNext(timeout: int, requests: seq<Request>, i: nat)
    requires i < |requests|
    ensures After(timeout, requests[..i + 1])
            == Got(After(timeout, requests[..i]), timeout, requests[i].id, requests[i].now, requests[i].ok).0
  {
    assert requests[..i + 1][..i] == requests[..i];
  }

  /** The table holds the session for the key, last used at `since` or later. */
  predicate Holds(p: Pool, id: User, serial: nat, since: int) {
    HasSession(p, id) && p.slots[id].serial == serial && p.slots[id].lastUsed >= since
  }

  /** A `Get` at a time no more than `timeout` after `since` leaves such a session in place. */
  lemma GotKeeps(p: Pool, timeout: int, request: Request, id: User, serial: nat, since: int)
    requires Holds(p, id, serial, since) && since <= request.now && (timeout <= 0 || request.now - since <= timeout)
    ensures Holds(Got(p, timeout, request.id, request.now, request.ok).0, id, serial, since)
  {
  }

  lemma GotHolds(p: Pool, timeout: int, request: Request)
    requires Got(p, timeout, request.id, request.now, request.ok).1.Some?
    ensures var got := Got(p, timeout, request.id, request.now, request.ok);
            Holds(got.0, request.id, got.1.value, request.now)
  {
  }

  /** From request `i` on, as long as no more than `timeout` passes, its session stays in the table. */
  lemma {:induction false} SessionKept(timeout: int, requests: seq<Request>, i: nat, j: nat)
    requires InOrder(requests) && i < j <= |requests| && AnswerAt(timeout, requests, i).Some?
    requires timeout <= 0 || requests[j - 1].now - requests[i].now <= timeout
    ensures Holds(After(timeout, requests[..j]), requests[i].id, AnswerAt(timeout, requests, i).value, requests[i].now)
    decreases j
  {
    hide Got, Holds;
    AfterNext(timeout, requests, j - 1);
    if i < j - 1 {
      SessionKept(timeout, requests, i, j - 1);
      GotKeeps(After(timeout, requests[..j - 1]), timeout, requests[j - 1], requests[i].id,
               AnswerAt(timeout, requests, i).value, requests[i].now);
    } else {
      GotHolds(After(timeout, requests[..i]), timeout, requests[i]);
    }
  }

  /** Two Gets of a key no more than `timeout` apart, the first successful, return the same session;
      without a timeout, any two do. */
  lemma SameSession(timeout: int, requests: seq<Request>, i: nat, j: nat)
    requires InOrder(requests) && i < j < |requests| && requests[i].id == requests[j].id
    requires AnswerAt(timeout, requests, i).Some? && (timeout <= 0 || requests[j].now - requests[i].now <= timeout)
    ensures AnswerAt(timeout, requests, j) == AnswerAt(timeout, requests, i)
  {
    SessionKept(timeout, requests, i, j);
  }

  /** Session `serial` was made, and only `id` may have it. */
  predicate OnlyFor(p: Pool, serial: nat, id: User) {
    serial < p.made && forall key :: key in p.slots && p.slots[key].Live? && p.slots[key].serial == serial ==> key == id
  }

  predicate Distinct(p: Pool) { forall id :: id in p.slots && p.slots[id].Live? ==> OnlyFor(p, p.slots[id].serial, id) }

  lemma {:induction false} SessionsDistinct(timeout: int, requests: seq<Request>)
    ensures Distinct(After(timeout, requests))
  {
    if requests != [] { SessionsDistinct(timeout, requests[..|requests| - 1]); }
  }

  lemma OnlyForKept(p: Pool, timeout: int, request: Request, serial: nat, id: User)
    requires OnlyFor(p, serial, id)
    ensures OnlyFor(Got(p, timeout, request.id, request.now, request.ok).0, serial, id)
  {
  }

  lemma OnlyForGot(p: Pool, timeout: int, request: Request)
    requires Distinct(p) && Got(p, timeout, request.id, request.now, request.ok).1.Some?
    ensures var got := Got(p, timeout, request.id, request.now, request.ok); OnlyFor(got.0, got.1.value, request.id)
  {
  }

  lemma {:induction false} SerialKept(timeout: int, requests: seq<Request>, i: nat, j: nat)
    requires i < j <= |requests| && AnswerAt(timeout, requests, i).Some?
    ensures OnlyFor(After(timeout, requests[..j]), AnswerAt(timeout, requests, i).value, requests[i].id)
    decreases j
  {
    hide Got, OnlyFor;
    AfterNext(timeout, requests, j - 1);
    if i < j - 1 {
      SerialKept(timeout, requests, i, j - 1);
      OnlyForKept(After(timeout, requests[..j - 1]), timeout, requests[j - 1],
                  AnswerAt(timeout, requests, i).value, requests[i].id);
    } else {
      SessionsDistinct(timeout, requests[..i]);
      OnlyForGot(After(timeout, requests[..i]), timeout, requests[i]);
    }
  }

  /** No session is ever returned for two keys, even after it expired. */
  lemma SessionsIsolated(timeout: int, requests: seq<Request>, i: nat, j: nat)
    requires i < |requests| && j < |requests| && AnswerAt(timeout, requests, i).Some?
    requires AnswerAt(timeout, requests, i) == AnswerAt(timeout, requests, j)
    ensures requests[i].id == requests[j].id
  {
    if i < j {
      SerialKept(timeout, requests, i, j);
    } else if j < i {
      SerialKept(timeout, requests, j, i);
    }
  }

  /** The last cleanup left nothing idle longer than the timeout, and nothing is older since. */
  lemma {:induction false} IdleSinceCleanup(timeout: int, requests: seq<Request>)
    requires timeout > 0 && InOrder(requests)
    ensures var p := After(timeout, requests);
            && (forall id :: id in p.slots && p.slots[id].Live? ==> p.slots[id].lastUsed >= p.lastCleanup - timeout)
            && p.lastCleanup <= (if requests == [] then 0 else requests[|requests| - 1].now)
  {
    if requests != [] { IdleSinceCleanup(timeout, requests[..|requests| - 1]); }
  }

  /** After a successful `Get`, no session in the table has been idle for twice the timeout. */
  lemma IdleSessionsExpire(timeout: int, requests: seq<Request>, id: User)
    requires timeout > 0 && InOrder(requests) && requests != [] && AnswerAt(timeout, requests, |requests| - 1).Some?
    requires HasSession(After(timeout, requests), id)
    ensures requests[|requests| - 1].now - After(timeout, requests).slots[id].lastUsed < 2 * timeout
  {
    IdleSinceCleanup(timeout, requests);
    AfterNext(timeout, requests, |requests| - 1);
    assert requests[..|requests|] == requests;
  }

  /** An expired session can stay: here `a` is idle for longer than the timeout, and the last `Get`,
      successful but too soon after a cleanup, leaves it in the table. */
  lemma ExpiredSessionStays(a: User, b: User)
    requires a != b
    ensures var requests := [Request(a, 5, true), Request(b, 10, true), Request(b, 16, true)];
            && InOrder(requests) && AnswerAt(10, requests, 2).Some?
            && a in After(10, requests).slots && Expired(After(10, requests).slots[a], 10, 16)
  {
    var requests := [Request(a, 5, true), Request(b, 10, true), Request(b, 16, true)];
    AfterNext(10, requests, 0);
    AfterNext(10, requests, 1);
    AfterNext(10, requests, 2);
    assert requests[..3] == requests;
  }

  predicate NoneExpired(p: Pool, timeout: int, now: int) {
    forall id :: id in p.slots ==> !Expired(p.slots[id], timeout, now)
  }

  /** A successful `Get` leaves no expired session behind exactly if a cleanup was due, or no session but
      the one it asked for had expired. */
  lemma WhenExpiredSessionsGo(timeout: int, requests: seq<Request>)
    requires timeout > 0 && requests != [] && AnswerAt(timeout, requests, |requests| - 1).Some?
    ensures var n := |requests| - 1;
            var p, now := After(timeout, requests[..n]), requests[n].now;
            NoneExpired(After(timeout, requests), timeout, now) <==>
              now - p.lastCleanup >= timeout
              || forall id :: id in p.slots && id != requests[n].id ==> !Expired(p.slots[id], timeout, now)
  {
    var n := |requests| - 1;
    var p, request := After(timeout, requests[..n]), requests[n];
    AfterNext(timeout, requests, n);
    assert requests[..n + 1] == requests;
    var touched := Touched(Opened(p, request.id, request.ok), request.id, request.now);
    if request.now - p.lastCleanup < timeout {
      assert After(timeout, requests) == touched;
      forall id | id in p.slots && id != request.id ensures touched.slots[id] == p.slots[id] {
      }
    }
  }
}

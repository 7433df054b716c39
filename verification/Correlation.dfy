/** The entities a correlation search works on, the per-class result containers, and the
    least fixpoint a search is meant to compute. */
module Correlation {

  datatype Option<+T> = None | Some(value: T)

  // Classes, rules, objects, object IDs and query data are opaque: only equality is used.
  type Class(==, !new)
  type Rule(==, !new)
  type Object(==, !new)
  type Id(==, !new)
  type Selector(==, !new)

  datatype Query = Query(cls: Class, data: Selector)

  datatype LineKey = LineKey(start: Class, rule: Rule, goal: Class)

  /** Everything a traversal reads and never changes. `get` is `Engine.Get` with errors dropped and
      partial results kept; `apply` is `Rule.Apply`; `lines` maps each line in scope to its UID;
      `iders` are the classes that implement IDer and `id` is their ID function. */
  datatype Env = Env(
    lines: map<LineKey, nat>,
    get: Query -> seq<Object>,
    apply: (Rule, Object) -> seq<Query>,
    iders: set<Class>,
    id: (Class, Object) -> Id,
    startClass: Class,
    startObjects: seq<Object>,
    startQueries: seq<Query>,
    limit: int,
    maxDepth: int)

  /** Every start query is of the start class. */
  ghost predicate ValidEnv(env: Env) { forall q :: q in env.startQueries ==> q.cls == env.startClass }

  /** The rules in scope that start at class `c`. */
  function RulesFor(env: Env, c: Class): (rules: set<Rule>) {
    set k | k in env.lines && k.start == c :: k.rule
  }

  /** The classes that have a node: the ends of every line in scope, and the start class. */
  function NodeClasses(env: Env): set<Class> {
    (set k | k in env.lines :: k.start) + (set k | k in env.lines :: k.goal) + {env.startClass}
  }

  // ---- result containers -------------------------------------------------------------------

  /** What identifies an object within its class: its ID if the class has IDs, else the object. */
  datatype Key = ById(id: Id) | Whole(object: Object)

  function KeyOf(env: Env, c: Class, o: Object): Key {
    if c in env.iders then ById(env.id(c, o)) else Whole(o)
  }

  predicate HasKey(env: Env, c: Class, list: seq<Object>, key: Key) {
    exists i :: 0 <= i < |list| && KeyOf(env, c, list[i]) == key
  }

  /** `Result.Add`: a Set ignores an object whose ID it has; a List appends every object. */
  function AddOne(env: Env, c: Class, list: seq<Object>, o: Object): seq<Object> {
    if c in env.iders && HasKey(env, c, list, KeyOf(env, c, o)) then list else list + [o]
  }

  function AddAll(env: Env, c: Class, list: seq<Object>, objects: seq<Object>): seq<Object>
    decreases objects
  {
    if objects == [] then list
    else AddAll(env, c, AddOne(env, c, list, objects[0]), objects[1..])
  }

  /** Adding objects only appends, invents nothing, and leaves every added object's key present. */
  lemma {:induction false} AddAllAppends(env: Env, c: Class, list: seq<Object>, objects: seq<Object>)
    ensures list <= AddAll(env, c, list, objects)
    ensures forall o :: o in AddAll(env, c, list, objects) ==> o in list || o in objects
    ensures forall o :: o in objects ==> HasKey(env, c, AddAll(env, c, list, objects), KeyOf(env, c, o))
    decreases objects
  {
    if objects != [] {
      var list' := AddOne(env, c, list, objects[0]);
      AddAllAppends(env, c, list', objects[1..]);
      var all := AddAll(env, c, list, objects);
      assert HasKey(env, c, list', KeyOf(env, c, objects[0])) by {
        if list' != list { assert KeyOf(env, c, list'[|list|]) == KeyOf(env, c, objects[0]); }
      }
      forall o | o in objects ensures HasKey(env, c, all, KeyOf(env, c, o)) {
        if o == objects[0] {
          var i :| 0 <= i < |list'| && KeyOf(env, c, list'[i]) == KeyOf(env, c, o);
          assert all[i] == list'[i];
        } else {
          assert o in objects[1..];
        }
      }
    }
  }

  /** Objects of a class with IDs are told apart by ID, others by themselves. */
  lemma KeysTell(env: Env, c: Class, a: Object, b: Object)
    ensures c in env.iders ==> (KeyOf(env, c, a) == KeyOf(env, c, b) <==> env.id(c, a) == env.id(c, b))
    ensures c !in env.iders ==> (KeyOf(env, c, a) == KeyOf(env, c, b) <==> a == b)
  {
  }

  /** A Set adds exactly an object whose ID it has not, a List every object. */
  lemma AddsNewIds(env: Env, c: Class, list: seq<Object>, o: Object)
    ensures AddOne(env, c, list, o) == list <==>
            c in env.iders && exists i :: 0 <= i < |list| && env.id(c, list[i]) == env.id(c, o)
    ensures AddOne(env, c, list, o) == list || AddOne(env, c, list, o) == list + [o]
  {
    if c in env.iders && AddOne(env, c, list, o) == list {
      var i :| 0 <= i < |list| && KeyOf(env, c, list[i]) == KeyOf(env, c, o);
      KeysTell(env, c, list[i], o);
    }
    if i :| c in env.iders && 0 <= i < |list| && env.id(c, list[i]) == env.id(c, o) { KeysTell(env, c, list[i], o); }
  }

  /** A Set never holds two objects with one ID, and has the ID of every object it was given; a List holds
      everything it was given, in order. */
  lemma {:induction false} AddAllDedups(env: Env, c: Class, list: seq<Object>, objects: seq<Object>)
    ensures c !in env.iders ==> AddAll(env, c, list, objects) == list + objects
    ensures c in env.iders && (forall i, j :: 0 <= i < j < |list| ==> env.id(c, list[i]) != env.id(c, list[j])) ==>
              var all := AddAll(env, c, list, objects);
              forall i, j :: 0 <= i < j < |all| ==> env.id(c, all[i]) != env.id(c, all[j])
    ensures c in env.iders ==>
              var all := AddAll(env, c, list, objects);
              forall o :: o in objects ==> exists i :: 0 <= i < |all| && env.id(c, all[i]) == env.id(c, o)
    decreases objects
  {
    AddAllAppends(env, c, list, objects);
    if c in env.iders {
      var all := AddAll(env, c, list, objects);
      forall o | o in objects ensures exists i :: 0 <= i < |all| && env.id(c, all[i]) == env.id(c, o) {
        var i :| 0 <= i < |all| && KeyOf(env, c, all[i]) == KeyOf(env, c, o);
        KeysTell(env, c, all[i], o);
      }
    }
    if objects != [] {
      AddsNewIds(env, c, list, objects[0]);
      AddAllDedups(env, c, AddOne(env, c, list, objects[0]), objects[1..]);
      assert [objects[0]] + objects[1..] == objects;
    }
  }

  // ---- the least fixpoint --------------------------------------------------------------------

  /** Applying rule `r` to object `o` of class `c` yields query `q` along a line in scope. */
  ghost predicate Follows(env: Env, c: Class, o: Object, r: Rule, q: Query) {
    LineKey(c, r, q.cls) in env.lines && q in env.apply(r, o)
  }

  /** Query `q` is derivable in at most `n` rule applications. */
  ghost predicate DerivedQuery(env: Env, q: Query, n: nat)
    decreases n, 0
  {
    if n == 0 then q in env.startQueries
    else DerivedQuery(env, q, n - 1)
         || exists c, o, r :: DerivedObject(env, c, o, n - 1) && Follows(env, c, o, r, q)
  }

  /** Object `o` of class `c` is a start object or is returned by a query derivable in `n` steps. */
  ghost predicate DerivedObject(env: Env, c: Class, o: Object, n: nat)
    decreases n, 1
  {
    (c == env.startClass && o in env.startObjects)
    || exists q :: DerivedQuery(env, q, n) && q.cls == c && o in env.get(q)
  }

  ghost predicate Derivable(env: Env, q: Query) { exists n: nat :: DerivedQuery(env, q, n) }

  ghost predicate DerivableObject(env: Env, c: Class, o: Object) { exists n: nat :: DerivedObject(env, c, o, n) }

  /** Some derivable object of class `c` has this key. */
  ghost predicate DerivableKey(env: Env, c: Class, key: Key) {
    exists o :: DerivableObject(env, c, o) && KeyOf(env, c, o) == key
  }

  lemma {:induction false} DerivedMonotone(env: Env, q: Query, m: nat, n: nat)
    requires m <= n && DerivedQuery(env, q, m)
    ensures DerivedQuery(env, q, n)
    decreases n
  {
    if m < n { DerivedMonotone(env, q, m, n - 1); }
  }

  lemma DerivedObjectMonotone(env: Env, c: Class, o: Object, m: nat, n: nat)
    requires m <= n && DerivedObject(env, c, o, m)
    ensures DerivedObject(env, c, o, n)
  {
    if !(c == env.startClass && o in env.startObjects) {
      var q :| DerivedQuery(env, q, m) && q.cls == c && o in env.get(q);
      DerivedMonotone(env, q, m, n);
    }
  }

  lemma FollowsDerivable(env: Env, c: Class, o: Object, r: Rule, q: Query)
    requires DerivableObject(env, c, o) && Follows(env, c, o, r, q)
    ensures Derivable(env, q)
  {
    var n: nat :| DerivedObject(env, c, o, n);
    assert DerivedQuery(env, q, n + 1);
  }

  /** Objects that one ID identifies lead every rule to the same queries. */
  ghost predicate RespectsIds(env: Env) {
    forall c, o1, o2, r, q ::
      KeyOf(env, c, o1) == KeyOf(env, c, o2) && Follows(env, c, o1, r, q) ==> Follows(env, c, o2, r, q)
  }

  ghost predicate InjectiveIds(env: Env) {
    forall c, o1, o2 :: KeyOf(env, c, o1) == KeyOf(env, c, o2) ==> o1 == o2
  }
}

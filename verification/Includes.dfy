/** Loading a configuration and everything it includes, each source once, however the includes cycle. */
module Includes {
  import opened Correlation

  // File names and URLs, references to them, and the other settings of a configuration are opaque.
  type Source(==, !new)
  type Ref(==, !new)
  type Settings(==, !new)

  datatype Config = Config(source: Source, tuning: Option<Settings>, includes: seq<Ref>, settings: Settings)

  /** What a readable source holds. */
  datatype File = Malformed | Parsed(tuning: Option<Settings>, includes: seq<Ref>, settings: Settings)

  datatype Failure = Unreadable | Invalid | UnexpectedTuning
  datatype LoadError = LoadError(source: Source, failure: Failure)

  /** The readable sources, and how a reference is resolved against the source it is in. */
  datatype Files = Files(content: map<Source, File>, resolve: (Source, Ref) -> Source)

  function ConfigOf(files: Files, source: Source): (c: Config)
    requires source in files.content && files.content[source].Parsed?
  {
    var f := files.content[source];
    Config(source, f.tuning, f.includes, f.settings)
  }

  /** The error of loading a source, if any; only the first may have a tuning section. */
  function Problem(files: Files, source: Source, first: bool): Option<Failure> {
    if source !in files.content then Some(Unreadable)
    else if files.content[source].Malformed? then Some(Invalid)
    else if !first && files.content[source].tuning.Some? then Some(UnexpectedTuning)
    else None
  }

  // ---- depth-first order ---------------------------------------------------------------------------------

  /** The sources included by a source, in order. */
  function Included(files: Files, source: Source): (refs: seq<Source>)
    ensures source in files.content && files.content[source].Parsed? ==>
              |refs| == |files.content[source].includes|
              && forall k :: 0 <= k < |refs| ==> refs[k] == files.resolve(source, files.content[source].includes[k])
  {
    if source in files.content && files.content[source].Parsed? then
      var includes := files.content[source].includes;
      seq(|includes|, i requires 0 <= i < |includes| => files.resolve(source, includes[i]))
    else []
  }

  predicate Complete(files: Files, order: seq<Source>, source: Source) {
    forall ref :: ref in Included(files, source) ==> ref in order
  }

  /** Include `k` of the source at `p` is the first one missing from the order, and every later source
      has all its includes in it. */
  ghost predicate NextAt(files: Files, order: seq<Source>, source: Source, p: nat, k: nat) {
    && p < |order| && k < |Included(files, order[p])| && Included(files, order[p])[k] == source && source !in order
    && (forall j :: 0 <= j < k ==> Included(files, order[p])[j] in order)
    && (forall q :: p < q < |order| ==> Complete(files, order, order[q]))
  }

  /** In depth-first order, `source` comes after `order`: it is the first missing include of the latest
      source that misses one. */
  ghost predicate IsNext(files: Files, order: seq<Source>, source: Source) {
    exists p: nat, k: nat :: NextAt(files, order, source, p, k)
  }

  ghost predicate NextIn(files: Files, order: seq<Source>, i: nat)
    requires i < |order|
  {
    IsNext(files, order[..i], order[i])
  }

  ghost predicate DepthFirst(files: Files, root: Source, order: seq<Source>) {
    && (order != [] ==> order[0] == root)
    && forall i :: 0 < i < |order| ==> NextIn(files, order, i)
  }

  /** `source` is `root` or is included, in `n` steps, from it. */
  ghost predicate ReachableIn(files: Files, root: Source, source: Source, n: nat)
    decreases n
  {
    if n == 0 then source == root
    else exists s :: ReachableIn(files, root, s, n - 1) && source in Included(files, s)
  }

  ghost predicate Reachable(files: Files, root: Source, source: Source) {
    exists n: nat :: ReachableIn(files, root, source, n)
  }

  lemma {:induction false} OrderReachable(files: Files, root: Source, order: seq<Source>, i: nat)
    requires DepthFirst(files, root, order) && i < |order|
    ensures Reachable(files, root, order[i])
    decreases i
  {
    if i == 0 {
      assert ReachableIn(files, root, root, 0);
    } else {
      assert NextIn(files, order, i);
      var p: nat, k: nat :| NextAt(files, order[..i], order[i], p, k);
      OrderReachable(files, root, order, p);
      var n: nat :| ReachableIn(files, root, order[p], n);
      assert ReachableIn(files, root, order[i], n + 1);
    }
  }

  lemma {:induction false} ReachableInOrder(files: Files, root: Source, order: seq<Source>, source: Source, n: nat)
    requires DepthFirst(files, root, order) && order != [] && forall s :: s in order ==> Complete(files, order, s)
    requires ReachableIn(files, root, source, n)
    ensures source in order
    decreases n
  {
    if n > 0 {
      var s :| ReachableIn(files, root, s, n - 1) && source in Included(files, s);
      ReachableInOrder(files, root, order, s, n - 1);
    }
  }

  /** A complete depth-first order has exactly the reachable sources, each once. */
  lemma CompleteOrder(files: Files, root: Source, order: seq<Source>)
    requires DepthFirst(files, root, order) && order != [] && forall s :: s in order ==> Complete(files, order, s)
    ensures forall s :: s in order <==> Reachable(files, root, s)
    ensures forall i, j :: 0 <= i < j < |order| ==> order[i] != order[j]
  {
    forall s ensures s in order <==> Reachable(files, root, s) {
      if s in order {
        var i :| 0 <= i < |order| && order[i] == s;
        OrderReachable(files, root, order, i);
      }
      if Reachable(files, root, s) {
        var n: nat :| ReachableIn(files, root, s, n);
        ReachableInOrder(files, root, order, s, n);
      }
    }
    forall i, j | 0 <= i < j < |order| ensures order[i] != order[j] {
      assert NextIn(files, order, j);
      assert order[..j][i] == order[i];
    }
  }

  lemma NotLater(files: Files, order: seq<Source>, a: Source, p: nat, k: nat, b: Source, q: nat, m: nat)
    requires NextAt(files, order, a, p, k) && NextAt(files, order, b, q, m)
    ensures q <= p && (p == q ==> k <= m)
  {
    assert b in Included(files, order[q]);
    assert !Complete(files, order, order[q]);
  }

  lemma OneNext(files: Files, order: seq<Source>, a: Source, b: Source)
    requires IsNext(files, order, a) && IsNext(files, order, b)
    ensures a == b
  {
    var p: nat, k: nat :| NextAt(files, order, a, p, k);
    var q: nat, m: nat :| NextAt(files, order, b, q, m);
    NotLater(files, order, a, p, k, b, q, m);
    NotLater(files, order, b, q, m, a, p, k);
  }

  lemma OrderPrefix(files: Files, root: Source, order: seq<Source>, n: nat)
    requires DepthFirst(files, root, order) && n <= |order|
    ensures DepthFirst(files, root, order[..n])
  {
    forall i | 0 < i < n ensures NextIn(files, order[..n], i) {
      assert order[..n][..i] == order[..i] && NextIn(files, order, i);
    }
  }

  /** One depth-first order continues another. */
  lemma {:induction false} OneOrder(files: Files, root: Source, a: seq<Source>, b: seq<Source>)
    requires DepthFirst(files, root, a) && DepthFirst(files, root, b) && |a| <= |b|
    ensures a <= b
    decreases |a|
  {
    if |a| > 0 {
      var n := |a| - 1;
      OrderPrefix(files, root, a, n);
      OneOrder(files, root, a[..n], b);
      if n > 0 {
        assert a[..n] == b[..n];
        assert NextIn(files, a, n) && NextIn(files, b, n);
        OneNext(files, a[..n], a[n], b[n]);
      }
    }
  }

  /** There is one complete depth-first order. */
  lemma CompleteOrderUnique(files: Files, root: Source, a: seq<Source>, b: seq<Source>)
    requires DepthFirst(files, root, a) && a != [] && forall s :: s in a ==> Complete(files, a, s)
    requires DepthFirst(files, root, b) && b != [] && forall s :: s in b ==> Complete(files, b, s)
    ensures a == b
  {
    if |a| <= |b| { Longest(files, root, a, b); } else { Longest(files, root, b, a); }
  }

  lemma NextIncomplete(files: Files, order: seq<Source>, source: Source)
    requires IsNext(files, order, source)
    ensures exists s :: s in order && !Complete(files, order, s)
  {
    var p: nat, k: nat :| NextAt(files, order, source, p, k);
    assert source in Included(files, order[p]);
  }

  lemma Longest(files: Files, root: Source, a: seq<Source>, b: seq<Source>)
    requires DepthFirst(files, root, a) && a != [] && forall s :: s in a ==> Complete(files, a, s)
    requires DepthFirst(files, root, b) && |a| <= |b|
    ensures a == b
  {
    OneOrder(files, root, a, b);
    if |a| < |b| {
      assert b[..|a|] == a && NextIn(files, b, |a|);
      NextIncomplete(files, a, b[|a|]);
    }
  }

  // ---- the loader ----------------------------------------------------------------------------------------

  function Sources(configs: seq<Config>): (order: seq<Source>)
    ensures |order| == |configs| && forall i :: 0 <= i < |order| ==> order[i] == configs[i].source
  {
    seq(|configs|, i requires 0 <= i < |configs| => configs[i].source)
  }

  /** Every configuration is as its source has it. */
  predicate Faithful(files: Files, configs: seq<Config>) {
    forall i :: 0 <= i < |configs| ==>
      Problem(files, configs[i].source, i == 0) == None && configs[i] == ConfigOf(files, configs[i].source)
  }

  lemma StaysComplete(files: Files, order: seq<Source>, order': seq<Source>, source: Source)
    requires order <= order' && Complete(files, order, source)
    ensures Complete(files, order', source)
  {
  }

  lemma Extend(files: Files, root: Source, order: seq<Source>, source: Source)
    requires DepthFirst(files, root, order) && (if order == [] then source == root else IsNext(files, order, source))
    ensures DepthFirst(files, root, order + [source])
  {
    forall i | 0 < i < |order + [source]| ensures NextIn(files, order + [source], i) {
      if i < |order| {
        assert (order + [source])[..i] == order[..i];
        assert NextIn(files, order, i);
      } else {
        assert (order + [source])[..i] == order;
      }
    }
  }

  /** The configurations are those of a depth-first order from `root`, and their sources are marked. */
  ghost predicate Loaded(files: Files, root: Source, configs: seq<Config>, loaded: set<Source>) {
    && Faithful(files, configs) && DepthFirst(files, root, Sources(configs))
    && (forall s :: s in loaded <==> s in Sources(configs))
  }

  /** From position `from` on, all includes were loaded. */
  ghost predicate CompleteFrom(files: Files, configs: seq<Config>, from: nat) {
    forall i :: from <= i < |configs| ==> Complete(files, Sources(configs), Sources(configs)[i])
  }

  /** The error is that of the source next in depth-first order. */
  ghost predicate FailsNext(files: Files, root: Source, configs: seq<Config>, e: LoadError) {
    && Problem(files, e.source, configs == []) == Some(e.failure)
    && DepthFirst(files, root, Sources(configs) + [e.source])
  }

  /** The first `k` includes of the configuration at `p` were loaded. */
  ghost predicate LoadedUpTo(files: Files, configs: seq<Config>, p: nat, k: nat) {
    p < |configs| && k <= |Included(files, configs[p].source)|
    && forall j :: 0 <= j < k ==> Included(files, configs[p].source)[j] in Sources(configs)
  }

  /** Whether `source` may be loaded now. */
  ghost predicate MayLoad(files: Files, root: Source, configs: seq<Config>, loaded: set<Source>, source: Source) {
    source in loaded || (if configs == [] then source == root else IsNext(files, Sources(configs), source))
  }

  lemma MayLoadNext(files: Files, root: Source, configs: seq<Config>, loaded: set<Source>, p: nat, k: nat)
    requires Loaded(files, root, configs, loaded) && CompleteFrom(files, configs, p + 1)
    requires LoadedUpTo(files, configs, p, k)
    requires k < |Included(files, configs[p].source)|
    ensures MayLoad(files, root, configs, loaded, Included(files, configs[p].source)[k])
  {
    var ref := Included(files, configs[p].source)[k];
    if ref !in loaded { assert NextAt(files, Sources(configs), ref, p, k); }
  }

  /** Loading include `k` of the configuration at `p`, and all that it includes, completes one more. */
  lemma OneMore(files: Files, configs: seq<Config>, configs': seq<Config>, p: nat, k: nat)
    requires configs <= configs' && CompleteFrom(files, configs, p + 1) && LoadedUpTo(files, configs, p, k)
    requires CompleteFrom(files, configs', |configs|)
    requires k < |Included(files, configs[p].source)| && Included(files, configs[p].source)[k] in Sources(configs')
    ensures CompleteFrom(files, configs', p + 1) && LoadedUpTo(files, configs', p, k + 1)
  {
    assert Sources(configs) <= Sources(configs');
    forall i | p < i < |configs'| ensures Complete(files, Sources(configs'), Sources(configs')[i]) {
      if i < |configs| { StaysComplete(files, Sources(configs), Sources(configs'), Sources(configs)[i]); }
    }
  }

  lemma Started(files: Files, root: Source, configs: seq<Config>, loaded: set<Source>, source: Source)
    requires Loaded(files, root, configs, loaded) && MayLoad(files, root, configs, loaded, source) && source !in loaded
    requires Problem(files, source, configs == []) == None
    ensures var configs' := configs + [ConfigOf(files, source)];
            Loaded(files, root, configs', loaded + {source}) && CompleteFrom(files, configs', |configs'|)
            && LoadedUpTo(files, configs', |configs|, 0)
  {
    Extend(files, root, Sources(configs), source);
    assert Sources(configs + [ConfigOf(files, source)]) == Sources(configs) + [source];
  }

  /** A configuration is as its source has it, and only the first has a tuning section. */
  lemma AsInSource(files: Files, configs: seq<Config>, i: nat)
    requires Faithful(files, configs) && i < |configs|
    ensures var c := configs[i];
            c.source in files.content && files.content[c.source] == Parsed(c.tuning, c.includes, c.settings)
            && (i > 0 ==> c.tuning == None)
  {
  }

  class Loader {
    var loaded: set<Source>
    var configs: seq<Config>

    constructor ()
      ensures loaded == {} && configs == []
    {
      loaded, configs := {}, [];
    }

    /** `load`: loads a source and what it includes. On failure, the offending source is the next in
        depth-first order after those loaded. */
    method Load(files: Files, ghost root: Source, source: Source) returns (err: Option<LoadError>)
      requires Loaded(files, root, configs, loaded) && MayLoad(files, root, configs, loaded, source)
      modifies this
      ensures old(configs) <= configs && old(loaded) <= loaded
      ensures err.None? ==>
                Loaded(files, root, configs, loaded) && source in loaded && CompleteFrom(files, configs, |old(configs)|)
      ensures err.Some? ==> Faithful(files, configs) && FailsNext(files, root, configs, err.value)
      ensures err.Some? ==>
                var s := err.value.source;
                && (err.value.failure == Unreadable <==> s !in files.content)
                && (err.value.failure == Invalid <==> s in files.content && files.content[s].Malformed?)
                && (err.value.failure == UnexpectedTuning <==>
                      s in files.content && files.content[s].Parsed? && files.content[s].tuning.Some? && configs != [])
      ensures forall i :: 0 <= i < |configs| ==>
                var c := configs[i];
                c.source in files.content && files.content[c.source] == Parsed(c.tuning, c.includes, c.settings)
                && (i > 0 ==> c.tuning == None)
      decreases files.content.Keys - loaded, 0
    {
      if source in loaded { return None; }
      Extend(files, root, Sources(configs), source);
      if Problem(files, source, configs == []).None? { Started(files, root, configs, loaded, source); }
      loaded := loaded + {source};
      if source !in files.content { return Some(LoadError(source, Unreadable)); }
      if files.content[source].Malformed? { return Some(LoadError(source, Invalid)); }
      var c := ConfigOf(files, source);
      if |configs| > 0 && c.tuning.Some? { return Some(LoadError(source, UnexpectedTuning)); }
      configs := configs + [c];
      err := LoadIncludes(files, root, c, |configs| - 1);
    }

    /** Loads the includes of the configuration at `p`. */
    method LoadIncludes(files: Files, ghost root: Source, c: Config, ghost p: nat) returns (err: Option<LoadError>)
      requires Loaded(files, root, configs, loaded) && p == |configs| - 1 && configs[p] == c
      modifies this
      ensures old(configs) <= configs && old(loaded) <= loaded
      ensures err.None? ==> Loaded(files, root, configs, loaded) && CompleteFrom(files, configs, p)
      ensures err.Some? ==> Faithful(files, configs) && FailsNext(files, root, configs, err.value)
      decreases files.content.Keys - loaded, 1
    {
      for k := 0 to |c.includes|
        invariant old(configs) <= configs && old(loaded) <= loaded
        invariant Loaded(files, root, configs, loaded) && CompleteFrom(files, configs, p + 1)
        invariant LoadedUpTo(files, configs, p, k)
      {
        ghost var before := configs;
        var ref := files.resolve(c.source, c.includes[k]);
        assert Included(files, c.source)[k] == ref;
        MayLoadNext(files, root, configs, loaded, p, k);
        err := Load(files, root, ref);
        if err.Some? { return; }
        OneMore(files, before, configs, p, k);
      }
      AllIncluded(files, configs, p);
      return None;
    }
  }

  lemma AllIncluded(files: Files, configs: seq<Config>, p: nat)
    requires p < |configs| && LoadedUpTo(files, configs, p, |Included(files, configs[p].source)|)
    requires CompleteFrom(files, configs, p + 1)
    ensures CompleteFrom(files, configs, p)
  {
  }

  /** `Load`: succeeds exactly if every reachable source can be read and parsed and none but the first
      has a tuning section; then it returns every reachable source once, in depth-first order. */
  method LoadAll(files: Files, root: Source) returns (configs: seq<Config>, err: Option<LoadError>)
    ensures err.None? <==>
              forall s :: Reachable(files, root, s) ==>
                s in files.content && files.content[s].Parsed? && (s != root ==> files.content[s].tuning.None?)
    ensures err.None? ==>
              forall i :: 0 <= i < |configs| ==>
                var c := configs[i];
                c.source in files.content && files.content[c.source] == Parsed(c.tuning, c.includes, c.settings)
    ensures err.Some? ==>
              var s := err.value.source;
              && (err.value.failure == Unreadable <==> s !in files.content)
              && (err.value.failure == Invalid <==> s in files.content && files.content[s].Malformed?)
              && (err.value.failure == UnexpectedTuning <==>
                    s in files.content && files.content[s].Parsed? && files.content[s].tuning.Some? && s != root)
    ensures err.None? ==> DepthFirst(files, root, Sources(configs)) && Faithful(files, configs) && configs != []
    ensures err.None? ==> forall s :: s in Sources(configs) <==> Reachable(files, root, s)
    ensures err.None? ==> forall i, j :: 0 <= i < j < |configs| ==> configs[i].source != configs[j].source
    ensures err.Some? ==> Reachable(files, root, err.value.source)
                          && Problem(files, err.value.source, err.value.source == root) == Some(err.value.failure)
  {
    var l := new Loader();
    err := l.Load(files, root, root);
    configs := l.configs;
    ghost var order := Sources(configs);
    if err.None? {
      CompleteOrder(files, root, order);
    } else {
      BadSource(files, root, order, err.value.source);
    }
  }

  /** A source next in depth-first order is reachable, and it is the root only if it is the first. */
  lemma BadSource(files: Files, root: Source, order: seq<Source>, source: Source)
    requires DepthFirst(files, root, order + [source])
    ensures Reachable(files, root, source) && (source == root <==> order == [])
  {
    OrderReachable(files, root, order + [source], |order|);
    if order != [] {
      assert (order + [source])[..|order|] == order && NextIn(files, order + [source], |order|);
      assert order[0] == root;
    }
  }
}

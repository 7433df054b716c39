/** Collecting log records from several streams in timestamp order: a k-way merge that consumes the
    streams in place. */
module Merge {

  type Labels(==, !new)
  type Body(==, !new)

  datatype Log = Log(time: int, body: Body, labels: Labels)

  /** The labels of a stream and the records not yet collected from it. */
  datatype Stream = Stream(labels: Labels, values: seq<Log>)

  /** A collected record and the index of the stream it came from. */
  datatype Pick = Pick(index: nat, log: Log)

  // ---- one pick ------------------------------------------------------------------------------------------

  /** The head of stream `i` is the newest head, and no stream before `i` has one as new. */
  predicate IsLatest(ss: seq<Stream>, i: nat) {
    && i < |ss| && ss[i].values != []
    && forall j :: 0 <= j < |ss| && ss[j].values != [] ==>
         ss[j].values[0].time <= ss[i].values[0].time && (ss[j].values[0].time == ss[i].values[0].time ==> i <= j)
  }

  predicate AllEmpty(ss: seq<Stream>) { forall j :: 0 <= j < |ss| ==> ss[j].values == [] }

  /** The head of a stream, with the stream's labels. */
  function Labelled(labels: Labels, v: Log): Log { v.(labels := labels) }

  function Advance(ss: seq<Stream>, i: nat): seq<Stream>
    requires i < |ss| && ss[i].values != []
  {
    ss[i := ss[i].(values := ss[i].values[1..])]
  }

  function Remaining(ss: seq<Stream>): nat { if ss == [] then 0 else |ss[0].values| + Remaining(ss[1..]) }

  lemma {:induction false} AdvanceTakesOne(ss: seq<Stream>, i: nat)
    requires i < |ss| && ss[i].values != []
    ensures Remaining(Advance(ss, i)) == Remaining(ss) - 1
  {
    if i > 0 {
      assert Advance(ss, i)[1..] == Advance(ss[1..], i - 1);
      AdvanceTakesOne(ss[1..], i - 1);
    } else {
      assert Advance(ss, 0)[1..] == ss[1..];
    }
  }

  // ---- what a merge is -----------------------------------------------------------------------------------

  /** The records of `picks` that came from stream `j`, in order. */
  function From(picks: seq<Pick>, j: nat): seq<Log> {
    if picks == [] then []
    else if picks[0].index == j then [picks[0].log] + From(picks[1..], j)
    else From(picks[1..], j)
  }

  /** All the records of a stream, labelled. */
  function LabelledAll(s: Stream): (logs: seq<Log>)
    ensures |logs| == |s.values| && forall k :: 0 <= k < |logs| ==> logs[k] == Labelled(s.labels, s.values[k])
  {
    seq(|s.values|, k requires 0 <= k < |s.values| => Labelled(s.labels, s.values[k]))
  }

  /** The picks hold every record of every stream exactly once, labelled, each stream's in its order. */
  ghost predicate Interleaves(ss: seq<Stream>, picks: seq<Pick>) {
    && (forall k :: 0 <= k < |picks| ==> picks[k].index < |ss|)
    && forall j: nat :: j < |ss| ==> From(picks, j) == LabelledAll(ss[j])
  }

  predicate NewestFirst(logs: seq<Log>) { forall i, j :: 0 <= i < j < |logs| ==> logs[i].time >= logs[j].time }

  /** Newest first, and records of one time in the order of their streams. */
  predicate Ordered(a: Pick, b: Pick) { a.log.time > b.log.time || (a.log.time == b.log.time && a.index <= b.index) }

  predicate InOrder(picks: seq<Pick>) { forall i, j :: 0 <= i < j < |picks| ==> Ordered(picks[i], picks[j]) }

  /** Picks made by always taking the latest head, lowest stream first, until all streams are empty. */
  ghost predicate Greedy(ss: seq<Stream>, picks: seq<Pick>)
    decreases picks
  {
    if picks == [] then AllEmpty(ss)
    else
      var i := picks[0].index;
      IsLatest(ss, i) && picks[0].log == Labelled(ss[i].labels, ss[i].values[0]) && Greedy(Advance(ss, i), picks[1..])
  }

  /** Greedy picks lose, repeat and reorder nothing within a stream. */
  lemma {:induction false} GreedyInterleaves(ss: seq<Stream>, picks: seq<Pick>)
    requires Greedy(ss, picks)
    ensures Interleaves(ss, picks)
    ensures forall j: nat :: j < |ss| ==> |From(picks, j)| == |ss[j].values|
    ensures forall j: nat, m: nat :: j < |ss| && m < |ss[j].values| ==>
              var log := From(picks, j)[m];
              log.time == ss[j].values[m].time && log.body == ss[j].values[m].body && log.labels == ss[j].labels
    decreases picks
  {
    if picks != [] {
      var i := picks[0].index;
      var rest := Advance(ss, i);
      GreedyInterleaves(rest, picks[1..]);
      forall j: nat | j < |ss| ensures From(picks, j) == LabelledAll(ss[j]) {
        assert From(picks[1..], j) == LabelledAll(rest[j]);
        if j == i { assert LabelledAll(ss[i]) == [Labelled(ss[i].labels, ss[i].values[0])] + LabelledAll(rest[i]); }
      }
    }
  }

  /** Every record collected carries the labels of its stream. */
  lemma LabelsOfStreams(ss: seq<Stream>, picks: seq<Pick>)
    requires Greedy(ss, picks)
    ensures forall k :: 0 <= k < |picks| ==>
              picks[k].index < |ss| && picks[k].log.labels == ss[picks[k].index].labels
  {
    GreedyInterleaves(ss, picks);
    forall k | 0 <= k < |picks| ensures picks[k].log.labels == ss[picks[k].index].labels {
      var m := PickOf(picks, k);
      assert From(picks, picks[k].index)[m] == picks[k].log;
    }
  }

  lemma {:induction false} PickOf(picks: seq<Pick>, k: nat) returns (m: nat)
    requires k < |picks|
    ensures m < |From(picks, picks[k].index)| && From(picks, picks[k].index)[m] == picks[k].log
  {
    if k == 0 {
      m := 0;
    } else {
      m := PickOf(picks[1..], k - 1);
      if picks[0].index == picks[k].index { m := m + 1; }
    }
  }

  predicate AllNewestFirst(ss: seq<Stream>) { forall j :: 0 <= j < |ss| ==> NewestFirst(ss[j].values) }

  /** If every stream is newest first, so are greedy picks, with equal times in stream order. */
  lemma {:induction false} GreedySorts(ss: seq<Stream>, picks: seq<Pick>)
    requires Greedy(ss, picks) && AllNewestFirst(ss)
    ensures InOrder(picks)
    decreases picks
  {
    if picks != [] {
      GreedySorts(Advance(ss, picks[0].index), picks[1..]);
      GreedyInterleaves(ss, picks);
      forall k | 0 < k < |picks| ensures Ordered(picks[0], picks[k]) {
        var m := PickOf(picks, k);
        var s := ss[picks[k].index];
        assert From(picks, picks[k].index) == LabelledAll(s);
        assert picks[k].log == Labelled(s.labels, s.values[m]);
        assert s.values[m].time <= s.values[0].time;
      }
    }
  }

  /** The records of a stream appear among the picks in its order. */
  lemma {:induction false} InStreamOrder(picks: seq<Pick>, j: nat, m: nat, n: nat)
    requires m < n < |From(picks, j)|
    ensures exists k, l ::
              0 <= k < l < |picks| && picks[k].log == From(picks, j)[m] && picks[l].log == From(picks, j)[n]
    decreases picks
  {
    var rest := picks[1..];
    if picks[0].index == j && m == 0 {
      var l := RecordAt(rest, j, n - 1);
      assert picks[l + 1].log == From(picks, j)[n];
    } else {
      var first: nat := if picks[0].index == j then 1 else 0;
      InStreamOrder(rest, j, m - first, n - first);
      var k, l :| 0 <= k < l < |rest| && rest[k].log == From(picks, j)[m] && rest[l].log == From(picks, j)[n];
      assert picks[k + 1].log == From(picks, j)[m] && picks[l + 1].log == From(picks, j)[n];
    }
  }

  /** The records collected are newest first exactly if every stream was; records of one time are then in
      the order of their streams. */
  lemma GreedyInOrder(ss: seq<Stream>, picks: seq<Pick>)
    requires Greedy(ss, picks)
    ensures InOrder(picks) <==> AllNewestFirst(ss)
    ensures AllNewestFirst(ss) <==> forall k, l :: 0 <= k < l < |picks| ==> picks[k].log.time >= picks[l].log.time
  {
    if AllNewestFirst(ss) { GreedySorts(ss, picks); }
    if forall k, l :: 0 <= k < l < |picks| ==> picks[k].log.time >= picks[l].log.time {
      GreedyInterleaves(ss, picks);
      forall j, m, n | 0 <= j < |ss| && 0 <= m < n < |ss[j].values|
        ensures ss[j].values[m].time >= ss[j].values[n].time
      {
        assert From(picks, j) == LabelledAll(ss[j]);
        InStreamOrder(picks, j, m, n);
      }
    }
  }

  lemma NothingFrom(picks: seq<Pick>)
    ensures (forall j: nat :: From(picks, j) == []) <==> picks == []
  {
    if picks != [] { assert From(picks, picks[0].index)[0] == picks[0].log; }
  }

  /** There is only one way to interleave the streams in order. */
  lemma {:induction false} OrderIsUnique(a: seq<Pick>, b: seq<Pick>)
    requires InOrder(a) && InOrder(b) && forall j: nat :: From(a, j) == From(b, j)
    ensures a == b
    decreases a
  {
    NothingFrom(a);
    NothingFrom(b);
    if a != [] && b != [] {
      HeadFirst(a, b);
      HeadFirst(b, a);
      var i := a[0].index;
      assert From(a, i)[0] == a[0].log && From(b, i)[0] == b[0].log;
      forall j: nat ensures From(a[1..], j) == From(b[1..], j) {
        assert From(a, j) == From(b, j);
        if j == i { assert From(a[1..], j) == From(a, j)[1..] && From(b[1..], j) == From(b, j)[1..]; }
      }
      OrderIsUnique(a[1..], b[1..]);
      assert a == [a[0]] + a[1..] && b == [b[0]] + b[1..];
    }
  }

  lemma {:induction false} RecordAt(picks: seq<Pick>, j: nat, m: nat) returns (k: nat)
    requires m < |From(picks, j)|
    ensures k < |picks| && picks[k].index == j && picks[k].log == From(picks, j)[m]
    decreases picks
  {
    if picks[0].index == j && m == 0 {
      k := 0;
    } else {
      k := RecordAt(picks[1..], j, if picks[0].index == j then m - 1 else m);
      k := k + 1;
    }
  }

  lemma HeadFirst(a: seq<Pick>, b: seq<Pick>)
    requires InOrder(a) && a != [] && b != [] && forall j: nat :: From(a, j) == From(b, j)
    ensures Ordered(a[0], b[0])
  {
    var j := b[0].index;
    assert From(b, j)[0] == b[0].log;
    var k := RecordAt(a, j, 0);
  }

  /** Of newest-first streams, an interleaving is the one collected if and only if it is in order. */
  lemma MergeIsStableSort(ss: seq<Stream>, picks: seq<Pick>, other: seq<Pick>)
    requires Greedy(ss, picks) && AllNewestFirst(ss)
    requires Interleaves(ss, other)
    ensures InOrder(other) <==> other == picks
  {
    GreedyInOrder(ss, picks);
    GreedyInterleaves(ss, picks);
    if InOrder(other) {
      forall j: nat ensures From(other, j) == From(picks, j) {
        if j < |ss| {
          assert From(other, j) == LabelledAll(ss[j]) == From(picks, j);
        } else {
          NotFrom(other, |ss|, j);
          NotFrom(picks, |ss|, j);
        }
      }
      OrderIsUnique(other, picks);
    }
  }

  lemma {:induction false} NotFrom(picks: seq<Pick>, n: nat, j: nat)
    requires n <= j && forall k :: 0 <= k < |picks| ==> picks[k].index < n
    ensures From(picks, j) == []
  {
    if picks != [] { NotFrom(picks[1..], n, j); }
  }

  // ---- the program ---------------------------------------------------------------------------------------

  /** The stream whose head is latest, -1 if all are empty. */
  method FindLatest(streams: array<Stream>) returns (i: int)
    ensures if i == -1 then AllEmpty(streams[..]) else 0 <= i < streams.Length && IsLatest(streams[..], i)
  {
    i := -1;
    for j := 0 to streams.Length
      invariant -1 <= i < j
      invariant if i == -1 then AllEmpty(streams[..j]) else IsLatest(streams[..j], i)
    {
      var s := streams[j];
      if |s.values| > 0 && (i < 0 || s.values[0].time > streams[i].values[0].time) {
        i := j;
      }
      assert streams[..j + 1] == streams[..j] + [s];
    }
    assert streams[..streams.Length] == streams[..];
  }

  /** Whatever greedy picks are made from `now` on, they complete `picks` to greedy picks from `start`. */
  ghost predicate Leads(start: seq<Stream>, picks: seq<Pick>, now: seq<Stream>) {
    forall more :: Greedy(now, more) ==> Greedy(start, picks + more)
  }

  lemma LeadsOn(start: seq<Stream>, picks: seq<Pick>, now: seq<Stream>, pick: Pick)
    requires Leads(start, picks, now) && IsLatest(now, pick.index)
    requires pick.log == Labelled(now[pick.index].labels, now[pick.index].values[0])
    ensures Leads(start, picks + [pick], Advance(now, pick.index))
  {
    forall more | Greedy(Advance(now, pick.index), more) ensures Greedy(start, picks + [pick] + more) {
      assert ([pick] + more)[1..] == more && picks + [pick] + more == picks + ([pick] + more);
      assert Greedy(now, [pick] + more);
    }
  }

  /** `collectSorted`: collects every record, consuming the streams. */
  method CollectSorted(streams: array<Stream>) returns (collected: seq<Log>, ghost picks: seq<Pick>)
    modifies streams
    ensures AllEmpty(streams[..]) && Greedy(old(streams[..]), picks)
    ensures |collected| == |picks| && forall k :: 0 <= k < |picks| ==> collected[k] == picks[k].log
    ensures forall k :: 0 <= k < |picks| ==>
              picks[k].index < |old(streams[..])| && collected[k].labels == old(streams[..])[picks[k].index].labels
  {
    collected, picks := [], [];
    assert Leads(streams[..], [], streams[..]) by { assert forall more: seq<Pick> :: [] + more == more; }
    while true
      invariant |collected| == |picks| && forall k :: 0 <= k < |picks| ==> collected[k] == picks[k].log
      invariant Leads(old(streams[..]), picks, streams[..])
      decreases Remaining(streams[..])
    {
      var i := FindLatest(streams);
      if i == -1 {
        assert Greedy(streams[..], []);
        assert picks + [] == picks;
        LabelsOfStreams(old(streams[..]), picks);
        return;
      }
      ghost var before, pick := streams[..], Pick(i, Labelled(streams[i].labels, streams[i].values[0]));
      var v := Labelled(streams[i].labels, streams[i].values[0]);
      collected := collected + [v];
      streams[i] := streams[i].(values := streams[i].values[1..]);
      AdvanceTakesOne(before, i);
      assert streams[..] == Advance(before, i);
      LeadsOn(old(streams[..]), picks, before, pick);
      picks := picks + [pick];
    }
  }
}

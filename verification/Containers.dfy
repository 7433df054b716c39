/** The per-class result containers: growable slices, whose captured headers stay stable while they
    grow, and the deduplicating set and plain list built on them. */
module Containers {
  import opened Correlation

  /** A slice header captured from a list, and (as history) the values it held at that moment. */
  datatype Header = Header(data: array<Object>, len: nat, values: seq<Object>)

  /** A slice that appends in place while its array has room and moves to a larger array otherwise. */
  class Slice {
    var data: array<Object>
    var len: nat
    ghost var captured: set<Header>

    ghost function Arrays(): set<object>
      reads this
    {
      (set h | h in captured :: h.data) + {data}
    }

    /** Every captured header still holds its values, and no header of the current array is longer than
        the list. */
    ghost predicate Valid()
      reads this, Arrays()
    {
      && len <= data.Length
      && forall h :: h in captured ==>
           h.len <= h.data.Length && h.data[..h.len] == h.values && (h.data == data ==> h.len <= len)
    }

    function Contents(): seq<Object>
      requires len <= data.Length
      reads this, data
    {
      data[..len]
    }

    constructor ()
      ensures Valid() && Contents() == [] && captured == {} && fresh(data)
    {
      data, len, captured := new Object[0], 0, {};
    }

    /** Makes room for one more value, moving to an array with `spare` more if there is none. */
    method Reserve(x: Object, spare: nat)
      requires Valid()
      modifies this
      ensures Valid() && Contents() == old(Contents()) && captured == old(captured)
      ensures len == old(len) < data.Length && (data == old(data) || fresh(data))
    {
      if len == data.Length {
        var larger := new Object[len + 1 + spare](_ => x);
        for i := 0 to len
          modifies larger
          invariant larger[..i] == data[..i]
        {
          larger[i] := data[i];
        }
        data := larger;
      }
    }

    /** `append` of one value; `spare` is the extra room a new array gets. */
    method Append(x: Object, spare: nat)
      requires Valid()
      modifies this, data
      ensures Valid() && Contents() == old(Contents()) + [x] && captured == old(captured)
      ensures data == old(data) || fresh(data)
    {
      Reserve(x, spare);
      data[len] := x;
      len := len + 1;
      assert data[..len] == data[..len - 1] + [x];
    }

    /** The header of the list, as read under the lock. */
    method Capture() returns (h: Header)
      requires Valid()
      modifies this`captured
      ensures Valid() && Contents() == old(Contents()) && captured == old(captured) + {h}
      ensures h == Header(data, len, Contents())
    {
      h := Header(data, len, data[..len]);
      captured := captured + {h};
    }

    /** Reading element `i` through a captured header, at any later time, gives the value captured. */
    method Read(h: Header, i: nat) returns (x: Object)
      requires Valid() && h in captured && i < h.len
      ensures i < |h.values| && x == h.values[i]
    {
      assert h.data[..h.len] == h.values;
      x := h.data[i];
    }
  }

  /** Remembers the keys of the values it was asked about. */
  class Deduplicator {
    const key: Object -> Key
    var seen: set<Key>

    constructor (key: Object -> Key)
      ensures this.key == key && seen == {}
    {
      this.key, seen := key, {};
    }

    method Unique(v: Object) returns (ok: bool)
      modifies this`seen
      ensures ok <==> key(v) !in old(seen)
      ensures seen == old(seen) + {key(v)}
    {
      var k := key(v);
      if k in seen { return false; }
      seen := seen + {k};
      return true;
    }
  }

  /** `Set`: ignores an object whose ID it has. */
  class ResultSet {
    const env: Env
    const cls: Class
    const dedup: Deduplicator
    const list: Slice

    ghost predicate Valid()
      reads this, dedup, list, list.Arrays()
    {
      && cls in env.iders && list.Valid() && (forall o :: dedup.key(o) == KeyOf(env, cls, o))
      && (forall k :: k in dedup.seen <==> HasKey(env, cls, list.Contents(), k))
      && forall i, j :: 0 <= i < j < |list.Contents()| ==>
           env.id(cls, list.Contents()[i]) != env.id(cls, list.Contents()[j])
    }

    constructor (env: Env, cls: Class)
      requires cls in env.iders
      ensures this.env == env && this.cls == cls && fresh(dedup) && fresh(list) && fresh(list.data)
      ensures Valid() && list.Contents() == [] && list.captured == {}
    {
      this.env, this.cls := env, cls;
      dedup := new Deduplicator(o => KeyOf(env, cls, o));
      list := new Slice();
    }

    method Add(o: Object, spare: nat) returns (ok: bool)
      requires Valid()
      modifies dedup, list, list.data
      ensures Valid() && list.captured == old(list.captured) && (list.data == old(list.data) || fresh(list.data))
      ensures ok <==>
                forall i :: 0 <= i < |old(list.Contents())| ==> env.id(cls, old(list.Contents())[i]) != env.id(cls, o)
      ensures list.Contents() == if ok then old(list.Contents()) + [o] else old(list.Contents())
      ensures list.Contents() == AddOne(env, cls, old(list.Contents()), o)
    {
      ghost var before := list.Contents();
      AddsNewIds(env, cls, before, o);
      ok := dedup.Unique(o);
      if ok {
        list.Append(o, spare);
        HasKeyAppend(env, cls, before, o);
      }
    }

    method Append(objects: seq<Object>, spare: nat)
      requires Valid()
      modifies dedup, list, list.data
      ensures Valid() && list.captured == old(list.captured) && (list.data == old(list.data) || fresh(list.data))
      ensures list.Contents() == AddAll(env, cls, old(list.Contents()), objects)
      ensures old(list.Contents()) <= list.Contents()
      ensures forall o :: o in list.Contents() ==> o in old(list.Contents()) || o in objects
      ensures forall o :: o in objects ==>
                exists i :: 0 <= i < |list.Contents()| && env.id(cls, list.Contents()[i]) == env.id(cls, o)
    {
      AddAllAppends(env, cls, list.Contents(), objects);
      AddAllDedups(env, cls, list.Contents(), objects);
      for i := 0 to |objects|
        invariant Valid() && list.captured == old(list.captured) && (list.data == old(list.data) || fresh(list.data))
        invariant AddAll(env, cls, list.Contents(), objects[i..]) == AddAll(env, cls, old(list.Contents()), objects)
      {
        assert objects[i..][1..] == objects[i + 1..];
        var ok := Add(objects[i], spare);
      }
    }

    /** No two objects of the list have one ID. */
    lemma HoldsDistinctIds()
      requires Valid()
      ensures forall i, j :: 0 <= i < j < |list.Contents()| ==>
                env.id(cls, list.Contents()[i]) != env.id(cls, list.Contents()[j])
    {
    }
  }

  lemma HasKeyAppend(env: Env, c: Class, list: seq<Object>, o: Object)
    ensures forall k :: HasKey(env, c, list + [o], k) <==> HasKey(env, c, list, k) || k == KeyOf(env, c, o)
  {
    forall k | HasKey(env, c, list, k) ensures HasKey(env, c, list + [o], k) {
      var i :| 0 <= i < |list| && KeyOf(env, c, list[i]) == k;
      assert (list + [o])[i] == list[i];
    }
    assert (list + [o])[|list|] == o;
  }

  /** `List`: keeps every object. */
  class ResultList {
    const env: Env
    const cls: Class
    const list: Slice

    ghost predicate Valid()
      reads this, list, list.Arrays()
    {
      cls !in env.iders && list.Valid()
    }

    constructor (env: Env, cls: Class)
      requires cls !in env.iders
      ensures this.env == env && this.cls == cls && fresh(list) && fresh(list.data)
      ensures Valid() && list.Contents() == [] && list.captured == {}
    {
      this.env, this.cls := env, cls;
      list := new Slice();
    }

    method Add(o: Object, spare: nat) returns (ok: bool)
      requires Valid()
      modifies list, list.data
      ensures Valid() && list.captured == old(list.captured) && (list.data == old(list.data) || fresh(list.data))
      ensures ok && list.Contents() == AddOne(env, cls, old(list.Contents()), o)
      ensures list.Contents() == old(list.Contents()) + [o]
    {
      AddsNewIds(env, cls, list.Contents(), o);
      list.Append(o, spare);
      return true;
    }

    method Append(objects: seq<Object>, spare: nat)
      requires Valid()
      modifies list, list.data
      ensures Valid() && list.captured == old(list.captured) && (list.data == old(list.data) || fresh(list.data))
      ensures list.Contents() == AddAll(env, cls, old(list.Contents()), objects)
      ensures list.Contents() == old(list.Contents()) + objects
    {
      AddAllDedups(env, cls, list.Contents(), objects);
      for i := 0 to |objects|
        invariant Valid() && list.captured == old(list.captured) && (list.data == old(list.data) || fresh(list.data))
        invariant AddAll(env, cls, list.Contents(), objects[i..]) == AddAll(env, cls, old(list.Contents()), objects)
      {
        assert objects[i..][1..] == objects[i + 1..];
        list.Append(objects[i], spare);
      }
    }
  }
}

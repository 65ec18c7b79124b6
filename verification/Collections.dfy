/** The Map and Set objects: entries in insertion order, changed while iterated. */
module Collections {
  import opened Sequences
  import opened Iteration

  datatype Entry<K, V> = Entry(id: Id, key: K, value: V)

  function Ids<K, V>(entries: seq<Entry<K, V>>): (ids: seq<Id>)
    ensures |ids| == |entries| && forall i :: 0 <= i < |ids| ==> ids[i] == entries[i].id
  {
    seq(|entries|, i requires 0 <= i < |entries| => entries[i].id)
  }

  predicate DistinctKeys<K(==), V>(entries: seq<Entry<K, V>>) {
    forall i, j :: 0 <= i < j < |entries| ==> entries[i].key != entries[j].key
  }

  predicate Missing<K(==), V>(entries: seq<Entry<K, V>>, key: K) {
    forall i :: 0 <= i < |entries| ==> entries[i].key != key
  }

  predicate RemovedAt<K(==), V(==)>(was: seq<Entry<K, V>>, now: seq<Entry<K, V>>, i: nat, key: K) {
    i < |was| && was[i].key == key && now == was[..i] + was[i + 1..]
  }

  /** What current() finds. */
  datatype Seen<E> = Nothing | At(entry: E) | Dangling

  lemma RemoveEntry<K, V>(entries: seq<Entry<K, V>>, i: nat)
    requires i < |entries| && Increasing(Ids(entries))
    ensures Ids(entries[..i] + entries[i + 1..]) == Remove(Ids(entries), entries[i].id)
  {
    hide Remove;
    IncreasingNoDup(Ids(entries));
    RemoveAt(Ids(entries), i);
  }

  lemma DistinctWithout<K, V>(entries: seq<Entry<K, V>>, i: nat)
    requires i < |entries| && DistinctKeys(entries)
    ensures DistinctKeys(entries[..i] + entries[i + 1..])
  {
  }

  /** Before the first rewind(). */
  function NewTrack(): Track { Track([], None, None, 0, [], 0, [], {}, {}) }

  lemma NewTrackOk()
    ensures TrackOk(NewTrack()) && Rewound(NewTrack()) == NewTrack()
  {
    assert Schedule(NewTrack()) == [];
  }

  /** `track` is what `calls` made of `base` since its rewind(). */
  ghost predicate Follows(base: Track, calls: seq<Op>, track: Track) {
    TrackOk(base) && Named(Rewound(base), calls) && track == Run(Rewound(base), calls)
  }

  lemma FollowsOk(base: Track, calls: seq<Op>, track: Track)
    requires Follows(base, calls, track)
    ensures TrackOk(track)
  {
    hide TrackOk;
    RewoundOk(base);
    RunOk(Rewound(base), calls);
  }

  lemma FollowsNext(base: Track, calls: seq<Op>, track: Track, op: Op)
    requires Follows(base, calls, track) && (op.DoDelete? ==> op.x < track.next)
    ensures Follows(base, calls + [op], Perform(track, op)) && TrackOk(Perform(track, op))
  {
    hide TrackOk, Perform, Rewound, Named, Run;
    FollowsOk(base, calls, track);
    PerformOk(track, op);
    RunSnoc(Rewound(base), calls, op);
  }

  lemma TrackFacts(t: Track)
    requires TrackOk(t)
    ensures Increasing(t.ids) && (t.temp.Some? ==> t.curr.Some? && t.temp.value in t.ids)
    ensures forall x :: x in t.ids ==> x < t.next
  {
  }

  class OrderedMap<K(==), V(==)> {
    var entries: seq<Entry<K, V>>
    var dirty: bool
    var iterCurr: Option<Id>
    var iterTemp: Option<Id>
    var nextId: Id
    ghost var base: Track       // at the last rewind()
    ghost var calls: seq<Op>    // since then
    ghost var track: Track

    ghost predicate Valid()
      reads this
    {
      && Follows(base, calls, track) && DistinctKeys(entries)
      && track.ids == Ids(entries) && track.curr == iterCurr && track.temp == iterTemp && track.next == nextId
    }

    constructor ()
      ensures Valid() && entries == [] && iterCurr.None? && calls == []
    {
      entries, dirty, iterCurr, iterTemp, nextId := [], false, None, None, 0;
      base, calls, track := NewTrack(), [], NewTrack();
      new;
      NewTrackOk();
    }

    method Find(key: K) returns (i: nat)
      ensures i <= |entries| && (i < |entries| ==> entries[i].key == key) && (i == |entries| <==> Missing(entries, key))
    {
      i := 0;
      while i < |entries| && entries[i].key != key
        invariant i <= |entries| && forall j :: 0 <= j < i ==> entries[j].key != key
      {
        i := i + 1;
      }
    }

    method Append(key: K, value: V)
      requires Valid() && Missing(entries, key)
      modifies this
      ensures Valid() && dirty && entries == old(entries) + [Entry(old(nextId), key, value)]
      ensures base == old(base) && calls == old(calls) + [DoInsert] && track == Inserted(old(track))
      ensures iterCurr == old(iterCurr)
    {
      hide Follows, TrackOk;
      FollowsNext(base, calls, track, DoInsert);
      dirty := true;
      entries := entries + [Entry(nextId, key, value)];
      nextId := nextId + 1;
      calls, track := calls + [DoInsert], Inserted(track);
      assert Ids(entries) == old(Ids(entries)) + [old(nextId)];
    }

    /** set(): a known key keeps its place and its entry, a new one goes last. */
    method Set(key: K, value: V, valid: bool) returns (ok: bool)
      requires Valid()
      modifies this
      ensures Valid() && ok == valid && base == old(base)
      ensures !valid ==> entries == old(entries) && dirty == old(dirty) && calls == old(calls)
      ensures valid ==> dirty
      ensures valid && Missing(old(entries), key) ==>
                entries == old(entries) + [Entry(old(nextId), key, value)] && calls == old(calls) + [DoInsert]
      ensures valid && !Missing(old(entries), key) ==>
                calls == old(calls) && exists i :: (0 <= i < |entries| && old(entries[i]).key == key
                                                    && entries == old(entries)[i := old(entries)[i].(value := value)])
    {
      hide Follows, TrackOk;
      if !valid {
        return false;
      }
      var i := Find(key);
      if i == |entries| {
        Append(key, value);
      } else {
        dirty := true;
        entries := entries[i := entries[i].(value := value)];
        assert Ids(entries) == old(Ids(entries));
        assert old(entries[i]).key == key;
      }
      ok := true;
    }

    method Get(key: K, valid: bool) returns (value: Option<V>)
      requires Valid()
      ensures value.Some? ==> exists i :: 0 <= i < |entries| && entries[i].key == key && entries[i].value == value.value
      ensures value.None? <==> !valid || Missing(entries, key)
    {
      if !valid {
        return None;
      }
      var i := Find(key);
      value := if i < |entries| then Some(entries[i].value) else None;
    }

    /** remove(): the look-ahead steps over the entry before it goes. */
    method Del(key: K, valid: bool) returns (result: bool)
      requires Valid()
      modifies this
      ensures Valid() && (result <==> valid && !Missing(old(entries), key)) && base == old(base)
      ensures !result ==> entries == old(entries) && dirty == old(dirty) && calls == old(calls) && track == old(track)
      ensures result ==> dirty && exists i :: (0 <= i < |old(entries)| && RemovedAt(old(entries), entries, i, key)
                                               && calls == old(calls) + [DoDelete(old(entries)[i].id)]
                                               && track == Deleted(old(track), old(entries)[i].id))
      ensures iterCurr == old(iterCurr)
    {
      hide Follows, TrackOk, Deleted;
      if !valid {
        return false;
      }
      var i := Find(key);
      if i == |entries| {
        return false;
      }
      DelAt(i);
      assert RemovedAt(old(entries), entries, i, key);
      result := true;
    }

    method DelAt(i: nat)
      requires Valid() && i < |entries|
      modifies this
      ensures Valid() && dirty && entries == old(entries)[..i] + old(entries)[i + 1..] && base == old(base)
      ensures calls == old(calls) + [DoDelete(old(entries)[i].id)] && track == Deleted(old(track), old(entries)[i].id)
      ensures iterCurr == old(iterCurr)
    {
      hide Follows, TrackOk, After, Ahead, Remove, Increasing, DistinctKeys;
      DistinctWithout(entries, i);
      FollowsOk(base, calls, track);
      TrackFacts(track);
      var x, ids := entries[i].id, Ids(entries);
      assert x == ids[i] && x in ids;
      FollowsNext(base, calls, track, DoDelete(x));
      RemoveEntry(entries, i);
      dirty := true;
      if iterTemp == Some(x) {
        iterTemp := After(ids, x);
      }
      entries := entries[..i] + entries[i + 1..];
      calls, track := calls + [DoDelete(x)], Deleted(track, x);
    }

    method Rewind()
      requires Valid()
      modifies this`iterCurr, this`iterTemp, this`base, this`calls, this`track
      ensures Valid() && base == old(track) && calls == [] && track == Rewound(base)
    {
      hide TrackOk, Rewound;
      FollowsOk(base, calls, track);
      RewoundIs(track);
      base, calls, track := track, [], Rewound(track);
      if entries == [] {
        iterCurr, iterTemp := None, None;
      } else {
        iterCurr := Some(entries[0].id);
        iterTemp := After(Ids(entries), entries[0].id);
      }
    }

    method Next()
      requires Valid()
      modifies this`iterCurr, this`iterTemp, this`calls, this`track
      ensures Valid() && calls == old(calls) + [DoNext] && track == Advanced(old(track))
      ensures iterCurr.Some? ==> exists i :: 0 <= i < |entries| && entries[i].id == iterCurr.value
    {
      hide Follows, TrackOk;
      FollowsOk(base, calls, track);
      TrackFacts(track);
      FollowsNext(base, calls, track, DoNext);
      iterCurr := iterTemp;
      iterTemp := if iterTemp.Some? then After(Ids(entries), iterTemp.value) else None;
      calls, track := calls + [DoNext], Advanced(track);
      assert iterCurr.Some? ==> iterCurr.value in Ids(entries);
    }

    /** current() and key(): the entry under the iterator. It dangles exactly if a call since rewind() removed it. */
    method Current() returns (seen: Seen<Entry<K, V>>)
      requires Valid()
      ensures seen.Nothing? <==> iterCurr.None?
      ensures seen.Dangling? <==> iterCurr.Some? && DoDelete(iterCurr.value) in calls
      ensures seen.At? ==> seen.entry in entries && seen.entry.id == iterCurr.value
    {
      hide TrackOk, Named, Run, Rewound;
      if iterCurr.None? {
        return Nothing;
      }
      CurrentDanglesIff(base, calls);
      var i := 0;
      while i < |entries| && entries[i].id != iterCurr.value
        invariant 0 <= i <= |entries| && forall j :: 0 <= j < i ==> Ids(entries)[j] != iterCurr.value
      {
        i := i + 1;
      }
      assert i < |entries| ==> Ids(entries)[i] == iterCurr.value;
      seen := if i < |entries| then At(entries[i]) else Dangling;
    }
  }

  lemma RewoundIs(t: Track)
    requires TrackOk(t)
    ensures TrackOk(Rewound(t)) && Named(Rewound(t), []) && Run(Rewound(t), []) == Rewound(t)
    ensures Rewound(t).ids == t.ids && Rewound(t).next == t.next
    ensures Rewound(t).curr == (if t.ids == [] then None else Some(t.ids[0]))
    ensures Rewound(t).temp == (if t.ids == [] then None else After(t.ids, t.ids[0]))
  {
    RewoundOk(t);
    hide TrackOk;
  }

  /** A set is a list of values alone, and counts the steps of its iterator. */
  class OrderedSet<V(==)> {
    const list: OrderedMap<V, ()>
    var iterIndex: nat

    /** While there is a current value, key() is its place among the values visited. */
    ghost predicate Valid()
      reads this, list
    {
      list.Valid() && (list.iterCurr.Some? ==> iterIndex + 1 == |list.track.visited|)
    }

    constructor ()
      ensures Valid() && fresh(list) && list.entries == []
    {
      list := new OrderedMap();
      iterIndex := 0;
    }

    /** add(): a value already there changes nothing, not even the dirty mark. */
    method Add(value: V, valid: bool) returns (ok: bool)
      requires Valid()
      modifies list
      ensures Valid() && ok == valid
      ensures valid && Missing(old(list.entries), value) ==>
                list.dirty && list.entries == old(list.entries) + [Entry(old(list.nextId), value, ())]
                && list.calls == old(list.calls) + [DoInsert]
      ensures !valid || !Missing(old(list.entries), value) ==>
                list.dirty == old(list.dirty) && list.entries == old(list.entries) && list.calls == old(list.calls)
    {
      if valid {
        var i := list.Find(value);
        if i == |list.entries| {
          list.Append(value, ());
        }
      }
      ok := valid;
    }

    method Del(value: V, valid: bool) returns (result: bool)
      requires Valid()
      modifies list
      ensures Valid() && (result <==> valid && !Missing(old(list.entries), value))
      ensures !result ==> list.entries == old(list.entries) && list.dirty == old(list.dirty) && list.calls == old(list.calls)
      ensures result ==> list.dirty && exists i :: (0 <= i < |old(list.entries)| && RemovedAt(old(list.entries), list.entries, i, value)
                                                    && list.calls == old(list.calls) + [DoDelete(old(list.entries)[i].id)])
    {
      hide Follows;
      result := list.Del(value, valid);
    }

    method Rewind()
      requires Valid()
      modifies this, list
      ensures Valid() && iterIndex == 0 && list.entries == old(list.entries)
      ensures list.base == old(list.track) && list.calls == [] && list.track == Rewound(list.base)
    {
      hide Follows;
      list.Rewind();
      iterIndex := 0;
    }

    method Next()
      requires Valid()
      modifies this, list
      ensures Valid() && iterIndex == old(iterIndex) + 1 && list.entries == old(list.entries)
      ensures list.calls == old(list.calls) + [DoNext] && list.track == Advanced(old(list.track))
      ensures list.iterCurr.Some? ==> exists i :: 0 <= i < |list.entries| && list.entries[i].id == list.iterCurr.value
    {
      FollowsOk(list.base, list.calls, list.track);
      TrackFacts(list.track);
      hide Follows, TrackOk;
      list.Next();
      iterIndex := iterIndex + 1;
    }
  }
}

/**
 * Iterating over an insertion-ordered list with a current entry and a look-ahead entry
 * while entries come and go, as Map and Set do. Entries are numbered as they are made, so
 * a number is an entry's identity: a key removed and added again is a new entry.
 *
 * Environment: the hash table keeps its entries in insertion order.
 */
module Iteration {
  import opened Sequences

  type Id = nat

  /**
   * The iterator and what happened since rewind(): `start` separates the entries present
   * then from later ones, `visited` lists what became current, `skipped` what was removed
   * while still ahead; `removed` is everything ever removed.
   */
  datatype Track = Track(
    ids: seq<Id>,
    curr: Option<Id>,
    temp: Option<Id>,
    next: Id,
    snapshot: seq<Id>,
    start: Id,
    visited: seq<Id>,
    skipped: set<Id>,
    removed: set<Id>)

  predicate Increasing(s: seq<Id>) { forall i, j :: 0 <= i < j < |s| ==> s[i] < s[j] }

  predicate Below(s: seq<Id>, n: Id) { forall i :: 0 <= i < |s| ==> s[i] < n }

  /** The entry after `x`: the link hh.next. */
  function After(ids: seq<Id>, x: Id): Option<Id> {
    if ids == [] then None
    else if ids[0] == x then (if |ids| > 1 then Some(ids[1]) else None)
    else After(ids[1..], x)
  }

  /** The entries from the look-ahead on. */
  function Ahead(ids: seq<Id>, temp: Option<Id>): seq<Id> {
    if temp.None? || ids == [] then [] else if ids[0] == temp.value then ids else Ahead(ids[1..], temp)
  }

  // ---- the list ------------------------------------------------------------

  lemma IncreasingTail(s: seq<Id>)
    requires Increasing(s) && s != []
    ensures Increasing(s[1..]) && s[0] !in s[1..]
  {
  }

  lemma IncreasingJoin(a: seq<Id>, b: seq<Id>)
    ensures Increasing(a + b) ==> Increasing(a) && Increasing(b)
    ensures Increasing(a + b) ==> forall x, y :: x in a && y in b ==> x < y
  {
    if Increasing(a + b) {
      assert forall i :: 0 <= i < |a| ==> (a + b)[i] == a[i];
      assert forall i :: 0 <= i < |b| ==> (a + b)[|a| + i] == b[i];
    }
  }

  lemma {:induction false} AheadHead(ids: seq<Id>, t: Id)
    requires t in ids
    ensures Ahead(ids, Some(t)) != [] && Ahead(ids, Some(t))[0] == t
    ensures forall x :: x in Ahead(ids, Some(t)) ==> x in ids
  {
    if ids[0] != t {
      AheadHead(ids[1..], t);
    }
  }

  /** Moving the look-ahead along its link drops the first of what is ahead. */
  lemma {:induction false} AheadAfter(ids: seq<Id>, t: Id)
    requires Increasing(ids) && t in ids
    ensures Ahead(ids, Some(t)) == [t] + Ahead(ids, After(ids, t))
    ensures After(ids, t).Some? ==> After(ids, t).value in ids && After(ids, t).value > t
  {
    AheadHead(ids, t);
    IncreasingTail(ids);
    if ids[0] == t {
      if |ids| > 1 {
        assert ids[1..][0] == ids[1];
      }
    } else {
      AheadAfter(ids[1..], t);
      assert ids[0] < t;
    }
  }

  lemma {:induction false} AheadInsert(ids: seq<Id>, t: Id, n: Id)
    requires t in ids
    ensures Ahead(ids + [n], Some(t)) == Ahead(ids, Some(t)) + [n]
  {
    if ids[0] != t {
      AheadInsert(ids[1..], t, n);
      assert (ids + [n])[1..] == ids[1..] + [n];
    }
  }

  lemma {:induction false} AheadRemove(ids: seq<Id>, t: Id, x: Id)
    requires Increasing(ids) && t in ids && x != t
    ensures Ahead(Remove(ids, x), Some(t)) == Remove(Ahead(ids, Some(t)), x)
  {
    IncreasingTail(ids);
    if ids[0] == x {
      AheadMissing(ids[1..], t, x);
    } else if ids[0] != t {
      AheadRemove(ids[1..], t, x);
      assert Remove(ids, x)[1..] == Remove(ids[1..], x);
    }
  }

  lemma {:induction false} AheadMissing(ids: seq<Id>, t: Id, x: Id)
    requires x !in ids
    ensures Remove(Ahead(ids, Some(t)), x) == Ahead(ids, Some(t))
  {
    if ids != [] && ids[0] != t {
      AheadMissing(ids[1..], t, x);
    } else {
      RemoveMissing(ids, x);
    }
  }

  lemma {:induction false} RemoveMissing(ids: seq<Id>, x: Id)
    requires x !in ids
    ensures Remove(ids, x) == ids
  {
    if ids != [] {
      RemoveMissing(ids[1..], x);
      assert ids == [ids[0]] + ids[1..];
    }
  }

  /** Removing the look-ahead entry itself, once the look-ahead moved past it. */
  lemma {:induction false} AheadRemoveHead(ids: seq<Id>, t: Id)
    requires Increasing(ids) && t in ids
    ensures Ahead(ids, Some(t)) == [t] + Ahead(Remove(ids, t), After(ids, t))
  {
    IncreasingTail(ids);
    if ids[0] == t {
      if |ids| > 1 {
        assert ids[1..][0] == ids[1];
      }
    } else {
      AheadRemoveHead(ids[1..], t);
      AheadAfter(ids[1..], t);
      assert Remove(ids, t)[1..] == Remove(ids[1..], t);
    }
  }

  // ---- the iterator --------------------------------------------------------

  ghost predicate Order(t: Track) {
    && Increasing(t.ids) && Below(t.ids, t.next)
    && t.start <= t.next && Below(t.snapshot, t.start)
    && (t.temp.Some? ==> t.temp.value in t.ids)
    && (t.curr.None? ==> t.temp.None?)
    && (t.curr.Some? ==> t.visited != [] && t.curr.value == t.visited[|t.visited| - 1])
    && (forall x :: 0 <= x < t.next ==> (x in t.ids <==> x !in t.removed))
    && (forall x :: x in t.removed ==> x < t.next)
  }

  function Schedule(t: Track): seq<Id> { t.visited + Ahead(t.ids, t.temp) }

  /** What was and will be current is in insertion order; of the entries present at rewind, it lacks only the skipped. */
  ghost predicate Covers(t: Track) {
    && Increasing(Schedule(t)) && Below(Schedule(t), t.next)
    && (forall x :: x in Schedule(t) && x < t.start ==> x in t.snapshot && x !in t.skipped)
    && (forall x :: x in t.snapshot && x !in t.skipped ==> x in Schedule(t))
  }

  ghost predicate TrackOk(t: Track) { Order(t) && Covers(t) }

  function Rewound(t: Track): Track {
    if t.ids == [] then t.(curr := None, temp := None, snapshot := [], start := t.next, visited := [], skipped := {})
    else t.(curr := Some(t.ids[0]), temp := After(t.ids, t.ids[0]), snapshot := t.ids, start := t.next,
            visited := [t.ids[0]], skipped := {})
  }

  lemma RewoundOk(t: Track)
    requires TrackOk(t)
    ensures TrackOk(Rewound(t))
  {
    var r := Rewound(t);
    if t.ids != [] {
      AheadAfter(t.ids, t.ids[0]);
      assert Ahead(t.ids, Some(t.ids[0])) == t.ids;
      assert Schedule(r) == t.ids;
    } else {
      assert Schedule(r) == [];
    }
  }

  function Advanced(t: Track): Track {
    if t.temp.None? then t.(curr := None)
    else t.(curr := t.temp, temp := After(t.ids, t.temp.value), visited := t.visited + [t.temp.value])
  }

  /** next(): the schedule stays, and what becomes current is a live entry. */
  lemma AdvancedOk(t: Track)
    requires TrackOk(t)
    ensures TrackOk(Advanced(t)) && Schedule(Advanced(t)) == Schedule(t)
    ensures Advanced(t).curr.Some? ==> Advanced(t).curr.value in t.ids && Advanced(t).curr.value !in t.removed
  {
    if t.temp.Some? {
      AheadAfter(t.ids, t.temp.value);
      assert Schedule(Advanced(t)) == Schedule(t);
    }
  }

  function Inserted(t: Track): Track { t.(ids := t.ids + [t.next], next := t.next + 1) }

  /** A new entry goes last; it is scheduled unless the look-ahead has run out. */
  lemma InsertedOk(t: Track)
    requires TrackOk(t)
    ensures TrackOk(Inserted(t))
    ensures Schedule(Inserted(t)) == if t.temp.Some? then Schedule(t) + [t.next] else Schedule(t)
  {
    if t.temp.Some? {
      AheadInsert(t.ids, t.temp.value, t.next);
      assert Schedule(Inserted(t)) == Schedule(t) + [t.next];
    }
  }

  function Deleted(t: Track, x: Id): Track {
    t.(temp := if t.temp == Some(x) then After(t.ids, x) else t.temp,
       ids := Remove(t.ids, x),
       skipped := if x in Ahead(t.ids, t.temp) then t.skipped + {x} else t.skipped,
       removed := t.removed + {x})
  }

  lemma IncreasingNoDup(s: seq<Id>)
    requires Increasing(s)
    ensures NoDup(s)
  {
  }

  lemma IncreasingRemove(s: seq<Id>, x: Id, n: Id)
    requires Increasing(s)
    ensures Increasing(Remove(s, x)) && (Below(s, n) ==> Below(Remove(s, x), n))
  {
    hide Remove;
    if x in s {
      var i :| 0 <= i < |s| && s[i] == x;
      IncreasingNoDup(s);
      RemoveAt(s, i);
      var t := s[..i] + s[i + 1..];
      assert forall j :: 0 <= j < |t| ==> t[j] == if j < i then s[j] else s[j + 1];
    } else {
      RemoveMissing(s, x);
    }
  }

  /** What a removal does to what is ahead, the look-ahead entry itself included. */
  lemma AheadDeleted(t: Track, x: Id)
    requires Order(t) && x in t.ids
    ensures Ahead(Deleted(t, x).ids, Deleted(t, x).temp) == Remove(Ahead(t.ids, t.temp), x)
  {
    if t.temp == Some(x) {
      AheadRemoveHead(t.ids, x);
    } else if t.temp.Some? {
      AheadRemove(t.ids, t.temp.value, x);
    }
  }

  lemma DeletedOrder(t: Track, x: Id)
    requires Order(t) && x in t.ids
    ensures Order(Deleted(t, x))
  {
    IncreasingNoDup(t.ids);
    RemoveMembers(t.ids, x);
    IncreasingRemove(t.ids, x, t.next);
    if t.temp == Some(x) {
      AheadAfter(t.ids, x);
    }
  }

  /** Removing an entry takes it off the schedule if it was still ahead, and nothing else. */
  lemma DeletedOk(t: Track, x: Id)
    requires TrackOk(t) && x in t.ids
    ensures TrackOk(Deleted(t, x))
    ensures Schedule(Deleted(t, x)) == t.visited + Remove(Ahead(t.ids, t.temp), x)
  {
    hide Order;
    var ahead, d := Ahead(t.ids, t.temp), Deleted(t, x);
    DeletedOrder(t, x);
    AheadDeleted(t, x);
    IncreasingJoin(t.visited, ahead);
    IncreasingNoDup(ahead);
    RemoveMembers(ahead, x);
    IncreasingRemove(ahead, x, t.next);
    DeletedCovers(t, d, x);
  }

  lemma DeletedCovers(t: Track, d: Track, x: Id)
    requires Covers(t) && d.visited == t.visited && d.next == t.next && d.start == t.start && d.snapshot == t.snapshot
    requires d.skipped == if x in Ahead(t.ids, t.temp) then t.skipped + {x} else t.skipped
    requires Ahead(d.ids, d.temp) == Remove(Ahead(t.ids, t.temp), x) && Increasing(Ahead(d.ids, d.temp))
    requires forall y :: y in Ahead(d.ids, d.temp) <==> y in Ahead(t.ids, t.temp) && y != x
    ensures Covers(d)
  {
    hide Ahead;
    var ahead, left := Ahead(t.ids, t.temp), Ahead(d.ids, d.temp);
    IncreasingJoin(t.visited, ahead);
    assert forall y :: y in left ==> y in ahead;
    assert Schedule(d) == t.visited + left && Schedule(t) == t.visited + ahead;
    forall i, j | 0 <= i < j < |Schedule(d)| ensures Schedule(d)[i] < Schedule(d)[j] {
      if i < |t.visited| <= j {
        assert Schedule(d)[i] in t.visited && Schedule(d)[j] in left;
      }
    }
    forall i | 0 <= i < |Schedule(d)| ensures Schedule(d)[i] < d.next {
      assert Schedule(d)[i] in Schedule(t);
    }
  }

  // ---- what it means -------------------------------------------------------

  /**
   * When the iteration is over, the entries present at rewind() that became current are
   * exactly those not removed before their turn, each once and in insertion order.
   */
  lemma IterationComplete(t: Track)
    requires TrackOk(t) && t.curr.None?
    ensures Increasing(t.visited)
    ensures forall x :: x in t.snapshot ==> (x in t.visited <==> x !in t.skipped)
    ensures forall x :: x in t.visited && x < t.start ==> x in t.snapshot
  {
    assert Schedule(t) == t.visited;
  }

  /** An entry is skipped only if it was removed, and only before it became current. */
  lemma SkippedNeverCurrent(t: Track, x: Id)
    requires TrackOk(t) && x in t.skipped && x < t.start
    ensures x !in t.visited && t.curr != Some(x)
  {
    assert x in t.visited ==> x in Schedule(t);
  }

  /** The look-ahead is null or a live entry, and what was removed is never ahead. */
  lemma LookAheadLive(t: Track)
    requires TrackOk(t)
    ensures t.temp.Some? ==> t.temp.value in t.ids && t.temp.value !in t.removed
    ensures forall x :: x in Ahead(t.ids, t.temp) ==> x in t.ids
  {
    if t.temp.Some? {
      AheadHead(t.ids, t.temp.value);
    }
  }

  lemma CurrentIsOld(t: Track)
    requires TrackOk(t) && t.curr.Some?
    ensures t.curr.value < t.next && (t.curr.value in t.ids <==> t.curr.value !in t.removed)
  {
    assert t.curr.value in Schedule(t);
    assert forall x :: x in Schedule(t) ==> x < t.next;
  }

  /** Removing the current entry leaves the iterator pointing at it. */
  lemma CurrentCanDangle(t: Track)
    requires TrackOk(t) && t.curr.Some? && t.curr.value in t.ids
    ensures Deleted(t, t.curr.value).curr == t.curr && t.curr.value !in Deleted(t, t.curr.value).ids
  {
    IncreasingNoDup(t.ids);
    RemoveMembers(t.ids, t.curr.value);
  }

  // ---- whole iterations ----------------------------------------------------

  datatype Op = DoNext | DoInsert | DoDelete(x: Id)

  function Perform(t: Track, op: Op): Track {
    match op
    case DoNext => Advanced(t)
    case DoInsert => Inserted(t)
    case DoDelete(x) => if x in t.ids then Deleted(t, x) else t
  }

  function Run(t: Track, ops: seq<Op>): Track
    decreases |ops|
  {
    if ops == [] then t else Run(Perform(t, ops[0]), ops[1..])
  }

  lemma PerformOk(t: Track, op: Op)
    requires TrackOk(t)
    ensures TrackOk(Perform(t, op))
    ensures Perform(t, op).snapshot == t.snapshot && Perform(t, op).start == t.start
    ensures forall x :: x in Perform(t, op).skipped ==> x in t.skipped || op == DoDelete(x)
  {
    hide TrackOk;
    match op
    case DoNext => AdvancedOk(t);
    case DoInsert => InsertedOk(t);
    case DoDelete(x) =>
      if x in t.ids {
        DeletedOk(t, x);
      }
  }

  lemma {:induction false} RunOk(t: Track, ops: seq<Op>)
    requires TrackOk(t)
    ensures TrackOk(Run(t, ops)) && Run(t, ops).snapshot == t.snapshot && Run(t, ops).start == t.start
    ensures forall x :: x in Run(t, ops).skipped ==> x in t.skipped || DoDelete(x) in ops
    decreases |ops|
  {
    hide TrackOk, Perform;
    if ops != [] {
      PerformOk(t, ops[0]);
      RunOk(Perform(t, ops[0]), ops[1..]);
    }
  }

  /**
   * However next(), insertions and removals interleave after rewind(), an entry present
   * then and never removed has become current once by the time the iteration is over, and
   * entries become current in insertion order.
   */
  lemma KeptEntriesAreVisited(t: Track, ops: seq<Op>, x: Id)
    requires TrackOk(t) && x in t.ids && DoDelete(x) !in ops && Run(Rewound(t), ops).curr.None?
    ensures x in Run(Rewound(t), ops).visited && Increasing(Run(Rewound(t), ops).visited)
  {
    hide TrackOk;
    RewoundOk(t);
    RunOk(Rewound(t), ops);
    IterationComplete(Run(Rewound(t), ops));
  }

  // ---- the current entry ---------------------------------------------------

  /** Removals name entries that have been made; nothing else has a name. */
  ghost predicate Named(t: Track, ops: seq<Op>)
    decreases |ops|
  {
    ops == [] || ((ops[0].DoDelete? ==> ops[0].x < t.next) && Named(Perform(t, ops[0]), ops[1..]))
  }

  lemma {:induction false} RunSnoc(t: Track, ops: seq<Op>, op: Op)
    ensures Run(t, ops + [op]) == Perform(Run(t, ops), op)
    ensures Named(t, ops + [op]) <==> Named(t, ops) && (op.DoDelete? ==> op.x < Run(t, ops).next)
    decreases |ops|
  {
    hide Perform;
    if ops == [] {
      assert ops + [op] == [op] && [op][1..] == [];
      assert Named(Perform(t, op), []);
    } else {
      assert (ops + [op])[1..] == ops[1..] + [op];
      RunSnoc(Perform(t, ops[0]), ops[1..], op);
    }
  }

  /** What has been removed is what removals named. */
  lemma {:induction false} RemovedIff(t: Track, ops: seq<Op>, x: Id)
    requires TrackOk(t) && Named(t, ops) && x < Run(t, ops).next
    ensures x in Run(t, ops).removed <==> x in t.removed || DoDelete(x) in ops
    decreases |ops|
  {
    hide TrackOk, Perform;
    if ops != [] {
      PerformOk(t, ops[0]);
      RemovedIff(Perform(t, ops[0]), ops[1..], x);
      RemovedStep(t, ops[0], x);
    }
  }

  lemma RemovedStep(t: Track, op: Op, x: Id)
    requires TrackOk(t) && (op.DoDelete? ==> op.x < t.next)
    ensures x in Perform(t, op).removed <==> x in t.removed || op == DoDelete(x)
  {
  }

  /** Between two calls of next() the current entry exists exactly as long as nobody removes it. */
  lemma {:induction false} CurrentLastsUntilRemoved(t: Track, ops: seq<Op>)
    requires TrackOk(t) && t.curr.Some? && t.curr.value in t.ids && DoNext !in ops
    ensures Run(t, ops).curr == t.curr
    ensures t.curr.value in Run(t, ops).ids <==> DoDelete(t.curr.value) !in ops
    decreases |ops|
  {
    CurrentIsOld(t);
    hide TrackOk;
    if ops != [] {
      PerformOk(t, ops[0]);
      PerformCurrent(t, ops[0]);
      if ops[0] == DoDelete(t.curr.value) {
        GoneForGood(Perform(t, ops[0]), ops[1..], t.curr.value);
      } else {
        CurrentLastsUntilRemoved(Perform(t, ops[0]), ops[1..]);
      }
    }
  }

  lemma PerformCurrent(t: Track, op: Op)
    requires TrackOk(t) && t.curr.Some? && t.curr.value in t.ids && !op.DoNext?
    ensures Perform(t, op).curr == t.curr && t.curr.value < t.next
    ensures t.curr.value in Perform(t, op).ids <==> op != DoDelete(t.curr.value)
    ensures op == DoDelete(t.curr.value) ==> t.curr.value in Perform(t, op).removed
  {
    IncreasingNoDup(t.ids);
    if op.DoDelete? {
      RemoveMembers(t.ids, op.x);
    }
  }

  lemma {:induction false} GoneForGood(t: Track, ops: seq<Op>, x: Id)
    requires TrackOk(t) && x in t.removed && DoNext !in ops
    ensures x !in Run(t, ops).ids && Run(t, ops).curr == t.curr
    decreases |ops|
  {
    if ops == [] {
      RemovedIsGone(t, x);
    } else {
      hide TrackOk;
      PerformOk(t, ops[0]);
      StillRemoved(t, ops[0], x);
      GoneForGood(Perform(t, ops[0]), ops[1..], x);
    }
  }

  lemma RemovedIsGone(t: Track, x: Id)
    requires TrackOk(t) && x in t.removed
    ensures x !in t.ids
  {
  }

  lemma StillRemoved(t: Track, op: Op, x: Id)
    requires x in t.removed
    ensures x in Perform(t, op).removed && (!op.DoNext? ==> Perform(t, op).curr == t.curr)
  {
  }

  lemma PerformSchedule(t: Track, op: Op, x: Id)
    requires TrackOk(t) && x in Schedule(Perform(t, op))
    ensures x in Schedule(t) || x == t.next
  {
    match op
    case DoNext => AdvancedOk(t);
    case DoInsert => InsertedOk(t);
    case DoDelete(y) =>
      if y in t.ids {
        DeletedOk(t, y);
        IncreasingJoin(t.visited, Ahead(t.ids, t.temp));
        IncreasingNoDup(Ahead(t.ids, t.temp));
        RemoveMembers(Ahead(t.ids, t.temp), y);
      }
  }

  /** Nothing removed before rewind() is ever scheduled after it. */
  lemma {:induction false} ScheduleIsFresh(t: Track, ops: seq<Op>, gone: set<Id>)
    requires TrackOk(t) && (forall x :: x in gone ==> x < t.next) && (forall x :: x in Schedule(t) ==> x !in gone)
    ensures forall x :: x in Schedule(Run(t, ops)) ==> x !in gone
    decreases |ops|
  {
    hide TrackOk, Perform, Schedule;
    if ops != [] {
      PerformOk(t, ops[0]);
      PerformNext(t, ops[0]);
      forall x | x in Schedule(Perform(t, ops[0])) ensures x !in gone {
        PerformSchedule(t, ops[0], x);
      }
      ScheduleIsFresh(Perform(t, ops[0]), ops[1..], gone);
    }
  }

  lemma PerformNext(t: Track, op: Op)
    ensures Perform(t, op).next >= t.next
  {
  }

  lemma RewoundFresh(t: Track)
    requires TrackOk(t)
    ensures forall x :: x in Schedule(Rewound(t)) ==> x !in t.removed
    ensures forall x :: x in t.removed ==> x < t.next
    ensures Rewound(t).removed == t.removed && Rewound(t).next == t.next
  {
    if t.ids != [] {
      AheadAfter(t.ids, t.ids[0]);
      assert Ahead(t.ids, Some(t.ids[0])) == t.ids;
    }
    assert Schedule(Rewound(t)) == t.ids;
  }

  /** After any calls since rewind(), the current entry dangles exactly if one of them removed it. */
  lemma CurrentDanglesIff(t: Track, ops: seq<Op>)
    requires TrackOk(t) && Named(Rewound(t), ops) && Run(Rewound(t), ops).curr.Some?
    ensures var end := Run(Rewound(t), ops);
      end.curr.value in end.ids <==> DoDelete(end.curr.value) !in ops
  {
    hide TrackOk, Named, Rewound;
    var end := Run(Rewound(t), ops);
    RewoundOk(t);
    RewoundFresh(t);
    RunOk(Rewound(t), ops);
    CurrentIsOld(end);
    RemovedIff(Rewound(t), ops, end.curr.value);
    ScheduleIsFresh(Rewound(t), ops, t.removed);
    CurrentIsScheduled(end);
  }

  lemma CurrentIsScheduled(t: Track)
    requires TrackOk(t) && t.curr.Some?
    ensures t.curr.value in Schedule(t)
  {
  }
}

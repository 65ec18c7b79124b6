/**
 * The per-worker cache of clusters, sessions and prepared statements: one table keyed by
 * 64-bit fingerprints, a counter and a cap for each kind, and sessions lent out of it.
 *
 * A key is whatever its fingerprint came out as, so two requests may meet under one key,
 * of one kind or of two. A driver future resolves once, for good.
 */
module PersistentCache {
  import opened Sequences
  import CacheKey

  type Key = CacheKey.Key
  type FutureId = nat
  type SessionId = nat

  datatype Kind = Clusters | Sessions | Prepared

  datatype Entry =
    | ClusterEntry
    | SessionEntry(session: SessionId, future: FutureId)
    | PreparedEntry(future: FutureId)

  function KindOf(e: Entry): Kind {
    match e
    case ClusterEntry => Clusters
    case SessionEntry(_, _) => Sessions
    case PreparedEntry(_) => Prepared
  }

  datatype Fate = Pending | Good | Bad

  /** What happens while a call waits for a future that is still pending. */
  datatype Wait = TimesOut | ResolvesWell | ResolvesBadly

  datatype FutureSession = FutureSession(
    persist: bool,
    key: Key,
    session: Option<SessionId>,
    future: Option<FutureId>,
    failed: bool,                 // an exception was recorded
    ready: Option<SessionId>)     // the DefaultSession handed out before

  // ---- accounting ----------------------------------------------------------

  function KeysOf(table: map<Key, Entry>, kind: Kind): set<Key> {
    set k | k in table && KindOf(table[k]) == kind
  }

  ghost predicate Counted(table: map<Key, Entry>, used: map<Kind, nat>) {
    forall kind: Kind :: kind in used && used[kind] == |KeysOf(table, kind)|
  }

  ghost predicate Capped(used: map<Kind, nat>, caps: map<Kind, int>) {
    forall kind: Kind :: kind in used && kind in caps && (caps[kind] >= 0 ==> used[kind] <= caps[kind])
  }

  lemma KeysAfterPut(table: map<Key, Entry>, key: Key, e: Entry, kind: Kind)
    requires key !in table
    ensures |KeysOf(table[key := e], kind)| == |KeysOf(table, kind)| + if KindOf(e) == kind then 1 else 0
  {
    assert KeysOf(table[key := e], kind) == KeysOf(table, kind) + if KindOf(e) == kind then {key} else {};
  }

  lemma KeysAfterRemove(table: map<Key, Entry>, key: Key, kind: Kind)
    requires key in table
    ensures |KeysOf(table, kind)| == |KeysOf(table - {key}, kind)| + if KindOf(table[key]) == kind then 1 else 0
  {
    assert KeysOf(table, kind) == KeysOf(table - {key}, kind) + if KindOf(table[key]) == kind then {key} else {};
  }

  // ---- lent sessions -------------------------------------------------------

  /** Each cached session has one entry, is not freed, and a lent one has a good future. */
  ghost predicate LentOk(table: map<Key, Entry>, fates: map<FutureId, Fate>, lent: set<SessionId>, freed: set<SessionId>) {
    && (forall k :: k in table && table[k].SessionEntry? ==> table[k].future in fates && table[k].session !in freed)
    && (forall k :: k in table && table[k].SessionEntry? && table[k].session in lent ==> fates[table[k].future] == Good)
    && (forall k, l :: k in table && l in table && table[k].SessionEntry? && table[l].SessionEntry? && k != l ==>
          table[k].session != table[l].session)
  }

  /** A FutureSession that persists can only share the entry it was made with. */
  ghost predicate FutureSessionOk(fs: FutureSession, table: map<Key, Entry>, fates: map<FutureId, Fate>) {
    && (fs.future.Some? ==> fs.future.value in fates)
    && (fs.session.Some? ==>
          forall k :: k in table && table[k].SessionEntry? && table[k].session == fs.session.value ==>
            fs.persist && k == fs.key && fs.future == Some(table[k].future))
  }

  ghost predicate FutureSessionsOk(fss: map<nat, FutureSession>, table: map<Key, Entry>, fates: map<FutureId, Fate>) {
    forall i :: i in fss ==> FutureSessionOk(fss[i], table, fates)
  }

  /** Its entry is still in the table. */
  predicate Current(fs: FutureSession, table: map<Key, Entry>) {
    fs.persist ==> fs.session.Some? && fs.future.Some? && fs.key in table &&
                   table[fs.key] == SessionEntry(fs.session.value, fs.future.value)
  }

  predicate GoodStatement(table: map<Key, Entry>, fates: map<FutureId, Fate>, key: Key) {
    key in table && table[key].PreparedEntry? && table[key].future in fates && fates[table[key].future] == Good
  }

  /** Every lent session with an entry in `was`, other than at `except`, has the same entry in `now`. */
  ghost predicate LentSurvive(was: map<Key, Entry>, now: map<Key, Entry>, lent: set<SessionId>, except: set<Key>) {
    forall k :: k in was && k !in except && was[k].SessionEntry? && was[k].session in lent ==> k in now && now[k] == was[k]
  }

  /** What freeing an entry frees. */
  function FreedBy(e: Entry): set<SessionId> { if e.SessionEntry? then {e.session} else {} }

  lemma RemoveCounted(table: map<Key, Entry>, used: map<Kind, nat>, key: Key)
    requires Counted(table, used) && key in table
    ensures used[KindOf(table[key])] > 0
    ensures Counted(table - {key}, used[KindOf(table[key]) := used[KindOf(table[key])] - 1])
  {
    hide KeysOf;
    forall kind { KeysAfterRemove(table, key, kind); }
  }

  lemma PutCounted(table: map<Key, Entry>, used: map<Kind, nat>, key: Key, e: Entry)
    requires Counted(table, used) && key !in table
    ensures Counted(table[key := e], used[KindOf(e) := used[KindOf(e)] + 1])
  {
    hide KeysOf;
    forall kind { KeysAfterPut(table, key, e, kind); }
  }

  lemma CappedAfter(used: map<Kind, nat>, caps: map<Kind, int>, kind: Kind, n: nat)
    requires Capped(used, caps) && (n <= used[kind] || caps[kind] < 0 || n <= caps[kind])
    ensures Capped(used[kind := n], caps)
  {
  }

  lemma RemoveLent(table: map<Key, Entry>, fates: map<FutureId, Fate>, lent: set<SessionId>, freed: set<SessionId>, key: Key)
    requires LentOk(table, fates, lent, freed) && key in table
    ensures LentOk(table - {key}, fates, lent, freed + FreedBy(table[key]))
  {
  }

  lemma PutLent(table: map<Key, Entry>, fates: map<FutureId, Fate>, lent: set<SessionId>, freed: set<SessionId>, key: Key, e: Entry)
    requires LentOk(table, fates, lent, freed) && key !in table
    requires e.SessionEntry? ==> e.future in fates && e.session !in freed && e.session !in lent
    requires e.SessionEntry? ==> forall k :: k in table && table[k].SessionEntry? ==> table[k].session != e.session
    ensures LentOk(table[key := e], fates, lent, freed)
  {
  }

  /** Numbers from `next` on are unused. */
  ghost predicate FreshOk(table: map<Key, Entry>, fates: map<FutureId, Fate>, lent: set<SessionId>, freed: set<SessionId>,
                          fss: map<nat, FutureSession>, next: nat)
  {
    && (forall f :: f in fates ==> f < next)
    && (forall k :: k in table && table[k].SessionEntry? ==> table[k].session < next)
    && (forall x :: x in lent ==> x < next)
    && (forall x :: x in freed ==> x < next)
    && (forall i :: i in fss ==> i < next && (fss[i].session.Some? ==> fss[i].session.value < next))
    && (forall k :: k in table && table[k].PreparedEntry? ==> table[k].future in fates)
  }

  lemma RemoveFresh(table: map<Key, Entry>, fates: map<FutureId, Fate>, lent: set<SessionId>, freed: set<SessionId>,
                    fss: map<nat, FutureSession>, next: nat, key: Key)
    requires FreshOk(table, fates, lent, freed, fss, next) && FutureSessionsOk(fss, table, fates) && key in table
    ensures FreshOk(table - {key}, fates, lent, freed + FreedBy(table[key]), fss, next)
    ensures FutureSessionsOk(fss, table - {key}, fates)
  {
  }

  lemma PutFresh(table: map<Key, Entry>, fates: map<FutureId, Fate>, lent: set<SessionId>, freed: set<SessionId>,
                 fss: map<nat, FutureSession>, next: nat, key: Key, e: Entry)
    requires FreshOk(table, fates, lent, freed, fss, next) && FutureSessionsOk(fss, table, fates)
    requires e.SessionEntry? ==> e.session < next && forall i :: i in fss ==> fss[i].session != Some(e.session)
    requires e.PreparedEntry? ==> e.future in fates
    ensures FreshOk(table[key := e], fates, lent, freed, fss, next)
    ensures FutureSessionsOk(fss, table[key := e], fates)
  {
  }

  /** A number not used yet is nobody's. */
  lemma Unused(table: map<Key, Entry>, fates: map<FutureId, Fate>, lent: set<SessionId>, freed: set<SessionId>,
               fss: map<nat, FutureSession>, next: nat, x: nat)
    requires FreshOk(table, fates, lent, freed, fss, next) && x >= next
    ensures x !in fates && x !in lent && x !in freed && x !in fss
    ensures forall k :: k in table && table[k].SessionEntry? ==> table[k].session != x
    ensures forall i :: i in fss ==> fss[i].session != Some(x)
  {
  }

  // ---- stale FutureSessions ------------------------------------------------

  function EntryFuture(e: Entry): Option<FutureId> { if e.ClusterEntry? then None else Some(e.future) }

  function FutureFreedBy(e: Entry): set<FutureId> { if e.ClusterEntry? then {} else {e.future} }

  /** Its session and future are freed exactly once its entry is gone; nobody else caches them. */
  ghost predicate StaleIff(fs: FutureSession, table: map<Key, Entry>, freed: set<SessionId>, dead: set<FutureId>) {
    fs.future.Some? ==>
      && (forall k :: k in table && EntryFuture(table[k]) == fs.future ==>
            fs.persist && k == fs.key && fs.session.Some? && table[k] == SessionEntry(fs.session.value, fs.future.value))
      && (fs.future.value in dead <==> !Current(fs, table))
      && (fs.session.Some? ==> (fs.session.value in freed <==> !Current(fs, table)))
  }

  ghost predicate FuturesOk(table: map<Key, Entry>, fates: map<FutureId, Fate>, dead: set<FutureId>) {
    && (forall f :: f in dead ==> f in fates)
    && (forall k :: k in table && !table[k].ClusterEntry? ==> table[k].future !in dead && table[k].future in fates)
    && (forall k, l :: k in table && l in table && k != l && !table[k].ClusterEntry? && !table[l].ClusterEntry? ==>
          table[k].future != table[l].future)
  }

  ghost predicate StaleOk(fss: map<nat, FutureSession>, table: map<Key, Entry>, fates: map<FutureId, Fate>,
                          freed: set<SessionId>, dead: set<FutureId>)
  {
    FuturesOk(table, fates, dead) && forall i :: i in fss ==> StaleIff(fss[i], table, freed, dead)
  }

  lemma RemoveFutures(table: map<Key, Entry>, fates: map<FutureId, Fate>, dead: set<FutureId>, key: Key)
    requires FuturesOk(table, fates, dead) && key in table
    ensures FuturesOk(table - {key}, fates, dead + FutureFreedBy(table[key]))
  {
  }

  lemma RemoveStaleIff(fs: FutureSession, table: map<Key, Entry>, fates: map<FutureId, Fate>, freed: set<SessionId>,
                       dead: set<FutureId>, key: Key)
    requires StaleIff(fs, table, freed, dead) && FutureSessionOk(fs, table, fates) && key in table
    ensures StaleIff(fs, table - {key}, freed + FreedBy(table[key]), dead + FutureFreedBy(table[key]))
  {
  }

  lemma RemoveStale(fss: map<nat, FutureSession>, table: map<Key, Entry>, fates: map<FutureId, Fate>,
                    freed: set<SessionId>, dead: set<FutureId>, key: Key)
    requires StaleOk(fss, table, fates, freed, dead) && FutureSessionsOk(fss, table, fates) && key in table
    ensures StaleOk(fss, table - {key}, fates, freed + FreedBy(table[key]), dead + FutureFreedBy(table[key]))
  {
    hide StaleIff, FutureSessionOk, FuturesOk;
    RemoveFutures(table, fates, dead, key);
    forall i | i in fss ensures StaleIff(fss[i], table - {key}, freed + FreedBy(table[key]), dead + FutureFreedBy(table[key])) {
      RemoveStaleIff(fss[i], table, fates, freed, dead, key);
    }
  }

  /** No FutureSession and no entry knows the future of `e`. */
  ghost predicate NewFutureOf(e: Entry, fss: map<nat, FutureSession>, table: map<Key, Entry>, fates: map<FutureId, Fate>,
                              dead: set<FutureId>)
  {
    !e.ClusterEntry? ==>
      && e.future in fates && e.future !in dead
      && (forall i :: i in fss ==> fss[i].future != Some(e.future))
      && (forall k :: k in table ==> EntryFuture(table[k]) != Some(e.future))
  }

  lemma PutStale(fss: map<nat, FutureSession>, table: map<Key, Entry>, fates: map<FutureId, Fate>,
                 freed: set<SessionId>, dead: set<FutureId>, key: Key, e: Entry)
    requires StaleOk(fss, table, fates, freed, dead) && key !in table && NewFutureOf(e, fss, table, fates, dead)
    ensures StaleOk(fss, table[key := e], fates, freed, dead)
  {
    forall i | i in fss ensures StaleIff(fss[i], table[key := e], freed, dead) {
      assert StaleIff(fss[i], table, freed, dead);
    }
  }

  /** A future the driver has not handed out yet is nobody's. */
  lemma UnusedFuture(fss: map<nat, FutureSession>, table: map<Key, Entry>, fates: map<FutureId, Fate>,
                     freed: set<SessionId>, dead: set<FutureId>, f: FutureId)
    requires StaleOk(fss, table, fates, freed, dead) && FutureSessionsOk(fss, table, fates) && f !in fates
    ensures f !in dead && (forall i :: i in fss ==> fss[i].future != Some(f))
    ensures forall k :: k in table ==> EntryFuture(table[k]) != Some(f)
  {
    forall i | i in fss ensures fss[i].future != Some(f) {
      assert FutureSessionOk(fss[i], table, fates);
    }
  }

  // ---- what get() does -----------------------------------------------------

  /** How the wait for a future ends. */
  function OutcomeOf(fate: Fate, wait: Wait): Wait {
    match fate
    case Good => ResolvesWell
    case Bad => ResolvesBadly
    case Pending => wait
  }

  function FateAfter(fate: Fate, wait: Wait): Fate {
    match OutcomeOf(fate, wait)
    case ResolvesWell => Good
    case ResolvesBadly => Bad
    case TimesOut => Pending
  }

  /** get() comes as far as waiting. */
  predicate Asks(fs: FutureSession, fates: map<FutureId, Fate>) {
    !fs.failed && fs.ready.None? && fs.session.Some? && fs.future.Some? && fs.future.value in fates
  }

  predicate Connects(fs: FutureSession, fates: map<FutureId, Fate>, wait: Wait) {
    Asks(fs, fates) && OutcomeOf(fates[fs.future.value], wait) == ResolvesWell
  }

  /** get() deletes whatever stands under its key. */
  predicate Evicts(fs: FutureSession, fates: map<FutureId, Fate>, wait: Wait) {
    && Asks(fs, fates) && fs.persist
    && (OutcomeOf(fates[fs.future.value], wait) == ResolvesBadly
        || (OutcomeOf(fates[fs.future.value], wait) == TimesOut && fs.key != CacheKey.Fingerprint(0)))
  }

  /** The FutureSession after get(); `had` says whether there was an entry to delete. */
  function Got(fs: FutureSession, fates: map<FutureId, Fate>, wait: Wait, had: bool): FutureSession {
    if !Asks(fs, fates) then fs
    else
      var now := if fs.persist then fs else fs.(session := None);
      if Connects(fs, fates, wait) then now.(ready := fs.session)
      else now.(failed := fs.persist && OutcomeOf(fates[fs.future.value], wait) == ResolvesBadly,
                future := if Evicts(fs, fates, wait) && had then None else fs.future)
  }

  function HandedBy(fs: FutureSession, fates: map<FutureId, Fate>, wait: Wait): Option<SessionId> {
    if fs.failed then None else if fs.ready.Some? then fs.ready
    else if Connects(fs, fates, wait) then fs.session else None
  }

  /** What get() handed out once it hands out ever after, whatever becomes of the futures. */
  lemma HandedForGood(fs: FutureSession, fates: map<FutureId, Fate>, wait: Wait, had: bool,
                      later: map<FutureId, Fate>, next: Wait)
    requires HandedBy(fs, fates, wait).Some?
    ensures HandedBy(Got(fs, fates, wait, had), later, next) == HandedBy(fs, fates, wait)
    ensures Got(Got(fs, fates, wait, had), later, next, had) == Got(fs, fates, wait, had)
  {
  }

  predicate LentAt(table: map<Key, Entry>, lent: set<SessionId>, k: Key) {
    k in table && table[k].SessionEntry? && table[k].session in lent
  }

  /** A FutureSession evicts a lent session exactly if it evicts at all and a lent one stands under its key. */
  lemma LentGoesIff(fs: FutureSession, table: map<Key, Entry>, fates: map<FutureId, Fate>, lent: set<SessionId>, wait: Wait)
    ensures var now := if Evicts(fs, fates, wait) then table - {fs.key} else table;
      (exists k :: LentAt(table, lent, k) && !LentAt(now, lent, k)) <==> Evicts(fs, fates, wait) && LentAt(table, lent, fs.key)
  {
    var now := if Evicts(fs, fates, wait) then table - {fs.key} else table;
    if Evicts(fs, fates, wait) && LentAt(table, lent, fs.key) {
      assert !LentAt(now, lent, fs.key);
    }
  }

  /** Only a stale one does: while its entry is in the table, that entry is not lent. */
  lemma CurrentSparesLent(fs: FutureSession, table: map<Key, Entry>, fates: map<FutureId, Fate>, lent: set<SessionId>,
                          freed: set<SessionId>, wait: Wait)
    requires LentOk(table, fates, lent, freed) && Evicts(fs, fates, wait) && LentAt(table, lent, fs.key)
    ensures !Current(fs, table)
  {
  }

  /** get() waits on a freed future, and would hand out a freed session, exactly when it is stale. */
  lemma ReadsFreedIffStale(fss: map<nat, FutureSession>, table: map<Key, Entry>, fates: map<FutureId, Fate>,
                           freed: set<SessionId>, dead: set<FutureId>, i: nat)
    requires StaleOk(fss, table, fates, freed, dead) && i in fss && Asks(fss[i], fates)
    ensures fss[i].future.value in dead <==> !Current(fss[i], table)
    ensures fss[i].session.value in freed <==> !Current(fss[i], table)
  {
    hide FuturesOk;
    assert StaleIff(fss[i], table, freed, dead);
  }

  // ---- the cache -----------------------------------------------------------

  class Cache {
    const caps: map<Kind, int>
    var table: map<Key, Entry>
    var used: map<Kind, nat>
    var warned: set<Kind>
    var futureSessions: map<nat, FutureSession>
    var fates: map<FutureId, Fate>  // the driver's futures
    var nextId: nat
    ghost var lent: set<SessionId>  // sessions handed out of the cache
    ghost var freed: set<SessionId>
    ghost var dead: set<FutureId>   // futures freed with their entry

    ghost predicate Valid()
      reads this
    {
      Counted(table, used) && Capped(used, caps) && LentOk(table, fates, lent, freed)
      && FreshOk(table, fates, lent, freed, futureSessions, nextId)
      && FutureSessionsOk(futureSessions, table, fates)
      && StaleOk(futureSessions, table, fates, freed, dead)
    }

    constructor (clusters: int, sessions: int, prepared: int)
      ensures Valid() && table == map[] && futureSessions == map[] && lent == freed == {}
      ensures caps == map[Clusters := clusters, Sessions := sessions, Prepared := prepared]
    {
      caps := map[Clusters := clusters, Sessions := sessions, Prepared := prepared];
      used := map[Clusters := 0, Sessions := 0, Prepared := 0];
      table, fates, futureSessions := map[], map[], map[];
      warned, lent, freed, dead, nextId := {}, {}, {}, {}, 0;
      new;
      forall kind: Kind ensures kind in used && kind in caps && used[kind] == 0 {
        match kind case Clusters => case Sessions => case Prepared =>
      }
    }

    /** A future resolves, once. */
    method Resolve(f: FutureId, well: bool)
      requires Valid() && f in fates && fates[f] == Pending
      modifies this`fates
      ensures Valid() && fates == old(fates)[f := if well then Good else Bad]
    {
      fates := fates[f := if well then Good else Bad];
    }

    /** Whether the pool has room; it warns the first time it has not. */
    method CanCache(kind: Kind) returns (room: bool)
      requires Valid()
      modifies this`warned
      ensures kind in caps && kind in used && (room <==> caps[kind] < 0 || used[kind] < caps[kind])
      ensures warned == if room then old(warned) else old(warned) + {kind}
    {
      KindKnown(used, caps, table, kind);
      if caps[kind] < 0 || used[kind] < caps[kind] {
        return true;
      }
      if kind !in warned {
        warned := warned + {kind};
      }
      room := false;
    }

    /** An entry leaves the table: its destructor frees what it owns and lowers its counter. */
    method Delete(key: Key) returns (deleted: bool)
      requires Valid()
      modifies this`table, this`used, this`freed, this`dead
      ensures Valid() && deleted == (key in old(table)) && table == old(table) - {key}
      ensures freed == old(freed) + if deleted then FreedBy(old(table[key])) else {}
      ensures dead == old(dead) + if deleted then FutureFreedBy(old(table[key])) else {}
      ensures deleted ==> KindOf(old(table[key])) in old(used) && old(used)[KindOf(old(table[key]))] > 0
      ensures used == if deleted then old(used)[KindOf(old(table[key])) := old(used)[KindOf(old(table[key]))] - 1] else old(used)
    {
      hide Counted, Capped, LentOk, FreshOk, FutureSessionsOk, StaleOk;
      deleted := key in table;
      if deleted {
        var e := table[key];
        assert KindOf(e) in used && used[KindOf(e)] > 0 by { CountedAt(table, used, KindOf(e)); RemoveCounted(table, used, key); }
        RemoveCounted(table, used, key);
        CappedAfter(used, caps, KindOf(e), used[KindOf(e)] - 1);
        RemoveLent(table, fates, lent, freed, key);
        RemoveFresh(table, fates, lent, freed, futureSessions, nextId, key);
        RemoveStale(futureSessions, table, fates, freed, dead, key);
        used := used[KindOf(e) := used[KindOf(e)] - 1];
        freed, dead := freed + FreedBy(e), dead + FutureFreedBy(e);
        table := table - {key};
      } else {
        assert table == table - {key} && freed == freed + {} && dead == dead + {};
      }
    }

    /** An entry goes in; one of any kind that stood under the key is destroyed. */
    method Update(key: Key, e: Entry)
      requires Valid() && KindOf(e) in caps && KindOf(e) in used
      requires caps[KindOf(e)] < 0 || used[KindOf(e)] < caps[KindOf(e)]
      requires e.SessionEntry? ==> e.future in fates && e.session < nextId && e.session !in freed && e.session !in lent
      requires e.SessionEntry? ==> forall k :: k in table && table[k].SessionEntry? ==> table[k].session != e.session
      requires e.SessionEntry? ==> forall i :: i in futureSessions ==> futureSessions[i].session != Some(e.session)
      requires NewFutureOf(e, futureSessions, table, fates, dead)
      modifies this`table, this`used, this`freed, this`dead
      ensures Valid() && table == old(table)[key := e]
      ensures freed == old(freed) + if key in old(table) then FreedBy(old(table[key])) else {}
      ensures dead == old(dead) + if key in old(table) then FutureFreedBy(old(table[key])) else {}
    {
      hide Counted, Capped, LentOk, FreshOk, FutureSessionsOk, StaleOk, NewFutureOf;
      ghost var was, gone := table, dead;
      var deleted := Delete(key);
      CountedAt(table, used, KindOf(e));
      PutCounted(table, used, key, e);
      CappedAfter(used, caps, KindOf(e), used[KindOf(e)] + 1);
      PutLent(table, fates, lent, freed, key, e);
      StillNew(e, futureSessions, was, fates, gone, key);
      PutFresh(table, fates, lent, freed, futureSessions, nextId, key, e);
      PutStale(futureSessions, table, fates, freed, dead, key, e);
      used := used[KindOf(e) := used[KindOf(e)] + 1];
      table := table[key := e];
      assert table == was[key := e];
    }

    /** wait_timed() and is_error(): a resolved future is not waited for. */
    method Await(f: FutureId, wait: Wait) returns (outcome: Wait)
      requires Valid() && f in fates
      modifies this`fates
      ensures Valid() && outcome == OutcomeOf(old(fates[f]), wait)
      ensures fates == old(fates)[f := FateAfter(old(fates[f]), wait)]
    {
      hide Counted, Capped, LentOk, FreshOk, FutureSessionsOk, StaleOk;
      if fates[f] == Pending && wait != TimesOut {
        Resolve(f, wait == ResolvesWell);
      }
      outcome := if fates[f] == Good then ResolvesWell else if fates[f] == Bad then ResolvesBadly else TimesOut;
      assert fates == old(fates)[f := fates[f]];
    }

    /** A new driver future. */
    method NewFuture() returns (f: FutureId)
      requires Valid()
      modifies this`fates, this`nextId
      ensures Valid() && f == old(nextId) && f !in old(fates) && fates == old(fates)[f := Pending] && nextId == old(nextId) + 1
    {
      f := nextId;
      assert f !in fates;
      fates := fates[f := Pending];
      nextId := nextId + 1;
    }

    /**
     * build(): a hit reuses the cluster, a miss caches a new one if there is room. What stood
     * under the key of a cached miss, even a lent session, goes; nothing else does.
     */
    method Build(key: Key, persist: bool) returns (persists: bool)
      requires Valid()
      modifies this
      ensures Valid() && lent == old(lent) && futureSessions == old(futureSessions)
      ensures persists <==> persist && (ClusterAt(old(table), key) || !old(Full(Clusters)))
      ensures table == if persists then old(table)[key := ClusterEntry] else old(table)
      ensures freed == old(freed) + if persists && key in old(table) then FreedBy(old(table)[key]) else {}
    {
      hide Counted, Capped, LentOk, FreshOk, FutureSessionsOk, StaleOk;
      persists := persist;
      if persist {
        if key in table && table[key].ClusterEntry? {
          assert table == table[key := ClusterEntry] && freed == freed + {};
          return;
        }
        persists := CanCache(Clusters);
      }
      if persists {
        KindKnown(used, caps, table, Clusters);
        Update(key, ClusterEntry);
      } else {
        assert freed == freed + {};
      }
    }

    /** Connections in progress: a session and the future of its connect. */
    method NewSession() returns (session: SessionId, f: FutureId)
      requires Valid()
      modifies this`fates, this`nextId
      ensures Valid() && session == old(nextId) && f == session + 1 && nextId == f + 1
      ensures f !in old(fates) && fates == old(fates)[f := Pending]
    {
      session := nextId;
      nextId := nextId + 1;
      f := NewFuture();
    }

    method CacheSession(key: Key, session: SessionId, f: FutureId)
      requires Valid() && Sessions in caps && Sessions in used && (caps[Sessions] < 0 || used[Sessions] < caps[Sessions])
      requires f in fates && session < nextId && session !in freed && session !in lent
      requires forall k :: k in table && table[k].SessionEntry? ==> table[k].session != session
      requires forall i :: i in futureSessions ==> futureSessions[i].session != Some(session)
      requires key in table ==> !table[key].SessionEntry?
      requires NewFutureOf(SessionEntry(session, f), futureSessions, table, fates, dead)
      modifies this`table, this`used, this`freed, this`dead
      ensures Valid() && table == old(table)[key := SessionEntry(session, f)] && freed == old(freed)
    {
      hide Counted, Capped, LentOk, FreshOk, FutureSessionsOk, StaleOk, NewFutureOf;
      Update(key, SessionEntry(session, f));
      assert old(freed) + {} == freed;
    }

    /** What connect() and connectAsync() share: a hit borrows, a miss connects and caches if there is room. */
    method Begin(key: Key, persist: bool) returns (session: SessionId, f: FutureId, persists: bool)
      requires Valid()
      modifies this`table, this`used, this`freed, this`dead, this`warned, this`fates, this`nextId
      ensures Valid() && f in fates && session < nextId && (persists ==> persist)
      ensures Hit(old(table), key, persist) ==>
                persists && table == old(table) && fates == old(fates) && table[key] == SessionEntry(session, f)
      ensures !Hit(old(table), key, persist) ==>
                f !in old(fates) && fates == old(fates)[f := Pending]
                && table == if persists then old(table)[key := SessionEntry(session, f)] else old(table)
      ensures persist && !persists ==> Full(Sessions)
      ensures !persists ==> Unshared(session, f, table)
      ensures LentSurvive(old(table), table, lent, {}) && freed == old(freed)
      ensures !persists ==> f !in dead && session !in freed
    {
      hide Counted, Capped, FreshOk, FutureSessionsOk, StaleOk;
      persists := persist;
      if persist {
        if key in table && table[key].SessionEntry? {
          session, f := table[key].session, table[key].future;
          SessionKnown(table, fates, lent, freed, futureSessions, nextId, key);
          return;
        }
        persists := CanCache(Sessions);
      }
      Unused(table, fates, lent, freed, futureSessions, nextId, nextId);
      UnusedAfter(table, fates, lent, freed, futureSessions, nextId);
      UnusedFuture(futureSessions, table, fates, freed, dead, nextId + 1);
      session, f := NewSession();
      if persists {
        CacheSession(key, session, f);
      }
    }

    ghost predicate Full(kind: Kind)
      reads this
    {
      kind in used && kind in caps && used[kind] >= caps[kind] >= 0
    }

    /** connect() */
    method Connect(key: Key, persist: bool, wait: Wait) returns (handed: Option<SessionId>, persists: bool)
      requires Valid()
      modifies this
      ensures Valid() && futureSessions == old(futureSessions)
      ensures handed.Some? && persists ==>
                key in table && table[key].SessionEntry? && table[key].session == handed.value && handed.value in lent
      ensures handed.None? && persists ==> key !in table
      ensures Hit(old(table), key, persist) ==> persists && HitFate(old(table), old(fates), key).Some?
      ensures Hit(old(table), key, persist) ==>
                (handed.Some? <==> OutcomeOf(HitFate(old(table), old(fates), key).value, wait) == ResolvesWell)
      ensures Hit(old(table), key, persist) && handed.Some? ==> handed == Some(old(table)[key].session) && table == old(table)
      ensures !Hit(old(table), key, persist) ==> (handed.Some? <==> wait == ResolvesWell)
      ensures !Hit(old(table), key, persist) ==> forall g :: g in old(fates) ==> g in fates && fates[g] == old(fates)[g]
      ensures persist && !persists ==> Full(Sessions) && table == old(table)
      ensures LentSurvive(old(table), table, old(lent), {})
      ensures forall x :: x in old(lent) && x !in old(freed) ==> x in lent && x !in freed
      ensures SameElsewhere(old(table), table, key)
    {
      hide Counted, Capped, LentOk, FreshOk, FutureSessionsOk, StaleOk, LentSurvive, SameElsewhere;
      HitKnown(table, fates, lent, freed, key, persist);
      var session, f;
      session, f, persists := Begin(key, persist);
      ghost var mid := table;
      handed := Finish(key, session, f, persists, wait);
      SurviveTrans(old(table), mid, table, old(lent));
      ElsewhereSame(old(table), mid, table, key, SessionEntry(session, f));
    }

    /** Wait for the connection; a failed one is taken out of the cache again. */
    method Finish(key: Key, session: SessionId, f: FutureId, persists: bool, wait: Wait) returns (handed: Option<SessionId>)
      requires Valid() && f in fates && session < nextId
      requires persists ==> key in table && table[key] == SessionEntry(session, f)
      modifies this`fates, this`table, this`used, this`freed, this`dead, this`lent
      ensures Valid()
      ensures handed == if OutcomeOf(old(fates[f]), wait) == ResolvesWell then Some(session) else None
      ensures fates == old(fates)[f := FateAfter(old(fates[f]), wait)]
      ensures table == if handed.None? && persists then old(table) - {key} else old(table)
      ensures lent == old(lent) + if handed.Some? && persists then {session} else {}
      ensures table == old(table) ==> used == old(used)
      ensures LentSurvive(old(table), table, old(lent), {})
      ensures forall x :: x in old(lent) && x !in old(freed) ==> x in lent && x !in freed
    {
      hide Counted, Capped, FreshOk, FutureSessionsOk, StaleOk;
      var outcome := Await(f, wait);
      if outcome != ResolvesWell {
        if persists {
          var deleted := Delete(key);
        }
        return None;
      }
      if persists {
        LendEntry(table, fates, lent, freed, futureSessions, nextId, key);
        lent := lent + {session};
      }
      handed := Some(session);
    }

    /** connectAsync(): the FutureSession shares the cached session, or will own a private one. */
    method ConnectAsync(key: Key, persist: bool) returns (i: nat)
      requires Valid()
      modifies this
      ensures Valid() && i !in old(futureSessions) && i in futureSessions && futureSessions == old(futureSessions)[i := futureSessions[i]]
      ensures Waiting(futureSessions[i], key)
      ensures Hit(old(table), key, persist) ==> futureSessions[i].persist && table == old(table) && fates == old(fates)
      ensures !Hit(old(table), key, persist) ==>
                futureSessions[i].future.value !in old(fates) && fates == old(fates)[futureSessions[i].future.value := Pending]
      ensures futureSessions[i].persist ==>
                persist && table == old(table)[key := SessionEntry(futureSessions[i].session.value, futureSessions[i].future.value)]
      ensures !futureSessions[i].persist ==> table == old(table) && (persist ==> Full(Sessions))
      ensures LentSurvive(old(table), table, lent, {}) && lent == old(lent) && freed == old(freed)
    {
      hide Counted, Capped, LentOk, FreshOk, FutureSessionsOk, StaleOk;
      var session, f, persists := Begin(key, persist);
      i := nextId;
      var fs := FutureSession(persists, key, Some(session), Some(f), false, None);
      UniqueSession(table, fates, lent, freed, key, fs);
      AddFutureSession(table, fates, lent, freed, futureSessions, nextId, fs);
      AddStale(futureSessions, table, fates, lent, freed, dead, nextId, fs);
      assert table == if persists then old(table)[key := SessionEntry(session, f)] else old(table);
      futureSessions := futureSessions[i := fs];
      nextId := nextId + 1;
    }

    /**
     * FutureSession::get(): what is handed out and which entry goes. A lent session goes
     * exactly if this evicts and the lent session stands under its key, which cannot be
     * while the FutureSession's own entry does.
     */
    method Get(i: nat, wait: Wait) returns (handed: Option<SessionId>)
      requires Valid() && i in futureSessions
      modifies this
      ensures Valid()
      ensures var fs := old(futureSessions[i]);
        && handed == HandedBy(fs, old(fates), wait)
        && table == (if Evicts(fs, old(fates), wait) then old(table) - {fs.key} else old(table))
        && futureSessions == old(futureSessions)[i := Got(fs, old(fates), wait, fs.key in old(table))]
        && lent == old(lent) + (if Connects(fs, old(fates), wait) && fs.persist then {fs.session.value} else {})
        && fates == (if Asks(fs, old(fates)) then old(fates)[fs.future.value := FateAfter(old(fates)[fs.future.value], wait)] else old(fates))
        && freed == old(freed) + (if Evicts(fs, old(fates), wait) && fs.key in old(table) then FreedBy(old(table)[fs.key]) else {})
      ensures old(futureSessions[i].failed) ==> handed.None?
      ensures handed.Some? ==> !futureSessions[i].failed && futureSessions[i].ready == handed
      ensures !old(futureSessions[i].failed) && old(futureSessions[i].ready).Some? ==>
                handed == old(futureSessions[i].ready) && futureSessions == old(futureSessions) && table == old(table) && fates == old(fates)
      ensures var fs := old(futureSessions[i]);
        !fs.failed && fs.ready.None? && fs.session.Some? && fs.future.Some? ==>
          && fs.future.value in old(fates) && futureSessions[i].session == (if fs.persist then fs.session else None)
          && (old(fates)[fs.future.value] == Good || (old(fates)[fs.future.value] == Pending && wait == ResolvesWell) ==>
                handed == fs.session && table == old(table))
          && (old(fates)[fs.future.value] == Bad || (old(fates)[fs.future.value] == Pending && wait == ResolvesBadly) ==>
                handed.None? && futureSessions[i].failed == fs.persist && (fs.persist ==> fs.key !in table))
          && (old(fates)[fs.future.value] == Pending && wait == TimesOut ==>
                handed.None? && !futureSessions[i].failed && fates == old(fates) && (fs.persist && fs.key.hash != 0 ==> fs.key !in table))
          && futureSessions[i].future == (if table != old(table) then None else fs.future)
      ensures forall k :: LentAt(old(table), old(lent), k) ==>
                (k !in table <==> Evicts(old(futureSessions[i]), old(fates), wait) && k == old(futureSessions[i]).key)
      ensures Current(old(futureSessions[i]), old(table)) ==> LentSurvive(old(table), table, old(lent), {})
      ensures Current(old(futureSessions[i]), old(table)) ==>
                forall x :: x in old(lent) && x !in old(freed) ==> x in lent && x !in freed
    {
      hide Counted, Capped, LentOk, FreshOk, FutureSessionsOk, StaleOk;
      var fs := futureSessions[i];
      AsksKnown(futureSessions, table, fates, i);
      if !Asks(fs, fates) {
        assert futureSessions == futureSessions[i := fs] && lent == lent + {} && freed == freed + {};
        return if fs.failed then None else fs.ready;
      }
      NotLent(table, fates, lent, freed, fs);
      var outcome := Await(fs.future.value, wait);
      var now := if fs.persist then fs else fs.(session := None);
      if outcome != ResolvesWell {
        var deleted := false;
        if fs.persist && (outcome == ResolvesBadly || fs.key != CacheKey.Fingerprint(0)) {
          deleted := Delete(fs.key);
        }
        now := now.(failed := fs.persist && outcome == ResolvesBadly, future := if deleted then None else fs.future);
        Settle(i, fs, now);
        return None;
      }
      if fs.persist {
        Lend(table, fates, lent, freed, futureSessions, nextId, i);
        lent := lent + {fs.session.value};
      }
      now := now.(ready := fs.session);
      Settle(i, fs, now);
      handed := fs.session;
    }

    method Settle(i: nat, fs: FutureSession, now: FutureSession)
      requires Valid() && i in futureSessions && futureSessions[i] == fs
      requires now.persist == fs.persist && now.key == fs.key
      requires now.session == fs.session || (now.session.None? && !fs.persist)
      requires now.future == fs.future || (now.future.None? && fs.key !in table)
      modifies this`futureSessions
      ensures Valid() && futureSessions == old(futureSessions)[i := now]
    {
      hide Counted, Capped, LentOk, FuturesOk;
      futureSessions := futureSessions[i := now];
    }

    /** A cached statement that is no longer good is dropped. */
    method LookUp(key: Key, usable: bool) returns (hit: bool)
      requires Valid()
      modifies this`table, this`used, this`freed, this`dead
      ensures Valid() && freed == old(freed)
      ensures hit <==> usable && GoodStatement(old(table), fates, key)
      ensures table == if !hit && PreparedAt(old(table), key) then old(table) - {key} else old(table)
      ensures old(!Full(Prepared)) ==> !Full(Prepared)
      ensures table == old(table) ==> used == old(used)
    {
      hide Counted, Capped, LentOk, FreshOk, FutureSessionsOk, StaleOk;
      if key !in table || !table[key].PreparedEntry? {
        return false;
      }
      PreparedKnown(table, fates, lent, freed, futureSessions, nextId, key);
      if fates[table[key].future] == Good && usable {
        return true;
      }
      var deleted := Delete(key);
      hit := false;
    }

    /** Prepare on the server, and cache the statement if there is room. */
    method PrepareAnew(key: Key, persist: bool, wait: Wait) returns (ok: bool)
      requires Valid()
      modifies this
      ensures Valid() && lent == old(lent) && (ok <==> wait == ResolvesWell)
      ensures ok && persist && !old(Full(Prepared)) ==>
                key in table && table[key].PreparedEntry? && table[key].future !in old(fates) && table == old(table)[key := table[key]]
      ensures !(ok && persist && !old(Full(Prepared))) ==> table == old(table)
      ensures key !in old(table) || !old(table)[key].SessionEntry? ==> freed == old(freed)
    {
      hide Counted, Capped, LentOk, FreshOk, FutureSessionsOk, StaleOk;
      var cachePrepared := false;
      if persist {
        cachePrepared := CanCache(Prepared);
      }
      Unused(table, fates, lent, freed, futureSessions, nextId, nextId);
      UnusedFuture(futureSessions, table, fates, freed, dead, nextId);
      var f := NewFuture();
      var outcome := Await(f, wait);
      if outcome != ResolvesWell {
        return false;
      }
      if cachePrepared {
        Update(key, PreparedEntry(f));
      }
      ok := true;
    }

    /**
     * prepare(): a usable hit is reused, a bad one dropped; a miss is cached if there is room.
     * A session under the key, lent or not, goes exactly if a statement is cached over it.
     */
    method Prepare(key: Key, persist: bool, usable: bool, wait: Wait) returns (ok: bool)
      requires Valid()
      modifies this
      ensures Valid() && lent == old(lent)
      ensures persist && usable && GoodStatement(old(table), old(fates), key) ==> ok && table == old(table)
      ensures ok <==> (persist && usable && GoodStatement(old(table), old(fates), key)) || wait == ResolvesWell
      ensures persist && PreparedAt(old(table), key) && !(usable && GoodStatement(old(table), old(fates), key)) ==>
                key !in table || table[key] != old(table)[key]
      ensures !persist ==> table == old(table)
      ensures ok && persist && !old(Full(Prepared)) ==> key in table && table[key].PreparedEntry?
      ensures Hit(old(table), key, true) ==>
                (key !in table || table[key] != old(table)[key] <==> ok && persist && !old(Full(Prepared)))
      ensures !ok ==> table == old(table) || table == old(table) - {key}
      ensures LentSurvive(old(table), table, lent, {key}) && SameElsewhere(old(table), table, key)
      ensures key !in old(table) || !old(table)[key].SessionEntry? ==> freed == old(freed)
    {
      hide Counted, Capped, LentOk, FreshOk, FutureSessionsOk, StaleOk, LentSurvive, SameElsewhere;
      if key in table && table[key].PreparedEntry? {
        PreparedKnown(table, fates, lent, freed, futureSessions, nextId, key);
      }
      if persist {
        var hit := LookUp(key, usable);
        if hit {
          PreparedSame(old(table), table, table, key, table[key], lent);
          return true;
        }
      }
      ghost var mid := table;
      ok := PrepareAnew(key, persist, wait);
      PreparedSame(old(table), mid, table, key, if key in table then table[key] else ClusterEntry, lent);
    }
  }

  lemma PreparedSame(a: map<Key, Entry>, b: map<Key, Entry>, c: map<Key, Entry>, key: Key, e: Entry, lent: set<SessionId>)
    requires b == a || b == a - {key}
    requires c == b || c == b[key := e]
    ensures SameElsewhere(a, c, key) && LentSurvive(a, c, lent, {key})
  {
  }

  /** Only the entry under `key` may differ. */
  ghost predicate SameElsewhere(was: map<Key, Entry>, now: map<Key, Entry>, key: Key) {
    forall k :: k != key ==> (k in now <==> k in was) && (k in now ==> now[k] == was[k])
  }

  lemma SurviveTrans(a: map<Key, Entry>, b: map<Key, Entry>, c: map<Key, Entry>, lent: set<SessionId>)
    requires LentSurvive(a, b, lent, {}) && LentSurvive(b, c, lent, {})
    ensures LentSurvive(a, c, lent, {})
  {
  }

  lemma ElsewhereSame(a: map<Key, Entry>, b: map<Key, Entry>, c: map<Key, Entry>, key: Key, e: Entry)
    requires b == a || b == a[key := e]
    requires c == b || c == b - {key}
    ensures SameElsewhere(a, c, key)
  {
  }

  predicate PreparedAt(table: map<Key, Entry>, key: Key) { key in table && table[key].PreparedEntry? }

  predicate ClusterAt(table: map<Key, Entry>, key: Key) { key in table && table[key].ClusterEntry? }

  /** A cached session stands under the key. */
  predicate Hit(table: map<Key, Entry>, key: Key, persist: bool) { persist && key in table && table[key].SessionEntry? }

  function HitFate(table: map<Key, Entry>, fates: map<FutureId, Fate>, key: Key): Option<Fate> {
    if key in table && table[key].SessionEntry? && table[key].future in fates then Some(fates[table[key].future]) else None
  }

  lemma HitKnown(table: map<Key, Entry>, fates: map<FutureId, Fate>, lent: set<SessionId>, freed: set<SessionId>, key: Key, persist: bool)
    requires LentOk(table, fates, lent, freed)
    ensures Hit(table, key, persist) ==> HitFate(table, fates, key).Some?
  {
  }

  /** No entry has this session or this future. */
  ghost predicate Unshared(session: SessionId, f: FutureId, table: map<Key, Entry>) {
    && (forall k :: k in table && table[k].SessionEntry? ==> table[k].session != session)
    && (forall k :: k in table ==> EntryFuture(table[k]) != Some(f))
  }

  /** A new FutureSession: connecting, nothing handed out yet. */
  predicate Waiting(fs: FutureSession, key: Key) {
    fs.key == key && !fs.failed && fs.ready.None? && fs.session.Some? && fs.future.Some?
  }

  lemma StillNew(e: Entry, fss: map<nat, FutureSession>, was: map<Key, Entry>, fates: map<FutureId, Fate>,
                 dead: set<FutureId>, key: Key)
    requires NewFutureOf(e, fss, was, fates, dead)
    ensures NewFutureOf(e, fss, was - {key}, fates, dead + if key in was then FutureFreedBy(was[key]) else {})
    ensures !e.ClusterEntry? ==> e.future in fates
  {
  }

  lemma UnusedAfter(table: map<Key, Entry>, fates: map<FutureId, Fate>, lent: set<SessionId>, freed: set<SessionId>,
                    fss: map<nat, FutureSession>, next: nat)
    requires FreshOk(table, fates, lent, freed, fss, next)
    ensures next + 1 !in fates
  {
  }

  lemma AsksKnown(fss: map<nat, FutureSession>, table: map<Key, Entry>, fates: map<FutureId, Fate>, i: nat)
    requires FutureSessionsOk(fss, table, fates) && i in fss
    ensures fss[i].future.Some? ==> fss[i].future.value in fates
  {
    assert FutureSessionOk(fss[i], table, fates);
  }

  lemma AddStale(fss: map<nat, FutureSession>, table: map<Key, Entry>, fates: map<FutureId, Fate>, lent: set<SessionId>,
                 freed: set<SessionId>, dead: set<FutureId>, i: nat, fs: FutureSession)
    requires StaleOk(fss, table, fates, freed, dead) && LentOk(table, fates, lent, freed) && fs.session.Some? && fs.future.Some?
    requires if fs.persist then Current(fs, table)
             else Unshared(fs.session.value, fs.future.value, table) && fs.future.value !in dead && fs.session.value !in freed
    ensures StaleOk(fss[i := fs], table, fates, freed, dead)
  {
    assert StaleIff(fs, table, freed, dead);
  }

  lemma LendEntry(table: map<Key, Entry>, fates: map<FutureId, Fate>, lent: set<SessionId>, freed: set<SessionId>,
                  fss: map<nat, FutureSession>, next: nat, key: Key)
    requires LentOk(table, fates, lent, freed) && FreshOk(table, fates, lent, freed, fss, next)
    requires key in table && table[key].SessionEntry? && fates[table[key].future] == Good
    ensures LentOk(table, fates, lent + {table[key].session}, freed)
    ensures FreshOk(table, fates, lent + {table[key].session}, freed, fss, next)
  {
  }

  lemma UniqueSession(table: map<Key, Entry>, fates: map<FutureId, Fate>, lent: set<SessionId>, freed: set<SessionId>,
                      key: Key, fs: FutureSession)
    requires LentOk(table, fates, lent, freed) && fs.session.Some? && fs.future.Some? && fs.future.value in fates && fs.key == key
    requires if fs.persist then key in table && table[key] == SessionEntry(fs.session.value, fs.future.value)
             else forall k :: k in table && table[k].SessionEntry? ==> table[k].session != fs.session.value
    ensures FutureSessionOk(fs, table, fates)
  {
  }

  lemma AddFutureSession(table: map<Key, Entry>, fates: map<FutureId, Fate>, lent: set<SessionId>, freed: set<SessionId>,
                         fss: map<nat, FutureSession>, next: nat, fs: FutureSession)
    requires FreshOk(table, fates, lent, freed, fss, next) && FutureSessionsOk(fss, table, fates)
    requires FutureSessionOk(fs, table, fates) && fs.session.Some? && fs.session.value < next
    ensures next !in fss && FreshOk(table, fates, lent, freed, fss[next := fs], next + 1)
    ensures FutureSessionsOk(fss[next := fs], table, fates)
  {
  }

  /** The entry of a future that is not good has never been lent. */
  lemma NotLent(table: map<Key, Entry>, fates: map<FutureId, Fate>, lent: set<SessionId>, freed: set<SessionId>, fs: FutureSession)
    requires LentOk(table, fates, lent, freed) && fs.future.Some? && fs.future.value in fates
    ensures fs.persist && Current(fs, table) && fates[fs.future.value] != Good ==> fs.session.value !in lent
  {
  }

  lemma Lend(table: map<Key, Entry>, fates: map<FutureId, Fate>, lent: set<SessionId>, freed: set<SessionId>,
             fss: map<nat, FutureSession>, next: nat, i: nat)
    requires LentOk(table, fates, lent, freed) && FutureSessionsOk(fss, table, fates) && FreshOk(table, fates, lent, freed, fss, next)
    requires i in fss && fss[i].session.Some? && fss[i].future.Some? && fss[i].future.value in fates && fates[fss[i].future.value] == Good
    ensures LentOk(table, fates, lent + {fss[i].session.value}, freed)
    ensures FreshOk(table, fates, lent + {fss[i].session.value}, freed, fss, next)
  {
    assert FutureSessionOk(fss[i], table, fates);
  }

  lemma PreparedKnown(table: map<Key, Entry>, fates: map<FutureId, Fate>, lent: set<SessionId>, freed: set<SessionId>,
                      fss: map<nat, FutureSession>, next: nat, key: Key)
    requires FreshOk(table, fates, lent, freed, fss, next) && key in table && table[key].PreparedEntry?
    ensures table[key].future in fates
  {
  }

  lemma SessionKnown(table: map<Key, Entry>, fates: map<FutureId, Fate>, lent: set<SessionId>, freed: set<SessionId>,
                     fss: map<nat, FutureSession>, next: nat, key: Key)
    requires FreshOk(table, fates, lent, freed, fss, next) && LentOk(table, fates, lent, freed)
    requires key in table && table[key].SessionEntry?
    ensures table[key].session < next && table[key].future in fates
  {
  }

  lemma KindKnown(used: map<Kind, nat>, caps: map<Kind, int>, table: map<Key, Entry>, kind: Kind)
    requires Counted(table, used) && Capped(used, caps)
    ensures kind in used && kind in caps
  {
  }

  lemma CountedAt(table: map<Key, Entry>, used: map<Kind, nat>, kind: Kind)
    requires Counted(table, used)
    ensures kind in used && used[kind] == |KeysOf(table, kind)|
  {
  }

  /** A counter is the number of entries of its kind, and a cap bounds them. */
  lemma PoolBounded(table: map<Key, Entry>, used: map<Kind, nat>, caps: map<Kind, int>, kind: Kind)
    requires Counted(table, used) && Capped(used, caps)
    ensures kind in used && kind in caps && used[kind] == |KeysOf(table, kind)|
    ensures caps[kind] >= 0 ==> |KeysOf(table, kind)| <= caps[kind]
  {
    CountedAt(table, used, kind);
    hide Counted;
  }

  /** The three pools together are the whole table. */
  lemma PoolsAreTable(table: map<Key, Entry>, used: map<Kind, nat>)
    requires Counted(table, used)
    ensures Clusters in used && Sessions in used && Prepared in used
    ensures used[Clusters] + used[Sessions] + used[Prepared] == |table|
  {
    CountedAt(table, used, Clusters);
    CountedAt(table, used, Sessions);
    CountedAt(table, used, Prepared);
    var a, b, c := KeysOf(table, Clusters), KeysOf(table, Sessions), KeysOf(table, Prepared);
    assert table.Keys == a + b + c && a * b == {} && (a + b) * c == {};
    assert |table.Keys| == |table|;
  }

  /**
   * Two FutureSessions share a pending entry. The first get() times out and evicts it, a
   * connect() puts a good session under the same key and hands it out, and the second
   * get(), whose future was freed with the first entry, evicts that one when it times out.
   */
  method StaleGetEvictsLent() returns (cache: Cache, session: SessionId)
    ensures fresh(cache) && cache.Valid() && session in cache.lent && session in cache.freed && cache.table == map[]
  {
    hide Counted, Capped, LentOk, FreshOk, FutureSessionsOk, StaleOk, LentSurvive;
    cache := new Cache(-1, -1, -1);
    var key := CacheKey.Fingerprint(7);
    var first := cache.ConnectAsync(key, true);
    var second := cache.ConnectAsync(key, true);
    ghost var shared := cache.futureSessions[second].future.value;
    var handed := cache.Get(first, TimesOut);
    assert cache.table == map[] && cache.fates[shared] == Pending;
    assert cache.futureSessions[second].future == Some(shared);
    var connected, persists := cache.Connect(key, true, ResolvesWell);
    assert persists && connected.Some? && cache.table[key].SessionEntry?;
    session := connected.value;
    assert cache.table.Keys == {key};
    assert cache.fates[shared] == Pending && Asks(cache.futureSessions[second], cache.fates);
    assert Evicts(cache.futureSessions[second], cache.fates, TimesOut);
    handed := cache.Get(second, TimesOut);
  }

  /** A cluster whose key collides with that of a lent session evicts it. */
  method CollidingBuildEvictsLent() returns (cache: Cache, session: SessionId)
    ensures fresh(cache) && cache.Valid() && session in cache.lent && session in cache.freed
  {
    hide Counted, Capped, LentOk, FreshOk, FutureSessionsOk, StaleOk, LentSurvive, SameElsewhere;
    cache := new Cache(-1, -1, -1);
    var key := CacheKey.Fingerprint(7);
    var connected, persists := cache.Connect(key, true, ResolvesWell);
    session := connected.value;
    persists := cache.Build(key, true);
  }

  /** An asynchronous connect whose future resolves well hands one session out, at every get(). */
  method GetTwice(cache: Cache, key: Key, persist: bool, wait: Wait) returns (first: Option<SessionId>, second: Option<SessionId>)
    requires cache.Valid() && !Hit(cache.table, key, persist)
    modifies cache
    ensures cache.Valid() && first.Some? && second == first
  {
    hide Counted, Capped, LentOk, FreshOk, FutureSessionsOk, StaleOk, LentSurvive;
    var i := cache.ConnectAsync(key, persist);
    first := cache.Get(i, ResolvesWell);
    second := cache.Get(i, wait);
  }
}

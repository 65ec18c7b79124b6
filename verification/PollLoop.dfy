/**
 * The loop of src/Async/Poll.c: watched futures, a two-pass dispatcher, and callbacks
 * that may call back into the loop.
 *
 * User code is an arbitrary script: what each callback does, what the polling context
 * answers to the ticks it makes, and whether it throws in the end. A call the environment
 * could not produce is skipped. The context gives every watcher an object handle that no
 * live watcher has; a watcher is live while it is watched or stands in the ready array of a
 * tick that has not returned. Code that removes a watcher itself leaves the loop's entry
 * behind, and a later watch() may get that watcher's handle.
 */
module PollLoop {
  import opened Sequences

  type Handle = nat
  type FutureId = nat

  datatype Watched = Watched(ticket: nat, future: FutureId, hasCallback: bool)

  /** What a call to watch() asked for. */
  datatype Issue = Issue(future: FutureId, hasCallback: bool)

  datatype How = Called | Returned | Discarded | Lost

  /** One watched future leaving the loop, and the tick that took it. */
  datatype Event = Event(ticket: nat, how: How, frame: nat)

  /** What a callback does, and whether it throws in the end. */
  datatype Script = Script(acts: seq<Action>, throws: bool)

  datatype Action =
    | CallWatch(handle: Handle, future: FutureId, hasCallback: bool)
    | Rewatch(handle: Handle, future: FutureId, hasCallback: bool)  // with the handle of a watcher the user removed
    | CallTick(wait: Wait)

  /** What wait() answers to a tick, and what happens as the tick takes one watcher after the other. */
  datatype Wait = Wait(ready: seq<Handle>, turns: seq<Turn>)

  /** Whether remove() throws, and what the callback does if there is one. */
  datatype Turn = Turn(removeFails: bool, script: Script)

  /** No remove() throws, and no handle comes back after a remove() the loop did not call. */
  predicate RemovesSucceed(wait: Wait)
    decreases wait
  {
    forall i :: 0 <= i < |wait.turns| ==> !wait.turns[i].removeFails && Orderly(wait.turns[i].script)
  }

  predicate Orderly(script: Script)
    decreases script
  {
    forall i :: 0 <= i < |script.acts| ==>
      !script.acts[i].Rewatch? && (script.acts[i].CallTick? ==> RemovesSucceed(script.acts[i].wait))
  }

  predicate RemoveFailsAt(turns: seq<Turn>, i: nat) { i < |turns| && turns[i].removeFails }

  predicate ThrowsAt(turns: seq<Turn>, i: nat) { i < |turns| && turns[i].script.throws }

  // ---- the ledger ----------------------------------------------------------

  predicate Recorded(w: Watched, issued: seq<Issue>) {
    w.ticket < |issued| && issued[w.ticket] == Issue(w.future, w.hasCallback)
  }

  /** A callback's future is only ever called, any other is only ever handed out. */
  predicate Fits(e: Event, issued: seq<Issue>) {
    && e.ticket < |issued|
    && (e.how == Called ==> issued[e.ticket].hasCallback)
    && (e.how == Returned || e.how == Discarded ==> !issued[e.ticket].hasCallback)
  }

  ghost predicate InLog(log: seq<Event>, ticket: nat) { exists i :: 0 <= i < |log| && log[i].ticket == ticket }

  ghost predicate InTable(watched: map<Handle, Watched>, ticket: nat) {
    exists h :: h in watched && watched[h].ticket == ticket
  }

  ghost predicate TableOk(watched: map<Handle, Watched>, issued: seq<Issue>) {
    && (forall h :: h in watched ==> Recorded(watched[h], issued))
    && (forall h, k :: h in watched && k in watched && h != k ==> watched[h].ticket != watched[k].ticket)
  }

  ghost predicate LogOk(log: seq<Event>, issued: seq<Issue>) {
    && (forall i :: 0 <= i < |log| ==> Fits(log[i], issued))
    && (forall i, j :: 0 <= i < j < |log| ==> log[i].ticket != log[j].ticket)
  }

  /** Every ticket is watched or has left the loop, never both. */
  ghost predicate Partition(watched: map<Handle, Watched>, log: seq<Event>, issued: seq<Issue>) {
    && (forall h :: h in watched ==> !InLog(log, watched[h].ticket))
    && (forall t :: 0 <= t < |issued| ==> InTable(watched, t) || InLog(log, t))
  }

  ghost predicate Ledger(watched: map<Handle, Watched>, log: seq<Event>, issued: seq<Issue>) {
    TableOk(watched, issued) && LogOk(log, issued) && Partition(watched, log, issued)
  }

  // ---- what code running inside the loop may do ----------------------------

  /** Entries older than `before` tickets stay under their handle, unchanged, until they go. */
  ghost predicate Aged(was: map<Handle, Watched>, now: map<Handle, Watched>, before: nat) {
    forall h :: h in now && now[h].ticket < before ==> h in was && was[h] == now[h]
  }

  /** No new entry appears under a handle in `busy`. */
  ghost predicate Untaken(was: map<Handle, Watched>, now: map<Handle, Watched>, busy: set<Handle>) {
    forall h :: h in now && h in busy ==> h in was && was[h] == now[h]
  }

  /** The log grew by events of ticks numbered from `frames` on. */
  predicate Logged(was: seq<Event>, now: seq<Event>, frames: nat) {
    was <= now && forall i :: |was| <= i < |now| ==> now[i].frame >= frames
  }

  predicate NoneLost(was: seq<Event>, now: seq<Event>) {
    was <= now && forall i :: |was| <= i < |now| ==> now[i].how != Lost
  }

  lemma AgedTrans(a: map<Handle, Watched>, b: map<Handle, Watched>, c: map<Handle, Watched>, before: nat, later: nat)
    requires Aged(a, b, before) && Aged(b, c, later) && before <= later
    ensures Aged(a, c, before)
  {
  }

  lemma UntakenTrans(a: map<Handle, Watched>, b: map<Handle, Watched>, c: map<Handle, Watched>, busy: set<Handle>, more: set<Handle>)
    requires Untaken(a, b, busy) && Untaken(b, c, more) && busy <= more
    ensures Untaken(a, c, busy)
  {
  }

  lemma LoggedTrans(a: seq<Event>, b: seq<Event>, c: seq<Event>, frames: nat, later: nat)
    requires Logged(a, b, frames) && Logged(b, c, later) && frames <= later
    ensures Logged(a, c, frames)
  {
  }

  // ---- ledger steps --------------------------------------------------------

  lemma InLogAppend(log: seq<Event>, e: Event, t: nat)
    ensures InLog(log + [e], t) <==> InLog(log, t) || t == e.ticket
  {
    if InLog(log, t) {
      var i :| 0 <= i < |log| && log[i].ticket == t;
      assert (log + [e])[i].ticket == t;
    }
    if t == e.ticket {
      assert (log + [e])[|log|].ticket == t;
    }
  }

  /** watch(): a new ticket under a new handle. */
  lemma WatchLedger(watched: map<Handle, Watched>, log: seq<Event>, issued: seq<Issue>, h: Handle, future: FutureId, cb: bool)
    requires Ledger(watched, log, issued) && h !in watched
    ensures Ledger(watched[h := Watched(|issued|, future, cb)], log, issued + [Issue(future, cb)])
  {
    var w, all := watched[h := Watched(|issued|, future, cb)], issued + [Issue(future, cb)];
    assert !InLog(log, |issued|);
    forall t | 0 <= t < |all| ensures InTable(w, t) || InLog(log, t) {
      if t == |issued| {
        assert h in w && w[h].ticket == t;
      } else if InTable(watched, t) {
        var k :| k in watched && watched[k].ticket == t;
        assert k in w && w[k].ticket == t;
      }
    }
  }

  /** An entry leaves the table and enters the log. */
  lemma TakeLedger(watched: map<Handle, Watched>, log: seq<Event>, issued: seq<Issue>, h: Handle, how: How, frame: nat)
    requires Ledger(watched, log, issued) && h in watched
    requires how == Called ==> watched[h].hasCallback
    requires how == Returned || how == Discarded ==> !watched[h].hasCallback
    ensures Ledger(watched - {h}, log + [Event(watched[h].ticket, how, frame)], issued)
  {
    var e := Event(watched[h].ticket, how, frame);
    forall t { InLogAppend(log, e, t); }
    forall t | 0 <= t < |issued| ensures InTable(watched - {h}, t) || InLog(log + [e], t) {
      if InTable(watched, t) && t != e.ticket {
        var k :| k in watched && watched[k].ticket == t;
        assert k in watched - {h} && (watched - {h})[k].ticket == t;
      }
    }
    forall i, j | 0 <= i < j < |log + [e]| ensures (log + [e])[i].ticket != (log + [e])[j].ticket {
      assert InLog(log, log[i].ticket);
    }
  }

  // ---- the loop object -----------------------------------------------------

  datatype Book = Book(watched: map<Handle, Watched>, log: seq<Event>, issued: seq<Issue>, frames: nat)

  ghost predicate BookOk(b: Book) {
    Ledger(b.watched, b.log, b.issued) && forall i :: 0 <= i < |b.log| ==> b.log[i].frame < b.frames
  }

  /** What any code may have done to the loop while the handles in `busy` were live. */
  ghost predicate Grown(a: Book, b: Book, busy: set<Handle>) {
    && Aged(a.watched, b.watched, |a.issued|)
    && Untaken(a.watched, b.watched, busy)
    && Logged(a.log, b.log, a.frames)
    && a.issued <= b.issued
    && a.frames <= b.frames
  }

  lemma GrownTrans(a: Book, b: Book, c: Book, busy: set<Handle>, more: set<Handle>)
    requires Grown(a, b, busy) && Grown(b, c, more) && busy <= more
    ensures Grown(a, c, busy)
  {
    AgedTrans(a.watched, b.watched, c.watched, |a.issued|, |b.issued|);
    UntakenTrans(a.watched, b.watched, c.watched, busy, more);
    LoggedTrans(a.log, b.log, c.log, a.frames, b.frames);
  }

  function Left(b: Book, h: Handle, how: How, frame: nat): Book
    requires h in b.watched
  {
    b.(watched := b.watched - {h}, log := b.log + [Event(b.watched[h].ticket, how, frame)])
  }

  function Entered(b: Book, h: Handle, future: FutureId, hasCallback: bool): Book {
    b.(watched := b.watched[h := Watched(|b.issued|, future, hasCallback)], issued := b.issued + [Issue(future, hasCallback)])
  }

  /** An entry is destroyed by an update of its handle. */
  function Overwritten(b: Book, h: Handle): Book {
    if h in b.watched then Left(b.(frames := b.frames + 1), h, Lost, b.frames) else b
  }

  lemma OverwrittenOk(a: Book, b: Book, h: Handle, busy: set<Handle>)
    requires BookOk(b) && Grown(a, b, busy)
    ensures BookOk(Overwritten(b, h)) && Grown(a, Overwritten(b, h), busy) && h !in Overwritten(b, h).watched
  {
    hide Ledger;
    if h in b.watched {
      LeftOk(a, b.(frames := b.frames + 1), h, Lost, b.frames, busy);
    }
  }

  lemma LeftOk(a: Book, b: Book, h: Handle, how: How, frame: nat, busy: set<Handle>)
    requires BookOk(b) && h in b.watched && Grown(a, b, busy) && a.frames <= frame < b.frames
    requires how == Called ==> b.watched[h].hasCallback
    requires how == Returned || how == Discarded ==> !b.watched[h].hasCallback
    ensures BookOk(Left(b, h, how, frame)) && Grown(a, Left(b, h, how, frame), busy)
  {
    hide Ledger;
    TakeLedger(b.watched, b.log, b.issued, h, how, frame);
  }

  lemma EnteredOk(a: Book, b: Book, h: Handle, future: FutureId, hasCallback: bool, busy: set<Handle>)
    requires BookOk(b) && h !in b.watched && h !in busy && Grown(a, b, busy)
    ensures BookOk(Entered(b, h, future, hasCallback)) && Grown(a, Entered(b, h, future, hasCallback), busy)
  {
    hide Ledger;
    WatchLedger(b.watched, b.log, b.issued, h, future, hasCallback);
  }

  /** A handed-out event of the tick numbered `frame`. */
  predicate Hands(e: Event, frame: nat) { e.frame == frame && (e.how == Returned || e.how == Discarded) }

  /** The events from `from` up to `to` hand out nothing for `frame`. */
  predicate NoHands(log: seq<Event>, from: nat, to: nat, frame: nat) {
    forall i :: from <= i < to && i < |log| ==> !Hands(log[i], frame)
  }

  ghost predicate NoCallbacks(watched: map<Handle, Watched>, ready: seq<Handle>, n: nat) {
    forall j :: 0 <= j < n && j < |ready| && ready[j] in watched ==> !watched[ready[j]].hasCallback
  }

  lemma NoCallbacksGrows(a: Book, b: Book, busy: set<Handle>, ready: seq<Handle>, n: nat)
    requires Grown(a, b, busy) && NoCallbacks(a.watched, ready, n) && forall h :: h in ready ==> h in busy
    ensures NoCallbacks(b.watched, ready, n)
  {
  }

  lemma NoHandsGrows(a: Book, b: Book, busy: set<Handle>, from: nat, frame: nat)
    requires Grown(a, b, busy) && NoHands(a.log, from, |a.log|, frame) && frame < a.frames
    ensures NoHands(b.log, from, |b.log|, frame)
  {
  }

  lemma GrownFewer(a: Book, b: Book, busy: set<Handle>, fewer: set<Handle>)
    requires Grown(a, b, busy) && fewer <= busy
    ensures Grown(a, b, fewer)
  {
  }

  // ---- what a pass over the ready array hands out --------------------------

  function HandlesIn(ready: seq<Handle>): set<Handle> { set h | h in ready }

  /** The entries found under the handles of `ready`, in its order, each once. */
  function Pick(ready: seq<Handle>, watched: map<Handle, Watched>): seq<Watched> {
    if ready == [] then []
    else if ready[0] in watched then [watched[ready[0]]] + Pick(ready[1..], watched - {ready[0]})
    else Pick(ready[1..], watched)
  }

  function Events(took: seq<Watched>, how: How, frame: nat): (es: seq<Event>)
    ensures |es| == |took| && forall i :: 0 <= i < |took| ==> es[i] == Event(took[i].ticket, how, frame)
  {
    seq(|took|, i requires 0 <= i < |took| => Event(took[i].ticket, how, frame))
  }

  function Futures(took: seq<Watched>): (fs: seq<FutureId>)
    ensures |fs| == |took| && forall i :: 0 <= i < |took| ==> fs[i] == took[i].future
  {
    seq(|took|, i requires 0 <= i < |took| => took[i].future)
  }

  function HandsOut(collect: bool): How { if collect then Returned else Discarded }

  /** The loop after the second pass over `ready`. */
  function Collected(b: Book, ready: seq<Handle>, collect: bool, frame: nat): Book {
    b.(watched := b.watched - HandlesIn(ready),
       log := b.log + Events(Pick(ready, b.watched), HandsOut(collect), frame))
  }

  class Loop {
    var watched: map<Handle, Watched>
    var nextTicket: nat  // which allocation an entry is
    ghost var log: seq<Event>
    ghost var issued: seq<Issue>
    ghost var frames: nat

    ghost function Snap(): Book
      reads this
    {
      Book(watched, log, issued, frames)
    }

    ghost predicate Valid()
      reads this
    {
      BookOk(Snap()) && nextTicket == |issued|
    }

    constructor ()
      ensures Valid() && watched == map[] && issued == [] && log == []
    {
      watched, nextTicket, log, issued, frames := map[], 0, [], [], 0;
    }

    /** watch(): an entry that stood under the handle is destroyed. */
    method Watch(h: Handle, future: FutureId, hasCallback: bool)
      requires Valid()
      modifies this
      ensures Valid() && Snap() == Entered(Overwritten(old(Snap()), h), h, future, hasCallback)
    {
      hide BookOk, Grown;
      ghost var was := Snap();
      GrownSelf(was, {});
      OverwrittenOk(was, was, h, {});
      EnteredOk(was, Overwritten(was, h), h, future, hasCallback, {});
      if h in watched {
        log, frames := log + [Event(watched[h].ticket, Lost, frames)], frames + 1;
      }
      watched := watched[h := Watched(nextTicket, future, hasCallback)];
      nextTicket := nextTicket + 1;
      issued := issued + [Issue(future, hasCallback)];
      assert watched == Entered(Overwritten(was, h), h, future, hasCallback).watched;
    }

    /** Take one watcher out: its entry goes before the context is asked to remove it. */
    method Take(h: Handle, ghost how: How, ghost frame: nat, removeFails: bool) returns (w: Watched, ok: bool)
      requires Valid() && h in watched && frame < frames
      requires how == Called ==> watched[h].hasCallback
      requires how == Returned || how == Discarded ==> !watched[h].hasCallback
      modifies this
      ensures Valid() && w == old(watched[h]) && ok == !removeFails
      ensures Snap() == Left(old(Snap()), h, if ok then how else Lost, frame)
    {
      hide BookOk, Grown;
      ghost var was := Snap();
      w := watched[h];
      watched := watched - {h};
      ok := !removeFails;
      log := log + [Event(w.ticket, if ok then how else Lost, frame)];
      LeftStaysOk(was, h, if ok then how else Lost, frame);
    }

    /** User code inside a callback. */
    method RunCallback(busy: set<Handle>, script: Script) returns (threw: bool)
      requires Valid()
      modifies this
      ensures Valid() && Grown(old(Snap()), Snap(), busy) && threw == script.throws
      ensures script.acts == [] ==> Snap() == old(Snap())
      ensures Orderly(script) ==> NoneLost(old(log), log)
      decreases script, 1
    {
      hide BookOk, Grown;
      ghost var was := Snap();
      GrownSelf(was, busy);
      for n := 0 to |script.acts|
        invariant Valid() && Grown(was, Snap(), busy) && (n == 0 ==> Snap() == was)
        invariant Orderly(script) ==> NoneLost(was.log, log)
      {
        ghost var mid := Snap();
        match script.acts[n] {
          case CallWatch(h, future, hasCallback) =>
            if h !in watched && h !in busy {
              Watch(h, future, hasCallback);
              EnteredOk(was, mid, h, future, hasCallback, busy);
            }
          case Rewatch(h, future, hasCallback) =>
            if h !in busy {
              Watch(h, future, hasCallback);
              OverwrittenOk(was, mid, h, busy);
              EnteredOk(was, Overwritten(mid, h), h, future, hasCallback, busy);
            }
          case CallTick(wait) =>
            var ok, out, inner := Tick(wait, busy);
            GrownTrans(was, mid, Snap(), busy, busy);
        }
      }
      threw := script.throws;
    }

    /**
     * tick(): with nothing watched it does not even wait. It fails exactly if a callback it
     * ran threw or a remove() it made failed.
     */
    method Tick(wait: Wait, busy: set<Handle>)
      returns (ok: bool, out: seq<FutureId>, ghost mid: Book)
      requires Valid()
      modifies this
      ensures Valid() && Grown(old(Snap()), Snap(), busy)
      ensures Ticked(old(Snap()), mid, Snap(), wait.ready, true, busy, ok, wait.turns)
      ensures out == if ok then Futures(Pick(wait.ready, mid.watched)) else []
      ensures RemovesSucceed(wait) ==> NoneLost(old(log), log)
      decreases wait, 4
    {
      hide BookOk, Grown, Ticked;
      mid := Snap();
      if |watched| == 0 {
        GrownSelf(Snap(), busy);
        EmptyTick(mid, wait.ready, busy, wait.turns);
        return true, [], mid;
      }
      ok, out, mid := PollTick(wait, true, busy);
    }

    /** First pass: the futures a callback waits on. Stops at the first throw. */
    method PassOne(wait: Wait, busy: set<Handle>, ghost frame: nat, ghost start: Book)
      returns (ok: bool, used: nat)
      requires Valid() && start.frames <= frame < frames && (forall h :: h in wait.ready ==> h in busy)
      requires Grown(start, Snap(), busy) && log == start.log && issued == start.issued
      modifies this
      ensures Valid() && frame < frames && Grown(start, Snap(), busy) && NoHands(log, |start.log|, |log|, frame)
      ensures |start.log| <= |log| && used == Takes(log, |start.log|, frame)
      ensures ok <==> NoThrow(wait.turns, used)
      ensures Quiet(wait.turns, used) ==> OnlyTakes(start, Snap(), frame)
      ensures ok ==> NoCallbacks(watched, wait.ready, |wait.ready|)
      ensures RemovesSucceed(wait) ==> NoneLost(start.log, log)
      decreases wait, 2
    {
      hide BookOk, Grown, Takes;
      used := 0;
      TakesNothing(log, frame);
      var i := 0;
      while i < |wait.ready|
        invariant i <= |wait.ready| && Valid() && frame < frames && Grown(start, Snap(), busy)
        invariant NoHands(log, |start.log|, |log|, frame) && NoCallbacks(watched, wait.ready, i)
        invariant |start.log| <= |log| && used == Takes(log, |start.log|, frame) && NoThrow(wait.turns, used)
        invariant Quiet(wait.turns, used) ==> OnlyTakes(start, Snap(), frame)
        invariant RemovesSucceed(wait) ==> NoneLost(start.log, log)
      {
        var h := wait.ready[i];
        if h in watched && watched[h].hasCallback {
          ok := CallOne(h, wait, i, busy, frame, used, start);
          used := used + 1;
          if !ok {
            return;
          }
        }
        i := i + 1;
      }
      ok := true;
    }

    method CallOne(h: Handle, wait: Wait, ghost n: nat, busy: set<Handle>, ghost frame: nat, used: nat, ghost start: Book)
      returns (ok: bool)
      requires Valid() && start.frames <= frame < frames && (forall k :: k in wait.ready ==> k in busy)
      requires Grown(start, Snap(), busy) && NoHands(log, |start.log|, |log|, frame) && |start.log| <= |log|
      requires h in wait.ready && h in watched && watched[h].hasCallback && NoCallbacks(watched, wait.ready, n)
      modifies this
      ensures Valid() && frame < frames && Grown(start, Snap(), busy) && NoHands(log, |start.log|, |log|, frame)
      ensures NoCallbacks(watched, wait.ready, n) && h !in watched
      ensures |start.log| <= |log| && Takes(log, |start.log|, frame) == old(Takes(log, |start.log|, frame)) + 1
      ensures ok <==> !RemoveFailsAt(wait.turns, used) && !ThrowsAt(wait.turns, used)
      ensures OnlyTakes(start, old(Snap()), frame) && Quiet(wait.turns, used + 1) ==> OnlyTakes(start, Snap(), frame)
      ensures RemovesSucceed(wait) && NoneLost(start.log, old(log)) ==> NoneLost(start.log, log)
      decreases wait, 2, 0
    {
      hide BookOk, Ledger, Aged, Takes;
      ghost var before := Snap();
      var w;
      w, ok := Take(h, Called, frame, RemoveFailsAt(wait.turns, used));
      ghost var taken := Snap();
      LeftOk(start, before, h, if ok then Called else Lost, frame, busy);
      TakesNext(before.log, Event(w.ticket, if ok then Called else Lost, frame), |start.log|, frame);
      if !ok {
        return;
      }
      var threw := false;
      if used < |wait.turns| {
        threw := RunCallback(busy, wait.turns[used].script);
      } else {
        GrownSelf(taken, busy);
      }
      GrownTrans(start, taken, Snap(), busy, busy);
      NoHandsGrows(taken, Snap(), busy, |start.log|, frame);
      NoCallbacksGrows(taken, Snap(), busy, wait.ready, n);
      TakesLater(taken.log, log, |start.log|, frame, taken.frames);
      ok := !threw;
    }

    /** Second pass: the futures the caller reads itself. No user code runs here. */
    method PassTwo(wait: Wait, collect: bool, ghost frame: nat, first: nat, ghost start: Book, ghost busy: set<Handle>)
      returns (ok: bool, out: seq<FutureId>)
      requires Valid() && start.frames <= frame < frames && Grown(start, Snap(), busy)
      requires NoCallbacks(watched, wait.ready, |wait.ready|)
      requires |start.log| <= |log| && first == Takes(log, |start.log|, frame)
      modifies this
      ensures Valid() && Grown(start, Snap(), busy)
      ensures ok ==> Snap() == Collected(old(Snap()), wait.ready, collect, frame)
      ensures ok ==> out == if collect then Futures(Pick(wait.ready, old(watched))) else []
      ensures |start.log| <= |log| && first <= Takes(log, |start.log|, frame)
      ensures ok <==> NoFailedRemove(wait.turns, first, Takes(log, |start.log|, frame))
      ensures RemovesSucceed(wait) && NoneLost(start.log, old(log)) ==> NoneLost(start.log, log)
    {
      hide BookOk, Grown, Collected, Midway, NoneLost, Futures, Takes;
      ghost var was := Snap();
      out := [];
      ghost var took: seq<Watched> := [];
      MidwayStart(was, wait.ready, collect, frame);
      var i, used := 0, first;
      while i < |wait.ready|
        invariant i <= |wait.ready| && Valid() && frame < frames && Grown(start, Snap(), busy)
        invariant Midway(was, Snap(), wait.ready, i, took, collect, frame)
        invariant out == if collect then Futures(took) else []
        invariant |start.log| <= |log| && first <= used == Takes(log, |start.log|, frame) && NoFailedRemove(wait.turns, first, used)
        invariant RemovesSucceed(wait) && NoneLost(start.log, was.log) ==> NoneLost(start.log, log)
      {
        var h := wait.ready[i];
        ghost var mid := Snap();
        MidwayStep(was, mid, wait.ready, i, took, collect, frame);
        if h in watched {
          var w;
          w, ok := Take(h, HandsOut(collect), frame, RemoveFailsAt(wait.turns, used));
          LeftOk(start, mid, h, if ok then HandsOut(collect) else Lost, frame, busy);
          TakesNext(mid.log, Event(w.ticket, if ok then HandsOut(collect) else Lost, frame), |start.log|, frame);
          used := used + 1;
          if !ok {
            return;
          }
          NoneLostNext(start.log, mid.log, Event(w.ticket, HandsOut(collect), frame));
          FuturesSnoc(took, w);
          out := if collect then out + [w.future] else out;
          took := took + [w];
        }
        i := i + 1;
      }
      ok := true;
      MidwayEnd(was, Snap(), wait.ready, took, collect, frame);
    }

    /** One wait, then both passes over what it answered. */
    method PollTick(wait: Wait, collect: bool, busy: set<Handle>)
      returns (ok: bool, out: seq<FutureId>, ghost mid: Book)
      requires Valid()
      modifies this
      ensures Valid() && Grown(old(Snap()), Snap(), busy)
      ensures Ticked(old(Snap()), mid, Snap(), wait.ready, collect, busy, ok, wait.turns)
      ensures out == if ok && collect then Futures(Pick(wait.ready, mid.watched)) else []
      ensures RemovesSucceed(wait) ==> NoneLost(old(log), log)
      decreases wait, 3
    {
      hide BookOk, Grown, Collected, NoCallbacks, NoHands, Takes, NoThrow, NoFailedRemove, Quiet, OnlyTakes;
      ghost var start := Snap();
      ghost var frame := frames;
      frames := frames + 1;
      var all := busy + HandlesIn(wait.ready);
      FrameOpened(start, Snap(), all);
      var used;
      ok, used := PassOne(wait, all, frame, start);
      mid := Snap();
      GrownFewer(start, mid, all, busy);
      if !ok {
        return false, [], mid;
      }
      ok, out := PassTwo(wait, collect, frame, used, start, all);
      GrownFewer(start, Snap(), all, busy);
      if !ok {
        out := [];
      }
    }

    /** run(): tick until nothing is watched. `waits` holds what each wait answers. */
    method Run(waits: seq<Wait>) returns (outcome: RunOutcome, ghost books: seq<Book>)
      requires Valid()
      modifies this
      ensures Valid() && Grown(old(Snap()), Snap(), {})
      ensures 1 <= |books| <= |waits| + 1 && books[0] == old(Snap()) && books[|books| - 1] == Snap()
      ensures forall i :: 0 <= i < |books| - 1 ==>
                books[i].watched != map[] && TickGoes(books[i], books[i + 1], waits[i], outcome != Threw || i < |books| - 2)
      ensures outcome == Threw ==> |books| > 1
      ensures outcome == Emptied ==> watched == map[]
      ensures outcome == StillWaiting ==> watched != map[] && |books| == |waits| + 1
      ensures (forall i :: 0 <= i < |waits| ==> RemovesSucceed(waits[i])) ==> NoneLost(old(log), log)
    {
      hide BookOk, Grown, Ticked, TickGoes, RemovesSucceed;
      ghost var was := Snap();
      GrownSelf(was, {});
      books := [was];
      var n := 0;
      while |watched| > 0 && n < |waits|
        invariant Valid() && Grown(was, Snap(), {}) && n <= |waits|
        invariant |books| == n + 1 && books[0] == was && books[n] == Snap()
        invariant forall i :: 0 <= i < n ==> books[i].watched != map[] && TickGoes(books[i], books[i + 1], waits[i], true)
        invariant (forall i :: 0 <= i < |waits| ==> RemovesSucceed(waits[i])) ==> NoneLost(was.log, log)
        decreases |waits| - n
      {
        ghost var before := Snap();
        var ok, out, mid := PollTick(waits[n], false, {});
        GrownTrans(was, before, Snap(), {}, {});
        TickWent(before, mid, Snap(), waits[n], ok);
        books := books + [Snap()];
        n := n + 1;
        if !ok {
          return Threw, books;
        }
      }
      outcome := if |watched| == 0 then Emptied else StillWaiting;
    }
  }

  datatype RunOutcome = Emptied | Threw | StillWaiting

  /** How many watchers the tick numbered `frame` took since the log was `from` long. */
  ghost function Takes(log: seq<Event>, from: nat, frame: nat): nat
    requires from <= |log|
    decreases |log|
  {
    if |log| == from then 0
    else Takes(log[..|log| - 1], from, frame) + if log[|log| - 1].frame == frame then 1 else 0
  }

  lemma TakesNothing(log: seq<Event>, frame: nat)
    ensures Takes(log, |log|, frame) == 0
  {
  }

  lemma TakesNext(log: seq<Event>, e: Event, from: nat, frame: nat)
    requires from <= |log|
    ensures Takes(log + [e], from, frame) == Takes(log, from, frame) + if e.frame == frame then 1 else 0
  {
    assert (log + [e])[..|log|] == log;
  }

  /** Ticks that began later do not count. */
  lemma {:induction false} TakesLater(was: seq<Event>, now: seq<Event>, from: nat, frame: nat, frames: nat)
    requires from <= |was| && Logged(was, now, frames) && frame < frames
    ensures Takes(now, from, frame) == Takes(was, from, frame)
    decreases |now|
  {
    if |now| == |was| {
      assert now == was;
    } else {
      var less := now[..|now| - 1];
      assert was <= less;
      TakesLater(was, less, from, frame, frames);
    }
  }

  /** None of the first `n` turns ends in a throw. */
  predicate NoThrow(turns: seq<Turn>, n: nat) { forall i :: 0 <= i < n ==> !RemoveFailsAt(turns, i) && !ThrowsAt(turns, i) }

  /** The callbacks of the first `n` turns make no calls. */
  predicate Quiet(turns: seq<Turn>, n: nat) { forall i :: 0 <= i < n && i < |turns| ==> turns[i].script.acts == [] }

  /** Nothing happened but that the tick numbered `frame` took watchers. */
  ghost predicate OnlyTakes(a: Book, b: Book, frame: nat) {
    b.issued == a.issued && forall k :: |a.log| <= k < |b.log| ==> b.log[k].frame == frame
  }

  predicate NoFailedRemove(turns: seq<Turn>, from: nat, to: nat) { forall i :: from <= i < to ==> !RemoveFailsAt(turns, i) }

  /**
   * How a tick that began in `start` went: `mid` is the loop after its first pass and `end`
   * after the whole. Until `mid` the tick hands nothing out. It is good exactly if no callback
   * of the first pass threw and no remove() of either failed; after a throw in the first pass
   * the loop stays as it was then, otherwise no callback is left among the ready handles and
   * a second pass that goes well empties them in one go.
   */
  ghost predicate Ticked(start: Book, mid: Book, end: Book, ready: seq<Handle>, collect: bool, busy: set<Handle>,
                         ok: bool, turns: seq<Turn>)
  {
    && BookOk(mid) && Grown(start, mid, busy)
    && NoHands(mid.log, |start.log|, |mid.log|, start.frames)
    && |start.log| <= |mid.log| && |start.log| <= |end.log|
    && var m, n := Takes(mid.log, |start.log|, start.frames), Takes(end.log, |start.log|, start.frames);
    && (ok <==> NoThrow(turns, m) && NoFailedRemove(turns, m, n))
    && (!NoThrow(turns, m) ==> end == mid)
    && (Quiet(turns, m) ==> OnlyTakes(start, mid, start.frames))
    && (ok ==> NoCallbacks(mid.watched, ready, |ready|) && end == Collected(mid, ready, collect, start.frames))
  }

  /** A tick of run() leads from one state to the next. */
  ghost predicate TickGoes(start: Book, end: Book, wait: Wait, ok: bool) {
    exists mid :: Ticked(start, mid, end, wait.ready, false, {}, ok, wait.turns)
  }

  lemma TickWent(start: Book, mid: Book, end: Book, wait: Wait, ok: bool)
    requires Ticked(start, mid, end, wait.ready, false, {}, ok, wait.turns)
    ensures TickGoes(start, end, wait, ok)
  {
  }

  lemma EmptyTick(b: Book, ready: seq<Handle>, busy: set<Handle>, turns: seq<Turn>)
    requires BookOk(b) && b.watched == map[]
    ensures Ticked(b, b, b, ready, true, busy, true, turns) && Pick(ready, b.watched) == []
  {
    hide Ledger;
    PickEmpty(ready);
  }

  lemma {:induction false} PickEmpty(ready: seq<Handle>)
    ensures Pick(ready, map[]) == []
  {
    if ready != [] {
      PickEmpty(ready[1..]);
    }
  }

  /** Handles are looked up one after the other, and each entry is found once. */
  lemma {:induction false} PickSplits(a: seq<Handle>, b: seq<Handle>, watched: map<Handle, Watched>)
    ensures Pick(a + b, watched) == Pick(a, watched) + Pick(b, watched - HandlesIn(a))
    ensures forall h :: Pick([h], watched) == if h in watched then [watched[h]] else []
  {
    if a == [] {
      assert a + b == b && watched - HandlesIn(a) == watched;
    } else {
      var rest := if a[0] in watched then watched - {a[0]} else watched;
      assert (a + b)[1..] == a[1..] + b;
      assert HandlesIn(a) == {a[0]} + HandlesIn(a[1..]);
      assert rest - HandlesIn(a[1..]) == watched - HandlesIn(a);
      PickSplits(a[1..], b, rest);
    }
  }

  /** The second pass after `i` handles: `took` has left, the rest is as it was. */
  ghost predicate Midway(was: Book, now: Book, ready: seq<Handle>, i: nat, took: seq<Watched>, collect: bool, frame: nat) {
    && i <= |ready| && NoCallbacks(now.watched, ready, |ready|)
    && now == was.(watched := was.watched - HandlesIn(ready[..i]), log := was.log + Events(took, HandsOut(collect), frame))
    && Pick(ready, was.watched) == took + Pick(ready[i..], now.watched)
  }

  lemma MidwayStart(was: Book, ready: seq<Handle>, collect: bool, frame: nat)
    requires NoCallbacks(was.watched, ready, |ready|)
    ensures Midway(was, was, ready, 0, [], collect, frame)
  {
    assert was.watched - HandlesIn(ready[..0]) == was.watched;
    assert was.log + Events([], HandsOut(collect), frame) == was.log;
    assert ready[0..] == ready && [] + Pick(ready, was.watched) == Pick(ready, was.watched);
  }

  lemma MidwayStep(was: Book, now: Book, ready: seq<Handle>, i: nat, took: seq<Watched>, collect: bool, frame: nat)
    requires Midway(was, now, ready, i, took, collect, frame) && i < |ready|
    ensures ready[i] !in now.watched ==> Midway(was, now, ready, i + 1, took, collect, frame)
    ensures ready[i] in now.watched ==>
              && !now.watched[ready[i]].hasCallback
              && Midway(was, Left(now, ready[i], HandsOut(collect), frame), ready, i + 1, took + [now.watched[ready[i]]], collect, frame)
  {
    var h := ready[i];
    assert ready[i..][1..] == ready[i + 1..];
    assert ready[..i + 1] == ready[..i] + [h];
    assert HandlesIn(ready[..i + 1]) == HandlesIn(ready[..i]) + {h};
    if h in now.watched {
      var w := now.watched[h];
      assert Events(took + [w], HandsOut(collect), frame) ==
             Events(took, HandsOut(collect), frame) + [Event(w.ticket, HandsOut(collect), frame)];
      assert now.watched - {h} == was.watched - HandlesIn(ready[..i + 1]);
      assert took + ([w] + Pick(ready[i + 1..], now.watched - {h})) == (took + [w]) + Pick(ready[i + 1..], now.watched - {h});
    } else {
      assert now.watched == was.watched - HandlesIn(ready[..i + 1]);
    }
  }

  lemma MidwayEnd(was: Book, now: Book, ready: seq<Handle>, took: seq<Watched>, collect: bool, frame: nat)
    requires Midway(was, now, ready, |ready|, took, collect, frame)
    ensures now == Collected(was, ready, collect, frame) && took == Pick(ready, was.watched)
  {
    assert ready[..|ready|] == ready;
    assert took + [] == took;
  }

  lemma NoneLostNext(was: seq<Event>, log: seq<Event>, e: Event)
    requires e.how != Lost
    ensures NoneLost(was, log) ==> NoneLost(was, log + [e])
  {
  }

  lemma FuturesSnoc(took: seq<Watched>, w: Watched)
    ensures Futures(took + [w]) == Futures(took) + [w.future]
  {
  }

  lemma FrameOpened(a: Book, b: Book, busy: set<Handle>)
    requires BookOk(a) && b == a.(frames := a.frames + 1)
    ensures BookOk(b) && Grown(a, b, busy) && NoHands(b.log, |a.log|, |b.log|, a.frames)
  {
    hide Ledger;
  }

  lemma LeftStaysOk(b: Book, h: Handle, how: How, frame: nat)
    requires BookOk(b) && h in b.watched && frame < b.frames
    requires how == Called ==> b.watched[h].hasCallback
    requires how == Returned || how == Discarded ==> !b.watched[h].hasCallback
    ensures BookOk(Left(b, h, how, frame))
  {
    hide Ledger;
    TakeLedger(b.watched, b.log, b.issued, h, how, frame);
  }

  lemma GrownSelf(a: Book, busy: set<Handle>)
    ensures Grown(a, a, busy)
  {
  }

  // ---- what the ledger means -----------------------------------------------

  /**
   * Every future ever watched is still watched under one handle, or left the loop once:
   * called if it came with a callback, handed out otherwise, lost only if its remove threw
   * or its handle came back after the user removed its watcher.
   */
  lemma ExactlyOnce(b: Book, t: nat)
    requires BookOk(b) && t < |b.issued|
    ensures InTable(b.watched, t) <==> !InLog(b.log, t)
    ensures forall h, k :: h in b.watched && k in b.watched && b.watched[h].ticket == t == b.watched[k].ticket ==> h == k
    ensures forall i, j :: 0 <= i < |b.log| && 0 <= j < |b.log| && b.log[i].ticket == t == b.log[j].ticket ==> i == j
    ensures forall i :: 0 <= i < |b.log| && b.log[i].ticket == t && b.log[i].how != Lost ==>
              (b.log[i].how == Called <==> b.issued[t].hasCallback)
  {
    if InTable(b.watched, t) {
      var h :| h in b.watched && b.watched[h].ticket == t;
      assert !InLog(b.log, b.watched[h].ticket);
    }
  }

  /** An entry of `a` is under its own handle in `b`, or was logged in between. */
  lemma StaysOrLogged(a: Book, b: Book, busy: set<Handle>, h: Handle)
    requires BookOk(a) && BookOk(b) && Grown(a, b, busy) && h in a.watched
    ensures (h in b.watched && b.watched[h] == a.watched[h]) || InLog(b.log, a.watched[h].ticket)
    ensures forall i :: 0 <= i < |b.log| && b.log[i].ticket == a.watched[h].ticket ==> |a.log| <= i && b.log[i].frame >= a.frames
  {
    hide LogOk;
    var t := a.watched[h].ticket;
    assert Recorded(a.watched[h], a.issued);
    if InTable(b.watched, t) {
      var k :| k in b.watched && b.watched[k].ticket == t;
      assert k in a.watched && a.watched[k] == b.watched[k];
    }
    assert forall i :: 0 <= i < |a.log| ==> a.log[i] == b.log[i] && a.log[i].ticket != t;
  }

  /**
   * A tick that does not throw dispatches every ready future, and every callback among
   * them runs before the tick hands anything out.
   */
  lemma TickDispatches(start: Book, mid: Book, end: Book, ready: seq<Handle>, collect: bool, busy: set<Handle>, turns: seq<Turn>, h: Handle)
    requires BookOk(start) && Ticked(start, mid, end, ready, collect, busy, true, turns)
    requires h in ready && h in start.watched
    ensures h !in end.watched
    ensures InLog(end.log, start.watched[h].ticket)
    ensures start.watched[h].hasCallback ==> InLog(mid.log, start.watched[h].ticket)
    ensures mid.log <= end.log
    ensures forall i :: |start.log| <= i < |end.log| ==> (Hands(end.log[i], start.frames) <==> |mid.log| <= i)
  {
    hide BookOk, Grown, NoCallbacks;
    StaysOrLogged(start, mid, busy, h);
    var t := start.watched[h].ticket;
    if InLog(mid.log, t) {
      var i :| 0 <= i < |mid.log| && mid.log[i].ticket == t;
      assert end.log[i].ticket == t;
    } else {
      PickHas(ready, mid.watched, h);
      var took := Pick(ready, mid.watched);
      var i :| 0 <= i < |took| && took[i] == mid.watched[h];
      assert end.log[|mid.log| + i].ticket == t;
      NoCallbackAt(mid.watched, ready, h);
    }
    GrownLog(start, mid, busy);
  }

  lemma GrownLog(a: Book, b: Book, busy: set<Handle>)
    requires Grown(a, b, busy)
    ensures a.log <= b.log
  {
  }

  lemma NoCallbackAt(watched: map<Handle, Watched>, ready: seq<Handle>, h: Handle)
    requires NoCallbacks(watched, ready, |ready|) && h in ready && h in watched
    ensures !watched[h].hasCallback
  {
  }

  lemma {:induction false} PickHas(ready: seq<Handle>, watched: map<Handle, Watched>, h: Handle)
    requires h in ready && h in watched
    ensures exists i :: 0 <= i < |Pick(ready, watched)| && Pick(ready, watched)[i] == watched[h]
  {
    var took := Pick(ready, watched);
    if ready[0] == h {
      assert took[0] == watched[h];
    } else if ready[0] in watched {
      PickHas(ready[1..], watched - {ready[0]}, h);
      var rest := Pick(ready[1..], watched - {ready[0]});
      var i :| 0 <= i < |rest| && rest[i] == watched[h];
      assert took[i + 1] == rest[i];
    } else {
      PickHas(ready[1..], watched, h);
    }
  }

  /**
   * A tick whose callback throws fails and leaves every ready future without a callback
   * watched, unless a tick inside one of the callbacks took it; its own second pass never began.
   */
  lemma ThrowKeepsWatched(start: Book, mid: Book, end: Book, ready: seq<Handle>, collect: bool, busy: set<Handle>,
                          ok: bool, turns: seq<Turn>, i: nat, h: Handle)
    requires BookOk(start) && Ticked(start, mid, end, ready, collect, busy, ok, turns) && NoneLost(start.log, end.log)
    requires i < Takes(mid.log, |start.log|, start.frames) && ThrowsAt(turns, i)
    requires h in ready && h in start.watched && !start.watched[h].hasCallback
    ensures !ok && end == mid
    ensures (h in end.watched && end.watched[h] == start.watched[h])
         || (exists k :: |start.log| <= k < |end.log| && end.log[k].ticket == start.watched[h].ticket &&
                         end.log[k].frame > start.frames)
  {
    hide Grown, Ledger, Takes;
    StaysOrLogged(start, mid, busy, h);
    if InLog(end.log, start.watched[h].ticket) {
      var k :| 0 <= k < |end.log| && end.log[k].ticket == start.watched[h].ticket;
      LoggedKind(start, end, busy, h, k);
      assert !Hands(end.log[k], start.frames);
    }
  }

  lemma LoggedKind(a: Book, b: Book, busy: set<Handle>, h: Handle, i: nat)
    requires BookOk(a) && BookOk(b) && Grown(a, b, busy) && h in a.watched && !a.watched[h].hasCallback
    requires i < |b.log| && b.log[i].ticket == a.watched[h].ticket
    ensures b.log[i].how != Called
  {
    hide Partition;
    assert Fits(b.log[i], b.issued) && Recorded(a.watched[h], a.issued);
  }

  lemma {:induction false} OwnTakes(log: seq<Event>, from: nat, frame: nat)
    requires from <= |log| && forall k :: from <= k < |log| ==> log[k].frame == frame
    ensures Takes(log, from, frame) == |log| - from
    decreases |log|
  {
    if |log| > from {
      OwnTakes(log[..|log| - 1], from, frame);
    }
  }

  /** A tick over a ready handle whose callback throws at once fails, and takes nothing without a callback. */
  lemma FirstThrow(start: Book, mid: Book, end: Book, ready: seq<Handle>, collect: bool, busy: set<Handle>, ok: bool,
                   turn: Turn, h: Handle, g: Handle)
    requires BookOk(start) && Ticked(start, mid, end, ready, collect, busy, ok, [turn]) && NoneLost(start.log, end.log)
    requires turn.script == Script([], true) && !turn.removeFails
    requires h in ready && h in start.watched && start.watched[h].hasCallback
    requires g in ready && g in start.watched && !start.watched[g].hasCallback
    ensures !ok && g in end.watched && end.watched[g] == start.watched[g]
  {
    hide Grown, BookOk, Takes, NoCallbacks;
    var m := Takes(mid.log, |start.log|, start.frames);
    OwnTakes(mid.log, |start.log|, start.frames);
    StaysOrLogged(start, mid, busy, h);
    if m == 0 {
      assert h in mid.watched && mid.watched[h].hasCallback;
      assert ok;
      NoCallbackAt(mid.watched, ready, h);
    } else {
      assert ThrowsAt([turn], 0);
      ThrowKeepsWatched(start, mid, end, ready, collect, busy, ok, [turn], 0, g);
    }
  }

  /** Of two ready futures the first one's callback throws: the tick fails and the second stays watched. */
  method ThrowKeepsTheOther() returns (ok: bool, out: seq<FutureId>, loop: Loop)
    ensures fresh(loop) && loop.Valid() && !ok && out == [] && 2 in loop.watched && loop.watched[2].future == 20
  {
    hide BookOk, Grown, Ticked;
    loop := new Loop();
    loop.Watch(1, 10, true);
    loop.Watch(2, 20, false);
    ghost var start := loop.Snap();
    var turn := Turn(false, Script([], true));
    var wait := Wait([1, 2], [turn]);
    assert RemovesSucceed(wait);
    var good, handed, mid := loop.Tick(wait, {});
    ok, out := good, handed;
    FirstThrow(start, mid, loop.Snap(), [1, 2], true, {}, ok, turn, 1, 2);
  }
}

/**
 * The per-future notifier of src/FutureNotifier.c: a descriptor shared between the PHP
 * thread, the driver's completion callback and any number of poll handles, kept alive by
 * an atomic count. Both threads are a step system; each step is one atomic access.
 *
 * Environment: the driver accepts at most one callback per future and runs it once, on
 * its own thread and only after the future resolved; a resolved future stays resolved;
 * userland does not read from the descriptor.
 */
module NotifierModel {
  import opened Sequences

  type Id = nat
  type HandleId = nat

  /** A notifier. `closes` counts how often its descriptor was closed. */
  datatype Cell = Cell(refcount: nat, live: bool, readable: bool, closes: nat)

  /** The one callback a future can have. */
  datatype Callback =
    | NotSet
    | Waiting(id: Id)  // accepted by the driver
    | Firing(id: Id)   // entered, the descriptor not yet poked
    | Poked(id: Id)    // poked, its reference not yet dropped
    | Fired(id: Id)

  /** Where the PHP thread stands inside a call. */
  datatype Php =
    | Idle
    | Created(id: Id)
    | AddedRef(id: Id)
    | Refused(id: Id)       // the driver did not take the callback
    | Unregistered(id: Id)  // the callback's reference was dropped again
    | Registered(id: Id)    // about to look whether the future resolved
    | Poking(id: Id)
    | Storing(id: Id)
    | Handing(id: Id, h: HandleId)  // a poll handle took its reference

  datatype State = State(
    resolved: bool,
    callback: Callback,
    cells: map<Id, Cell>,
    slot: Option<Id>,
    handles: map<HandleId, Id>,
    php: Php,
    futureFreed: bool,
    fault: bool)  // a freed notifier was touched, or an assertion of the code failed

  datatype Step =
    | Resolve
    | CallbackEnter
    | CallbackPoke
    | CallbackUnref
    | EnsureCreate(id: Id)
    | EnsureCreateReady(id: Id)
    | EnsureAddRef
    | EnsureSetCallback(accepted: bool)
    | EnsureDropExtra
    | EnsureAfterRefusal
    | EnsureRecheck
    | EnsurePoke
    | EnsureStore
    | HandleAddRef(h: HandleId)
    | HandleStore
    | HandleCleanup(h: HandleId)
    | FutureFree

  function Init(): State { State(false, NotSet, map[], None, map[], Idle, false, false) }

  predicate Enabled(s: State, step: Step) {
    match step
    case Resolve => true
    case CallbackEnter => s.callback.Waiting? && s.resolved
    case CallbackPoke => s.callback.Firing?
    case CallbackUnref => s.callback.Poked?
    case EnsureCreate(id) => s.php.Idle? && !s.futureFreed && s.slot.None? && id !in s.cells
    case EnsureCreateReady(id) => s.php.Idle? && !s.futureFreed && s.slot.None? && id !in s.cells && s.resolved
    case EnsureAddRef => s.php.Created?
    case EnsureSetCallback(accepted) => s.php.AddedRef? && (accepted ==> s.callback.NotSet?)
    case EnsureDropExtra => s.php.Refused?
    case EnsureAfterRefusal => s.php.Unregistered?
    case EnsureRecheck => s.php.Registered?
    case EnsurePoke => s.php.Poking?
    case EnsureStore => s.php.Storing?
    case HandleAddRef(h) => s.php.Idle? && s.slot.Some? && h !in s.handles
    case HandleStore => s.php.Handing?
    case HandleCleanup(h) => h in s.handles && s.php.Idle?
    case FutureFree => s.php.Idle? && !s.futureFreed
  }

  predicate Live(s: State, id: Id) { id in s.cells && s.cells[id].live }

  function Poke(s: State, id: Id): State {
    if Live(s, id) then s.(cells := s.cells[id := s.cells[id].(readable := true)]) else s.(fault := true)
  }

  function AddRef(s: State, id: Id): State {
    if Live(s, id) then s.(cells := s.cells[id := s.cells[id].(refcount := s.cells[id].refcount + 1)])
    else s.(fault := true)
  }

  /** Drop a reference that cannot be the last. */
  function UnrefExtra(s: State, id: Id): State {
    if Live(s, id) && s.cells[id].refcount > 1 then
      s.(cells := s.cells[id := s.cells[id].(refcount := s.cells[id].refcount - 1)])
    else s.(fault := true)
  }

  /** Drop a reference; the last one closes the descriptor and frees the notifier. */
  function Unref(s: State, id: Id): State {
    if !Live(s, id) || s.cells[id].refcount == 0 then s.(fault := true)
    else if s.cells[id].refcount == 1 then
      s.(cells := s.cells[id := s.cells[id].(refcount := 0, live := false, closes := s.cells[id].closes + 1)])
    else s.(cells := s.cells[id := s.cells[id].(refcount := s.cells[id].refcount - 1)])
  }

  function Create(s: State, id: Id): State { s.(cells := s.cells[id := Cell(1, true, false, 0)]) }

  function Apply(s: State, step: Step): State
    requires Enabled(s, step)
  {
    match step
    case Resolve => s.(resolved := true)
    case CallbackEnter => s.(callback := Firing(s.callback.id))
    case CallbackPoke => Poke(s, s.callback.id).(callback := Poked(s.callback.id))
    case CallbackUnref => Unref(s, s.callback.id).(callback := Fired(s.callback.id))
    case EnsureCreate(id) => Create(s, id).(php := Created(id))
    case EnsureCreateReady(id) => Create(s, id).(php := Poking(id))
    case EnsureAddRef => AddRef(s, s.php.id).(php := AddedRef(s.php.id))
    case EnsureSetCallback(accepted) =>
      if accepted then s.(callback := Waiting(s.php.id), php := Registered(s.php.id)) else s.(php := Refused(s.php.id))
    case EnsureDropExtra => UnrefExtra(s, s.php.id).(php := Unregistered(s.php.id))
    case EnsureAfterRefusal =>
      if s.resolved then s.(php := Registered(s.php.id)) else Unref(s, s.php.id).(php := Idle)
    case EnsureRecheck => s.(php := if s.resolved then Poking(s.php.id) else Storing(s.php.id))
    case EnsurePoke => Poke(s, s.php.id).(php := Storing(s.php.id))
    case EnsureStore => s.(slot := Some(s.php.id), php := Idle)
    case HandleAddRef(h) => AddRef(s, s.slot.value).(php := Handing(s.slot.value, h))
    case HandleStore => s.(handles := s.handles[s.php.h := s.php.id], php := Idle)
    case HandleCleanup(h) => Unref(s, s.handles[h]).(handles := s.handles - {h})
    case FutureFree =>
      (if s.slot.Some? then Unref(s, s.slot.value) else s).(slot := None, futureFreed := true)
  }

  ghost predicate IsRun(s: State, steps: seq<Step>)
    decreases |steps|
  {
    steps == [] || (Enabled(s, steps[0]) && IsRun(Apply(s, steps[0]), steps[1..]))
  }

  ghost function RunFrom(s: State, steps: seq<Step>): State
    requires IsRun(s, steps)
    decreases |steps|
  {
    if steps == [] then s else RunFrom(Apply(s, steps[0]), steps[1..])
  }
}

module NotifierTheorems {
  import opened Sequences
  import opened NotifierModel

  // ---- who holds a reference -----------------------------------------------

  function SlotRefs(slot: Option<Id>, id: Id): nat { if slot == Some(id) then 1 else 0 }

  predicate InFlight(cb: Callback, id: Id) { cb == Waiting(id) || cb == Firing(id) }

  function CallbackRefs(cb: Callback, id: Id): nat { if InFlight(cb, id) || cb == Poked(id) then 1 else 0 }

  function HandlesOf(handles: map<HandleId, Id>, id: Id): set<HandleId> {
    set h | h in handles && handles[h] == id
  }

  /** References the PHP thread holds while inside a call. */
  function PhpRefs(php: Php, id: Id): nat {
    match php
    case Idle => 0
    case AddedRef(i) => if i == id then 2 else 0
    case Refused(i) => if i == id then 2 else 0
    case _ => if php.id == id then 1 else 0
  }

  function Holders(s: State, id: Id): nat {
    SlotRefs(s.slot, id) + CallbackRefs(s.callback, id) + |HandlesOf(s.handles, id)| + PhpRefs(s.php, id)
  }

  // ---- the invariant -------------------------------------------------------

  predicate CellOk(c: Cell, holders: nat, resolved: bool) {
    && c.refcount == holders
    && (c.live <==> holders > 0)
    && c.closes == (if c.live then 0 else 1)
    && (c.readable ==> resolved)
  }

  predicate Counted(s: State) {
    forall id :: id in s.cells ==> CellOk(s.cells[id], Holders(s, id), s.resolved)
  }

  predicate Known(s: State) {
    && !s.fault
    && (s.slot.Some? ==> s.slot.value in s.cells)
    && (!s.callback.NotSet? ==> s.callback.id in s.cells)
    && (!s.php.Idle? ==> s.php.id in s.cells)
    && (forall h :: h in s.handles ==> s.handles[h] in s.cells)
    && (s.php.Handing? ==> s.slot == Some(s.php.id) && s.php.h !in s.handles)
    && (s.futureFreed ==> s.slot.None? && s.php.Idle?)
    && (!s.php.Idle? && !s.php.Handing? ==> s.slot.None?)
  }

  /** A notifier the caller may rely on is readable or still has its callback ahead of it. */
  predicate Promised(s: State, id: Id) {
    id in s.cells && (s.cells[id].readable || InFlight(s.callback, id))
  }

  predicate Promises(s: State) {
    && (s.callback.Firing? || s.callback.Poked? || s.callback.Fired? ==> s.resolved)
    && (s.callback.Poked? || s.callback.Fired? ==> s.callback.id in s.cells && s.cells[s.callback.id].readable)
    && (s.php.Poking? ==> s.resolved)
    && (s.php.Registered? ==> s.resolved || s.callback == Waiting(s.php.id))
    && (s.php.Storing? ==> Promised(s, s.php.id))
    && (s.slot.Some? ==> Promised(s, s.slot.value))
  }

  predicate Inv(s: State) { Known(s) && Counted(s) && Promises(s) }

  // ---- every step keeps it -------------------------------------------------

  lemma HandleAdded(handles: map<HandleId, Id>, h: HandleId, x: Id, id: Id)
    requires h !in handles
    ensures |HandlesOf(handles[h := x], id)| == |HandlesOf(handles, id)| + if id == x then 1 else 0
  {
    assert HandlesOf(handles[h := x], id) == HandlesOf(handles, id) + if id == x then {h} else {};
  }

  lemma HandleRemoved(handles: map<HandleId, Id>, h: HandleId, id: Id)
    requires h in handles
    ensures |HandlesOf(handles, id)| == |HandlesOf(handles - {h}, id)| + if id == handles[h] then 1 else 0
  {
    assert HandlesOf(handles, id) == HandlesOf(handles - {h}, id) + if id == handles[h] then {h} else {};
  }

  /** A notifier somebody holds is live, so it can be poked and its count moved. */
  lemma HeldIsLive(s: State, id: Id)
    requires Counted(s) && id in s.cells && Holders(s, id) > 0
    ensures Live(s, id) && CellOk(s.cells[id], Holders(s, id), s.resolved)
  {
  }

  /** `t` differs from `s` in one cell, whose count follows its holders. */
  lemma CountedAfter(s: State, t: State, x: Id)
    requires Counted(s) && s.cells.Keys + {x} == t.cells.Keys && (s.resolved ==> t.resolved)
    requires x in t.cells && CellOk(t.cells[x], Holders(t, x), t.resolved)
    requires forall id :: id in s.cells && id != x ==> t.cells[id] == s.cells[id] && Holders(t, id) == Holders(s, id)
    ensures Counted(t)
  {
    forall id | id in t.cells ensures CellOk(t.cells[id], Holders(t, id), t.resolved) {
      if id != x {
        assert id in s.cells;
      }
    }
  }

  predicate ByCallback(step: Step) { step.CallbackEnter? || step.CallbackPoke? || step.CallbackUnref? }

  lemma CallbackCounted(s: State, step: Step)
    requires Inv(s) && Enabled(s, step) && ByCallback(step)
    ensures Counted(Apply(s, step))
  {
    hide Counted, HandlesOf, PhpRefs, SlotRefs;
    HeldIsLive(s, s.callback.id);
    CountedAfter(s, Apply(s, step), s.callback.id);
  }

  lemma CallbackStep(s: State, step: Step)
    requires Inv(s) && Enabled(s, step) && ByCallback(step)
    ensures Inv(Apply(s, step))
  {
    hide Counted, Holders;
    CallbackCounted(s, step);
    CallbackHolds(s);
    HeldIsLive(s, s.callback.id);
  }

  lemma CallbackHolds(s: State)
    requires !s.callback.NotSet? && !s.callback.Fired?
    ensures Holders(s, s.callback.id) > 0
  {
  }

  lemma ResolveStep(s: State)
    requires Inv(s)
    ensures Inv(Apply(s, Resolve))
  {
    var t := Apply(s, Resolve);
    assert forall id :: Holders(t, id) == Holders(s, id);
  }

  lemma CreateCounted(s: State, step: Step)
    requires Inv(s) && Enabled(s, step) && (step.EnsureCreate? || step.EnsureCreateReady?)
    ensures Counted(Apply(s, step))
  {
    hide Counted, SlotRefs;
    assert HandlesOf(s.handles, step.id) == {} && SlotRefs(s.slot, step.id) == 0 by { NoSlot(step.id); }
    hide HandlesOf;
    CountedAfter(s, Apply(s, step), step.id);
  }

  lemma NoSlot(id: Id)
    ensures SlotRefs(None, id) == 0
  {
  }

  lemma CreateStep(s: State, step: Step)
    requires Inv(s) && Enabled(s, step) && (step.EnsureCreate? || step.EnsureCreateReady?)
    ensures Inv(Apply(s, step))
  {
    CreateCounted(s, step);
    hide Counted, Holders;
  }

  /** A step of the PHP thread inside ensure_notifier, up to the store. */
  predicate Ensuring(step: Step) {
    || step.EnsureAddRef? || step.EnsureSetCallback? || step.EnsureDropExtra? || step.EnsureAfterRefusal?
    || step.EnsureRecheck? || step.EnsurePoke?
  }

  lemma EnsureCounted(s: State, step: Step)
    requires Inv(s) && Enabled(s, step) && Ensuring(step)
    ensures Counted(Apply(s, step))
  {
    hide Counted, HandlesOf, SlotRefs;
    HeldIsLive(s, s.php.id);
    CountedAfter(s, Apply(s, step), s.php.id);
  }

  lemma EnsureStep(s: State, step: Step)
    requires Inv(s) && Enabled(s, step) && Ensuring(step)
    ensures Inv(Apply(s, step))
  {
    hide Counted, Holders;
    EnsureCounted(s, step);
    PhpHolds(s);
    HeldIsLive(s, s.php.id);
  }

  lemma PhpHolds(s: State)
    requires !s.php.Idle?
    ensures Holders(s, s.php.id) >= if s.php.Refused? then 2 else 1
  {
  }

  lemma StoreCounted(s: State, step: Step)
    requires Inv(s) && Enabled(s, step) && (step.EnsureStore? || step.HandleStore?)
    ensures Counted(Apply(s, step))
  {
    hide Counted, HandlesOf, CallbackRefs;
    HeldIsLive(s, s.php.id);
    if step.HandleStore? {
      forall id { HandleAdded(s.handles, s.php.h, s.php.id, id); }
    }
    CountedAfter(s, Apply(s, step), s.php.id);
  }

  lemma StoreStep(s: State, step: Step)
    requires Inv(s) && Enabled(s, step) && (step.EnsureStore? || step.HandleStore?)
    ensures Inv(Apply(s, step))
  {
    hide Counted, Holders;
    StoreCounted(s, step);
  }

  lemma HandleAddCounted(s: State, h: HandleId)
    requires Inv(s) && Enabled(s, HandleAddRef(h))
    ensures Counted(Apply(s, HandleAddRef(h)))
  {
    hide Counted, HandlesOf, CallbackRefs;
    HeldIsLive(s, s.slot.value);
    CountedAfter(s, Apply(s, HandleAddRef(h)), s.slot.value);
  }

  lemma HandleHolds(s: State, h: HandleId)
    requires h in s.handles
    ensures Holders(s, s.handles[h]) > 0
  {
    assert h in HandlesOf(s.handles, s.handles[h]);
  }

  lemma CleanupCounted(s: State, h: HandleId)
    requires Inv(s) && Enabled(s, HandleCleanup(h))
    ensures Counted(Apply(s, HandleCleanup(h)))
  {
    hide Counted, HandlesOf, CallbackRefs, SlotRefs, PhpRefs;
    var x := s.handles[h];
    HandleHolds(s, h);
    HeldIsLive(s, x);
    forall id { HandleRemoved(s.handles, h, id); }
    CountedAfter(s, Apply(s, HandleCleanup(h)), x);
  }

  lemma HandleStep(s: State, step: Step)
    requires Inv(s) && Enabled(s, step) && (step.HandleAddRef? || step.HandleCleanup?)
    ensures Inv(Apply(s, step))
  {
    hide Counted, Holders;
    if step.HandleAddRef? {
      HandleAddCounted(s, step.h);
      SlotHolds(s);
      HeldIsLive(s, s.slot.value);
    } else {
      CleanupCounted(s, step.h);
      HandleHolds(s, step.h);
      HeldIsLive(s, s.handles[step.h]);
    }
  }

  lemma SlotHolds(s: State)
    requires s.slot.Some?
    ensures Holders(s, s.slot.value) > 0
  {
  }

  lemma FreeCounted(s: State)
    requires Inv(s) && Enabled(s, FutureFree)
    ensures Counted(Apply(s, FutureFree))
  {
    if s.slot.Some? {
      hide Counted, HandlesOf, CallbackRefs, PhpRefs;
      HeldIsLive(s, s.slot.value);
      CountedAfter(s, Apply(s, FutureFree), s.slot.value);
    } else {
      hide HandlesOf;
      assert forall id :: Holders(Apply(s, FutureFree), id) == Holders(s, id);
    }
  }

  lemma FreeStep(s: State)
    requires Inv(s) && Enabled(s, FutureFree)
    ensures Inv(Apply(s, FutureFree))
  {
    hide Counted, Holders;
    FreeCounted(s);
    if s.slot.Some? {
      SlotHolds(s);
      HeldIsLive(s, s.slot.value);
    }
  }

  lemma StepInv(s: State, step: Step)
    requires Inv(s) && Enabled(s, step)
    ensures Inv(Apply(s, step))
  {
    hide Inv, Apply;
    match step
    case Resolve => ResolveStep(s);
    case CallbackEnter => CallbackStep(s, step);
    case CallbackPoke => CallbackStep(s, step);
    case CallbackUnref => CallbackStep(s, step);
    case EnsureCreate(_) => CreateStep(s, step);
    case EnsureCreateReady(_) => CreateStep(s, step);
    case EnsureStore => StoreStep(s, step);
    case HandleAddRef(_) => HandleStep(s, step);
    case HandleStore => StoreStep(s, step);
    case HandleCleanup(_) => HandleStep(s, step);
    case FutureFree => FreeStep(s);
    case _ => EnsureStep(s, step);
  }

  // ---- theorems ------------------------------------------------------------

  ghost predicate Reaches(s: State, t: State) {
    exists steps :: IsRun(s, steps) && t == RunFrom(s, steps)
  }

  ghost predicate Reachable(s: State) { Reaches(Init(), s) }

  lemma {:induction false} RunInv(s: State, steps: seq<Step>)
    requires Inv(s) && IsRun(s, steps)
    ensures Inv(RunFrom(s, steps))
    decreases |steps|
  {
    hide Inv, Apply;
    if steps != [] {
      StepInv(s, steps[0]);
      RunInv(Apply(s, steps[0]), steps[1..]);
    }
  }

  lemma ReachableInv(s: State)
    requires Reachable(s)
    ensures Inv(s)
  {
    var steps :| IsRun(Init(), steps) && s == RunFrom(Init(), steps);
    RunInv(Init(), steps);
  }

  /**
   * The count is the Future's slot, the outstanding callback, the live poll handles and
   * what a call in progress holds; the notifier lives exactly while somebody holds it.
   */
  lemma RefcountExact(s: State, id: Id)
    requires Reachable(s) && id in s.cells
    ensures s.cells[id].refcount == Holders(s, id)
    ensures s.cells[id].live <==> Holders(s, id) > 0
    ensures s.php.Idle? ==>
              s.cells[id].refcount == SlotRefs(s.slot, id) + CallbackRefs(s.callback, id) + |HandlesOf(s.handles, id)|
  {
    ReachableInv(s);
  }

  /** No step pokes or counts on a freed notifier, whatever the interleaving. */
  lemma NeverTouchesFreed(s: State, step: Step)
    requires Reachable(s) && Enabled(s, step)
    ensures !s.fault && !Apply(s, step).fault
  {
    hide Apply;
    ReachableInv(s);
    StepInv(s, step);
  }

  /** The descriptor is closed when the last holder lets go, once. */
  lemma ClosedOnce(s: State, id: Id)
    requires Reachable(s) && id in s.cells
    ensures s.cells[id].closes == if Holders(s, id) > 0 then 0 else 1
  {
    ReachableInv(s);
  }

  predicate Keeps(s: State, t: State, id: Id) { id in s.cells && id in t.cells && t.cells[id] == s.cells[id] }

  lemma Untouched(s: State, id: Id)
    requires id in s.cells && !s.cells[id].live
    ensures forall x {:trigger Poke(s, x)} :: Keeps(s, Poke(s, x), id)
    ensures forall x {:trigger AddRef(s, x)} :: Keeps(s, AddRef(s, x), id)
    ensures forall x {:trigger Unref(s, x)} :: Keeps(s, Unref(s, x), id)
    ensures forall x {:trigger UnrefExtra(s, x)} :: Keeps(s, UnrefExtra(s, x), id)
    ensures forall x {:trigger Create(s, x)} :: x !in s.cells ==> Keeps(s, Create(s, x), id)
  {
  }

  lemma ClosedStep(s: State, step: Step, id: Id)
    requires Enabled(s, step) && id in s.cells && !s.cells[id].live
    ensures Keeps(s, Apply(s, step), id)
  {
    hide Poke, AddRef, Unref, UnrefExtra, Create;
    Untouched(s, id);
  }

  /** Once closed, a notifier is never poked, counted or closed again, in any run. */
  lemma {:induction false} ClosedForGood(s: State, steps: seq<Step>, id: Id)
    requires Inv(s) && IsRun(s, steps) && id in s.cells && !s.cells[id].live
    ensures !RunFrom(s, steps).fault && id in RunFrom(s, steps).cells && RunFrom(s, steps).cells[id] == s.cells[id]
    decreases |steps|
  {
    hide Apply, Counted, Promises;
    if steps != [] {
      StepInv(s, steps[0]);
      ClosedStep(s, steps[0], id);
      ClosedForGood(Apply(s, steps[0]), steps[1..], id);
    }
  }

  lemma ReadableMeansResolved(s: State, id: Id)
    requires Reachable(s) && id in s.cells && s.cells[id].readable
    ensures s.resolved
  {
    ReachableInv(s);
  }

  /** After ensure_notifier, a resolved future without a callback under way is readable. */
  lemma ResolvedMeansReadable(s: State, id: Id)
    requires Reachable(s) && s.slot == Some(id) && s.resolved && !InFlight(s.callback, id)
    ensures id in s.cells && s.cells[id].readable
  {
    ReachableInv(s);
  }

  /** Inside ensure_notifier. */
  predicate InEnsure(php: Php) { !php.Idle? && !php.Handing? }

  /**
   * ensure_notifier goes on whenever it has begun. It ends with the notifier in the Future's
   * slot, or without one exactly if the driver refused the callback of a future that has not
   * resolved.
   */
  lemma EnsureEnds(s: State, step: Step)
    requires Reachable(s) && InEnsure(s.php)
    ensures Enabled(s, NextEnsure(s.php))
    ensures Enabled(s, step) && Apply(s, step).php.Idle? ==>
      && var t, id := Apply(s, step), s.php.id;
      && (t.slot == Some(id) || (t.slot.None? && !t.resolved))
      && (t.slot.None? <==> s.php.Unregistered? && !s.resolved)
  {
    hide Counted, Holders;
    ReachableInv(s);
  }

  function NextEnsure(php: Php): Step
    requires InEnsure(php)
  {
    match php
    case Created(_) => EnsureAddRef
    case AddedRef(_) => EnsureSetCallback(false)
    case Refused(_) => EnsureDropExtra
    case Unregistered(_) => EnsureAfterRefusal
    case Registered(_) => EnsureRecheck
    case Poking(_) => EnsurePoke
    case _ => EnsureStore
  }

  /** A wakeup that is still missing is owed by the driver alone, and is at most two of its steps away. */
  lemma WakeupComes(s: State, id: Id)
    requires Reachable(s) && s.slot == Some(id) && s.resolved && id in s.cells && !s.cells[id].readable
    ensures var mid := if s.callback.Waiting? then CallbackEnter else Resolve;
            Enabled(s, mid) && Enabled(Apply(s, mid), CallbackPoke) &&
            var t := Apply(Apply(s, mid), CallbackPoke); id in t.cells && t.cells[id].readable
  {
    ReachableInv(s);
    SlotHolds(s);
    hide Holders;
    HeldIsLive(s, id);
  }

  /** Nothing leaks: with the Future, the handles and the callback gone, every notifier is freed. */
  lemma AllReleased(s: State)
    requires Reachable(s) && s.futureFreed && s.handles == map[] && (s.callback.NotSet? || s.callback.Fired?)
    ensures forall id :: id in s.cells ==> !s.cells[id].live && s.cells[id].closes == 1
  {
    ReachableInv(s);
    forall id | id in s.cells ensures !s.cells[id].live && s.cells[id].closes == 1 {
      assert HandlesOf(s.handles, id) == {};
    }
  }
}

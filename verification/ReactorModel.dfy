/**
 * The shared completion reactor as a step system.
 *
 * Two kinds of thread act on one state. Driver IO threads run the completion
 * callback: win the compare-and-swap, then append and signal under the lock.
 * The PHP thread registers futures, polls and resets; its program counter is
 * the field `php`. Every access to a record that has been freed sets `fault`.
 */
module ReactorModel {
  import opened Sequences

  type RegId = nat
  type FutureId = nat
  type Ticket = nat

  /** One registration record. `ticket` names the add() it serves. */
  datatype Reg = Reg(refs: nat, enqueued: bool, future: FutureId, hasCallback: bool, ticket: Ticket)

  /** A future collected into the array poll() is building. */
  datatype Item = Item(future: FutureId, ticket: Ticket)

  /** Who runs the consume loop: poll() with its limit (0 = none), or a reset. */
  datatype Mode = Deliver(limit: nat) | Discard

  datatype Php =
    | Idle
    | AddCreated(r: RegId)
    | AddDecide(r: RegId, accepted: bool)
    | AddEnqueue(r: RegId, inCallback: bool)
    | AddAppend(r: RegId, inCallback: bool)
    | Draining(mode: Mode)
    | Drained(mode: Mode)
    | Consuming(mode: Mode, batch: seq<RegId>, spliced: seq<Ticket>, taken: nat,
                out: seq<Item>, thrown: bool)
    | Reclaiming(head: seq<RegId>, all: seq<Item>)   // the first |head| items are re-registered
    | Resetting

  /** What became of a ticket. */
  datatype Where = Live(r: RegId) | Collected | Called | Returned | Discarded | Withdrawn

  datatype State = State(
    regs: map<RegId, Reg>,          // records not yet freed
    registered: seq<RegId>,         // registered-list, head first
    pending: int,
    reactorRefs: int,
    ready: seq<RegId>,              // ready-list, head first
    lock: Option<RegId>,            // IO thread between append and signal
    fd: nat,                        // descriptor counter; readable iff positive
    slot: map<FutureId, RegId>,     // each future's reactor_reg, when not null
    pins: multiset<FutureId>,       // references the reactor holds on Future objects
    values: set<FutureId>,          // FutureValue: no driver future behind it
    visible: set<FutureId>,         // cass_future_ready() answers true
    spent: set<FutureId>,           // the driver has accepted its one callback
    armed: map<FutureId, RegId>,    // accepted, callback not yet run
    notified: set<FutureId>,        // owns a per-future descriptor
    appending: set<RegId>,          // IO threads past the CAS, before the lock
    php: Php,
    nextReg: nat,
    strict: bool,                   // the driver runs a callback before it shows readiness
    fault: bool,
    nextTicket: nat,                // history: tickets issued,
    places: map<Ticket, Where>,     // where each one is,
    log: seq<Ticket>)               // and the order they were appended in

  function Init(values: set<FutureId>, strict: bool): State {
    State(map[], [], 0, 1, [], None, 0, map[], multiset{}, values, {}, {}, map[], {}, {}, Idle, 0, strict,
          false, 0, map[], [])
  }

  // ---- building blocks -----------------------------------------------------

  /** reg_create: two references, pinned, at the head of the registered-list. */
  function RegCreate(s: State, f: FutureId, callback: bool, enqueued: bool, ticket: Ticket): State {
    s.(regs := s.regs[s.nextReg := Reg(2, enqueued, f, callback, ticket)],
       registered := [s.nextReg] + s.registered,
       pending := s.pending + 1,
       reactorRefs := s.reactorRefs + 1,
       slot := s.slot[f := s.nextReg],
       pins := s.pins + multiset{f},
       places := s.places[ticket := Live(s.nextReg)],
       nextReg := s.nextReg + 1)
  }

  /**
   * Clear the slot, unlink from the registered-list, drop both references. The pin
   * is released, except when it moves into the array poll() returns.
   */
  function RegDispose(s: State, r: RegId, w: Where): State {
    if r !in s.regs then s.(fault := true)
    else
      var reg := s.regs[r];
      var s1 := s.(slot := s.slot - {reg.future},
                   pins := if w == Collected then s.pins else s.pins - multiset{reg.future},
                   registered := Remove(s.registered, r),
                   pending := s.pending - 1,
                   places := s.places[reg.ticket := w]);
      if reg.refs == 2 then s1.(regs := s.regs - {r}, reactorRefs := s.reactorRefs - 1)
      else s1.(regs := s.regs[r := reg.(refs := if reg.refs < 2 then 0 else reg.refs - 2)])
  }

  function TicketOf(s: State, r: RegId): Ticket {
    if r in s.regs then s.regs[r].ticket else 0
  }

  function Tickets(s: State, rs: seq<RegId>): seq<Ticket> {
    seq(|rs|, i requires 0 <= i < |rs| => TicketOf(s, rs[i]))
  }

  function ItemTickets(items: seq<Item>): seq<Ticket> {
    seq(|items|, i requires 0 <= i < |items| => items[i].ticket)
  }

  function ItemFutures(items: seq<Item>): seq<FutureId> {
    seq(|items|, i requires 0 <= i < |items| => items[i].future)
  }

  /** Every collected ticket reaches the caller. */
  function Settle(places: map<Ticket, Where>, items: seq<Item>): map<Ticket, Where> {
    map t | t in places :: if t in ItemTickets(items) then Returned else places[t]
  }

  function Append(s: State, r: RegId): State {
    s.(ready := s.ready + [r], log := s.log + [TicketOf(s, r)])
  }

  predicate CapReached(p: Php)
    requires p.Consuming?
  {
    p.mode.Deliver? && p.mode.limit != 0 && p.taken >= p.mode.limit
  }

  predicate Claimed(s: State, f: FutureId) { f in s.slot || f in s.notified }

  // ---- steps ---------------------------------------------------------------

  /** How cass_future_set_callback answered. */
  datatype Reply = Accepted | AcceptedAndRun | Refused

  datatype Step =
    // driver
    | IoCallback(f: FutureId)       // the accepted callback starts: compare-and-swap
    | IoAppend(r: RegId)            // lock, append
    | IoSignal                      // signal, unlock
    | MakeVisible(f: FutureId)
    | UseNotifier(f: FutureId, takesCallback: bool)
    // PHP thread: add()
    | AddReject(f: FutureId)
    | AddCreate(f: FutureId, callback: bool)
    | AddSetCallback(reply: Reply)
    | AddSkipCallback               // FutureValue
    | AddRecheck
    | AddCas
    | AddPush                       // lock, append, signal, unlock
    // PHP thread: poll() and reset
    | PollStart(max: Option<nat>)
    | ResetStart
    | ResetWait                     // cass_future_wait on every registered future
    | ResetAgain
    | ResetDone
    | DrainRead
    | DrainEmpty
    | Splice
    | ConsumeOne(throws: bool)
    | Requeue
    | Return
    | ReclaimStart
    | ReclaimOne
    | ReclaimPush

  /** poll() casts its zend_long argument to uint32_t. */
  function LimitOf(max: Option<nat>): nat {
    if max.None? then 0 else max.value % 0x1_0000_0000
  }

  predicate Enabled(s: State, step: Step) {
    match step
    case IoCallback(f) => f in s.armed
    case IoAppend(r) => r in s.appending && s.lock.None?
    case IoSignal => s.lock.Some?
    case MakeVisible(f) => f !in s.visible && f !in s.values && (s.strict ==> f !in s.armed)
    case UseNotifier(f, takes) => s.php.Idle? && f !in s.slot && (takes ==> f !in s.spent)
    case AddReject(f) => s.php.Idle? && Claimed(s, f)
    case AddCreate(f, _) => s.php.Idle? && !Claimed(s, f)
    case AddSetCallback(reply) =>
      && s.php.AddCreated? && s.php.r in s.regs && s.regs[s.php.r].future !in s.values
      && (reply != Refused ==> s.regs[s.php.r].future !in s.spent)
      && (reply == AcceptedAndRun ==> s.regs[s.php.r].future in s.visible)
    case AddSkipCallback => s.php.AddCreated? && s.php.r in s.regs && s.regs[s.php.r].future in s.values
    case AddRecheck => s.php.AddDecide?
    case AddCas => s.php.AddEnqueue?
    case AddPush => s.php.AddAppend? && s.lock.None?
    case PollStart(max) => s.php.Idle? && (max.Some? ==> max.value >= 1)
    case ResetStart => s.php.Idle?
    case ResetWait =>
      && s.php.Resetting? && s.registered != []
      && forall r :: r in s.registered && r in s.regs ==>
           s.regs[r].future in s.values || s.regs[r].future in s.visible
    case ResetAgain => s.php.Consuming? && s.php.mode.Discard? && s.php.batch == []
    case ResetDone => s.php.Resetting? && s.registered == []
    case DrainRead => s.php.Draining? && s.fd > 0
    case DrainEmpty => s.php.Draining? && s.fd == 0
    case Splice => s.php.Drained? && s.lock.None?
    case ConsumeOne(throws) =>
      && s.php.Consuming? && s.php.batch != [] && !s.php.thrown && !CapReached(s.php)
      && (throws ==> s.php.mode.Deliver? && s.php.batch[0] in s.regs && s.regs[s.php.batch[0]].hasCallback)
    case Requeue =>
      s.php.Consuming? && s.php.batch != [] && (s.php.thrown || CapReached(s.php)) && s.lock.None?
    case Return =>
      s.php.Consuming? && s.php.mode.Deliver? && s.php.batch == [] && (s.php.thrown ==> s.php.out == [])
    case ReclaimStart =>
      s.php.Consuming? && s.php.mode.Deliver? && s.php.batch == [] && s.php.thrown && s.php.out != []
    case ReclaimOne => s.php.Reclaiming? && |s.php.head| < |s.php.all|
    case ReclaimPush => s.php.Reclaiming? && |s.php.head| >= |s.php.all| && s.lock.None?
  }

  /** Compare-and-swap on the `enqueued` flag, by whichever thread. */
  function Cas(s: State, r: RegId): (State, bool) {
    if r !in s.regs then (s.(fault := true), false)
    else if s.regs[r].enqueued then (s, false)
    else (s.(regs := s.regs[r := s.regs[r].(enqueued := true)]), true)
  }

  /** One turn of the consume loop on the head of the batch. */
  function Consume(s: State, throws: bool): State
    requires s.php.Consuming? && s.php.batch != []
  {
    var p := s.php.(batch := s.php.batch[1..], taken := s.php.taken + 1);
    var r := s.php.batch[0];
    if r !in s.regs then s.(fault := true)
    else if p.mode.Discard? then RegDispose(s, r, Discarded).(php := p)
    else if s.regs[r].hasCallback then RegDispose(s, r, Called).(php := p.(thrown := throws))
    else RegDispose(s, r, Collected)
         .(php := p.(out := p.out + [Item(s.regs[r].future, s.regs[r].ticket)]))
  }

  function SetCallback(s: State, reply: Reply): State
    requires Enabled(s, AddSetCallback(reply))
  {
    var r := s.php.r;
    var f := s.regs[r].future;
    var s1 := if reply == Refused then s else s.(spent := s.spent + {f});
    if reply == AcceptedAndRun then s1.(php := AddEnqueue(r, true))
    else if reply == Accepted && !(s.strict && f in s.visible) then
      s1.(php := AddDecide(r, true), armed := s1.armed[f := r])
    else s1.(php := AddDecide(r, reply == Accepted))
  }

  function Recheck(s: State): State
    requires s.php.AddDecide?
  {
    var r := s.php.r;
    if r !in s.regs then s.(fault := true)
    else if s.regs[r].future in s.visible then s.(php := AddEnqueue(r, false))
    else if s.php.accepted then s.(php := Idle)
    else RegDispose(s, r, Withdrawn).(php := Idle)
  }

  /** Where add() goes after its own push: back into set_callback, or home. */
  function AfterPush(p: Php): Php
    requires p.AddEnqueue? || p.AddAppend?
  {
    if p.inCallback then AddDecide(p.r, true) else Idle
  }

  function RunCallback(s: State, f: FutureId): State
    requires f in s.armed
  {
    var r := s.armed[f];
    var (s1, won) := Cas(s.(armed := s.armed - {f}), r);
    if won then s1.(appending := s1.appending + {r}) else s1
  }

  function CasInAdd(s: State): State
    requires s.php.AddEnqueue?
  {
    var (s1, won) := Cas(s, s.php.r);
    s1.(php := if won then AddAppend(s.php.r, s.php.inCallback) else AfterPush(s.php))
  }

  function SpliceReady(s: State): State
    requires s.php.Drained?
  {
    s.(php := Consuming(s.php.mode, s.ready, Tickets(s, s.ready), 0, [], false), ready := [])
  }

  /** The batch left over goes back in front of anything that arrived meanwhile. */
  function PutBack(s: State): State
    requires s.php.Consuming?
  {
    s.(ready := s.php.batch + s.ready, fd := s.fd + 1, php := s.php.(batch := []))
  }

  function HandOver(s: State): State
    requires s.php.Consuming?
  {
    s.(php := Idle, places := Settle(s.places, s.php.out),
       pins := s.pins - multiset(ItemFutures(s.php.out)))
  }

  function ReRegister(s: State): State
    requires s.php.Reclaiming? && |s.php.head| < |s.php.all|
  {
    var it := s.php.all[|s.php.head|];
    RegCreate(s, it.future, false, true, it.ticket)
    .(php := s.php.(head := s.php.head + [s.nextReg]))
  }

  function PushReclaimed(s: State): State
    requires s.php.Reclaiming?
  {
    s.(ready := s.php.head + s.ready, fd := s.fd + 1, php := Idle,
       pins := s.pins - multiset(ItemFutures(s.php.all)))
  }

  function Apply(s: State, step: Step): State
    requires Enabled(s, step)
  {
    match step
    case IoCallback(f) => RunCallback(s, f)
    case IoAppend(r) => Append(s, r).(appending := s.appending - {r}, lock := Some(r))
    case IoSignal => s.(fd := s.fd + 1, lock := None)
    case MakeVisible(f) => s.(visible := s.visible + {f})
    case UseNotifier(f, takes) =>
      s.(notified := s.notified + {f}, spent := if takes then s.spent + {f} else s.spent)
    case AddReject(_) => s
    case AddCreate(f, callback) =>
      RegCreate(s, f, callback, false, s.nextTicket)
      .(php := AddCreated(s.nextReg), nextTicket := s.nextTicket + 1)
    case AddSetCallback(reply) => SetCallback(s, reply)
    case AddSkipCallback => s.(php := AddEnqueue(s.php.r, false))
    case AddRecheck => Recheck(s)
    case AddCas => CasInAdd(s)
    case AddPush => Append(s, s.php.r).(fd := s.fd + 1, php := AfterPush(s.php))
    case PollStart(max) => s.(php := Draining(Deliver(LimitOf(max))))
    case ResetStart => s.(php := Resetting)
    case ResetWait => s.(php := Draining(Discard))
    case ResetAgain => s.(php := Resetting)
    case ResetDone => s.(php := Idle, fd := 0)
    case DrainRead => s.(fd := 0)
    case DrainEmpty => s.(php := Drained(s.php.mode))
    case Splice => SpliceReady(s)
    case ConsumeOne(throws) => Consume(s, throws)
    case Requeue => PutBack(s)
    case Return => HandOver(s)
    case ReclaimStart => s.(php := Reclaiming([], s.php.out))
    case ReclaimOne => ReRegister(s)
    case ReclaimPush => PushReclaimed(s)
  }

  // ---- runs ----------------------------------------------------------------

  /** `steps` can be taken one after another from `s`. */
  ghost predicate IsRun(s: State, steps: seq<Step>)
    decreases |steps|
  {
    steps == [] || (Enabled(s, steps[0]) && IsRun(Apply(s, steps[0]), steps[1..]))
  }

  ghost function RunFrom(s: State, steps: seq<Step>): State
    requires IsRun(s, steps)
    decreases |steps|
  {
    if steps == [] then s else RunFrom(Apply(s, steps[0]), steps[1..])
  }
}

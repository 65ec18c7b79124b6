/** What every step of the reactor keeps. */
module ReactorInvariant {
  import opened Sequences
  import opened ReactorModel

  // ---- what the PHP thread holds -------------------------------------------

  /** Records spliced off the ready-list and not yet put back or freed. */
  function Held(p: Php): seq<RegId> {
    match p
    case Consuming(_, batch, _, _, _, _) => batch
    case Reclaiming(head, _) => head
    case _ => []
  }

  /** Futures collected for the caller that have no record at the moment. */
  function Loose(p: Php): seq<Item> {
    match p
    case Consuming(_, _, _, _, out, _) => out
    case Reclaiming(head, all) => if |head| <= |all| then all[|head|..] else []
    case _ => []
  }

  /** The PHP array that holds references on collected futures. */
  function Array(p: Php): seq<Item> {
    match p
    case Consuming(_, _, _, _, out, _) => out
    case Reclaiming(_, all) => all
    case _ => []
  }

  /** The record add() has won the compare-and-swap for but not appended yet. */
  function Pushing(p: Php): Option<RegId> {
    if p.AddAppend? then Some(p.r) else None
  }

  /** The record add() is working on. */
  function Adding(p: Php): Option<RegId> {
    if p.AddCreated? || p.AddDecide? || p.AddEnqueue? || p.AddAppend? then Some(p.r) else None
  }

  function Queue(s: State): seq<RegId> { Held(s.php) + s.ready }

  function TicketsIn(regs: map<RegId, Reg>, rs: seq<RegId>): seq<Ticket>
    requires forall r :: r in rs ==> r in regs
  {
    seq(|rs|, i requires 0 <= i < |rs| => regs[rs[i]].ticket)
  }

  /** Every appended, undelivered ticket in the order it will be delivered. */
  function Line(regs: map<RegId, Reg>, held: seq<RegId>, loose: seq<Item>, ready: seq<RegId>,
                reclaiming: bool): seq<Ticket>
    requires forall r :: r in held + ready ==> r in regs
  {
    if reclaiming
    then TicketsIn(regs, held) + ItemTickets(loose) + TicketsIn(regs, ready)
    else ItemTickets(loose) + TicketsIn(regs, held) + TicketsIn(regs, ready)
  }

  predicate Finished(w: Where) { w.Called? || w.Returned? || w.Discarded? }

  function Done(places: map<Ticket, Where>): set<Ticket> {
    set t | t in places && Finished(places[t])
  }

  // ---- the invariant -------------------------------------------------------

  /** The registered-list is the set of live records; the counters agree with it. */
  ghost predicate Lists(regs: map<RegId, Reg>, registered: seq<RegId>, pending: int, refs: int, next: nat) {
    && NoDup(registered)
    && (forall r :: r in registered <==> r in regs)
    && pending == |registered|
    && refs == 1 + |registered|
    && (forall r :: r in regs ==> r < next && regs[r].refs == 2)
  }

  /** A record and its future's slot point at each other. */
  ghost predicate Slots(regs: map<RegId, Reg>, slot: map<FutureId, RegId>) {
    && (forall r :: r in regs ==> regs[r].future in slot && slot[regs[r].future] == r)
    && (forall f :: f in slot ==> slot[f] in regs && regs[slot[f]].future == f)
  }

  /** One pin for each registered future and one for each collected one. */
  ghost predicate Pins(slot: map<FutureId, RegId>, pins: multiset<FutureId>, loose: seq<Item>, held: seq<Item>) {
    && (forall i :: 0 <= i < |loose| ==> loose[i].future !in slot)
    && NoDup(ItemFutures(loose))
    && pins == multiset(slot.Keys) + multiset(ItemFutures(held))
  }

  /** A record that won its compare-and-swap is in exactly one place. */
  ghost predicate Queues(regs: map<RegId, Reg>, queue: seq<RegId>, appending: set<RegId>,
                         pushing: Option<RegId>) {
    && NoDup(queue)
    && (forall r :: r in queue ==> r in regs && regs[r].enqueued && r !in appending && Some(r) != pushing)
    && (forall r :: r in appending ==> r in regs && regs[r].enqueued && Some(r) != pushing)
    && (pushing.Some? ==> pushing.value in regs && regs[pushing.value].enqueued)
    && (forall r :: r in regs && regs[r].enqueued ==> r in queue || r in appending || Some(r) == pushing)
  }

  /** An accepted callback still has its record, and nobody can see its future ready. */
  ghost predicate Armed(regs: map<RegId, Reg>, armed: map<FutureId, RegId>, visible: set<FutureId>,
                        values: set<FutureId>) {
    forall f :: f in armed ==>
      && armed[f] in regs && regs[armed[f]].future == f && !regs[armed[f]].enqueued
      && f !in visible && f !in values
  }

  /** A record that has not won its compare-and-swap still has a callback coming. */
  ghost predicate Awaiting(regs: map<RegId, Reg>, armed: map<FutureId, RegId>, adding: Option<RegId>) {
    forall r :: r in regs && !regs[r].enqueued && Some(r) != adding ==> regs[r].future in armed
  }

  /** What add() has established about the record it works on. */
  ghost predicate AddState(regs: map<RegId, Reg>, armed: map<FutureId, RegId>, visible: set<FutureId>,
                           values: set<FutureId>, php: Php) {
    match php
    case AddCreated(r) => r in regs && !regs[r].enqueued && regs[r].future !in armed
    case AddDecide(r, accepted) =>
      && r in regs && regs[r].future !in values
      && (!accepted ==> !regs[r].enqueued && regs[r].future !in armed)
      && (accepted && !regs[r].enqueued ==> regs[r].future in visible || regs[r].future in armed)
    case AddEnqueue(r, inCallback) =>
      && r in regs && (regs[r].future in values || regs[r].future in visible)
      && (inCallback ==> regs[r].future !in values)
    case AddAppend(r, inCallback) =>
      && r in regs && (regs[r].future in values || regs[r].future in visible)
      && (inCallback ==> regs[r].future !in values)
    case _ => true
  }

  /** Each ticket is in one place, and that place holds it. */
  ghost predicate Ledger(regs: map<RegId, Reg>, places: map<Ticket, Where>, next: nat, loose: seq<Ticket>) {
    && (forall t: Ticket :: t in places <==> t < next)
    && (forall r :: r in regs ==> regs[r].ticket in places && places[regs[r].ticket] == Live(r))
    && (forall t :: t in places && places[t].Live? ==> places[t].r in regs && regs[places[t].r].ticket == t)
    && (forall t :: t in places && places[t].Collected? ==> t in loose)
    && (forall t :: t in loose ==> t in places && places[t].Collected?)
  }

  /** Undelivered tickets stand in append order, whoever holds them. */
  ghost predicate Order(log: seq<Ticket>, done: set<Ticket>, line: seq<Ticket>) {
    NoDup(log) && (forall t :: t in done ==> t in log) && line == Without(log, done)
  }

  /** A ticket is logged from the moment its record is appended. */
  ghost predicate Logged(regs: map<RegId, Reg>, queue: seq<RegId>, log: seq<Ticket>, places: map<Ticket, Where>) {
    && (forall t :: t in log ==> t in places)
    && (forall r :: r in regs ==> (regs[r].ticket in log <==> r in queue))
  }

  /** A non-empty ready-list is announced, or is about to be by the lock holder. */
  ghost predicate Wakeup(ready: seq<RegId>, fd: nat, lock: Option<RegId>, draining: bool) {
    && (lock.Some? ==> ready != [])
    && (draining || ready == [] || fd > 0 || lock.Some?)
  }

  /** The running poll took a prefix of what it spliced, within its limit. */
  ghost predicate Batch(regs: map<RegId, Reg>, php: Php) {
    && (php.Reclaiming? ==> |php.head| <= |php.all|)
    && (php.Consuming? ==>
      && php.taken <= |php.spliced|
      && (forall r :: r in php.batch ==> r in regs)
      && (php.batch == [] || TicketsIn(regs, php.batch) == php.spliced[php.taken..])
      && (php.batch == [] ==> php.taken == |php.spliced| || php.thrown || CapReached(php))
      && (php.mode.Deliver? && php.mode.limit != 0 ==> php.taken <= php.mode.limit)
      && (php.mode.Discard? ==> php.out == [] && !php.thrown))
  }

  /** A reset drains only once every registered future has resolved. */
  ghost predicate Waited(regs: map<RegId, Reg>, visible: set<FutureId>, values: set<FutureId>, php: Php) {
    (php.Draining? || php.Drained?) && php.mode.Discard? ==>
      forall r :: r in regs ==> regs[r].future in visible || regs[r].future in values
  }

  /** What the running consume loop took has been called, collected or discarded. */
  ghost predicate Taken(places: map<Ticket, Where>, php: Php) {
    php.Consuming? ==>
      forall i :: 0 <= i < php.taken <= |php.spliced| ==>
        && php.spliced[i] in places
        && (places[php.spliced[i]].Called? || places[php.spliced[i]].Collected? || places[php.spliced[i]].Discarded?)
  }

  ghost predicate Inv(s: State) {
    && !s.fault && s.strict
    && Lists(s.regs, s.registered, s.pending, s.reactorRefs, s.nextReg)
    && Slots(s.regs, s.slot)
    && Pins(s.slot, s.pins, Loose(s.php), Array(s.php))
    && Queues(s.regs, Queue(s), s.appending, Pushing(s.php))
    && Armed(s.regs, s.armed, s.visible, s.values)
    && Awaiting(s.regs, s.armed, Adding(s.php))
    && AddState(s.regs, s.armed, s.visible, s.values, s.php)
    && Ledger(s.regs, s.places, s.nextTicket, ItemTickets(Loose(s.php)))
    && Logged(s.regs, Queue(s), s.log, s.places)
    && Order(s.log, Done(s.places), Line(s.regs, Held(s.php), Loose(s.php), s.ready, s.php.Reclaiming?))
    && Wakeup(s.ready, s.fd, s.lock, s.php.Draining? || s.php.Drained?)
    && Batch(s.regs, s.php)
    && Taken(s.places, s.php)
    && Waited(s.regs, s.visible, s.values, s.php)
  }

  lemma InitInv(values: set<FutureId>)
    ensures Inv(Init(values, true))
  {
  }

  // ---- quiet steps ---------------------------------------------------------

  lemma IoSignalInv(s: State, s': State)
    requires Inv(s) && s.lock.Some? && s' == s.(fd := s.fd + 1, lock := None)
    ensures Inv(s')
  {
  }

  lemma MakeVisibleInv(s: State, s': State, f: FutureId)
    requires Inv(s) && f !in s.armed && s' == s.(visible := s.visible + {f})
    ensures Inv(s')
  {
    hide Lists, Pins, Queues, Ledger, Logged, Order, Line, Batch, Taken;
  }

  /** Registering the callback of `r` moves its future into `armed`. */
  lemma ArmDriver(regs: map<RegId, Reg>, slot: map<FutureId, RegId>, armed: map<FutureId, RegId>,
                  visible: set<FutureId>, values: set<FutureId>, r: RegId)
    requires Slots(regs, slot) && Armed(regs, armed, visible, values) && Awaiting(regs, armed, Some(r))
    requires AddState(regs, armed, visible, values, AddCreated(r))
    requires regs[r].future !in visible && regs[r].future !in values
    ensures var armed' := armed[regs[r].future := r];
      && Armed(regs, armed', visible, values)
      && Awaiting(regs, armed', Some(r))
      && AddState(regs, armed', visible, values, AddDecide(r, true))
  {
  }

  lemma SetCallbackInv(s: State, reply: Reply)
    requires Inv(s) && Enabled(s, AddSetCallback(reply))
    ensures Inv(SetCallback(s, reply))
  {
    hide Lists, Slots, Pins, Queues, Ledger, Logged, Order, Line, Armed, Awaiting, Wakeup;
    var r := s.php.r;
    if reply == Accepted && s.regs[r].future !in s.visible {
      ArmDriver(s.regs, s.slot, s.armed, s.visible, s.values, r);
    }
  }

  /** A program point that holds no records. */
  predicate Quiet(p: Php) { p.Idle? || p.Resetting? || p.Draining? || p.Drained? }

  /** Moving between program points that hold no records changes nothing else. */
  lemma MoveInv(s: State, s': State)
    requires Inv(s) && s' == s.(php := s'.php, fd := s'.fd)
    requires Quiet(s.php) || (s.php.Consuming? && s.php.mode.Discard? && s.php.batch == [])
    requires Quiet(s'.php)
    requires Wakeup(s'.ready, s'.fd, s'.lock, s'.php.Draining? || s'.php.Drained?)
    requires Waited(s.regs, s.visible, s.values, s'.php)
    ensures Inv(s')
  {
    hide Waited;
    hide Lists, Slots, Pins, Queues, Ledger, Logged, Order, Line, Armed, Awaiting, Wakeup;
  }

  lemma NotifierInv(s: State, s': State)
    requires Inv(s) && s' == s.(notified := s'.notified, spent := s'.spent)
    ensures Inv(s')
  {
    hide Lists, Slots, Pins, Queues, Ledger, Logged, Order, Line, Armed, Awaiting, AddState, Wakeup, Batch, Taken, Waited;
  }

  lemma SkipCallbackInv(s: State, s': State)
    requires Inv(s) && s.php.AddCreated? && s.regs[s.php.r].future in s.values
    requires s' == s.(php := AddEnqueue(s.php.r, false))
    ensures Inv(s')
  {
    hide Lists, Slots, Pins, Queues, Ledger, Logged, Order, Line, Armed, Awaiting;
  }

  // ---- compare-and-swap ----------------------------------------------------

  /** Same records up to the `enqueued` flag. */
  ghost predicate SameRegs(a: map<RegId, Reg>, b: map<RegId, Reg>) {
    && a.Keys == b.Keys
    && forall r :: r in a ==> b[r] == a[r].(enqueued := b[r].enqueued)
  }

  lemma TicketsSame(a: map<RegId, Reg>, b: map<RegId, Reg>, rs: seq<RegId>)
    requires forall r :: r in rs ==> r in a && r in b && a[r].ticket == b[r].ticket
    ensures TicketsIn(a, rs) == TicketsIn(b, rs)
  {
  }

  lemma SameRegsLists(a: map<RegId, Reg>, b: map<RegId, Reg>, registered: seq<RegId>, pending: int,
                      refs: int, next: nat, slot: map<FutureId, RegId>)
    requires SameRegs(a, b) && Lists(a, registered, pending, refs, next) && Slots(a, slot)
    ensures Lists(b, registered, pending, refs, next) && Slots(b, slot)
  {
    hide NoDup;
  }

  lemma SameRegsLedger(a: map<RegId, Reg>, b: map<RegId, Reg>, places: map<Ticket, Where>, next: nat,
                       loose: seq<Ticket>, queue: seq<RegId>, log: seq<Ticket>)
    requires SameRegs(a, b) && Ledger(a, places, next, loose) && Logged(a, queue, log, places)
    ensures Ledger(b, places, next, loose) && Logged(b, queue, log, places)
  {
  }

  lemma SameRegsLine(a: map<RegId, Reg>, b: map<RegId, Reg>, held: seq<RegId>, loose: seq<Item>,
                     ready: seq<RegId>, reclaiming: bool)
    requires SameRegs(a, b) && forall r :: r in held + ready ==> r in a
    ensures Line(a, held, loose, ready, reclaiming) == Line(b, held, loose, ready, reclaiming)
  {
    forall r | r in held || r in ready ensures r in a { assert r in held + ready; }
    TicketsSame(a, b, held);
    TicketsSame(a, b, ready);
  }

  lemma SameRegsBatch(a: map<RegId, Reg>, b: map<RegId, Reg>, php: Php)
    requires SameRegs(a, b) && Batch(a, php)
    ensures Batch(b, php)
  {
    if php.Consuming? { TicketsSame(a, b, php.batch); }
  }

  lemma QueueLive(s: State)
    requires Inv(s)
    ensures forall r :: r in Held(s.php) + s.ready ==> r in s.regs
  {
    hide Lists, Slots, Pins, Ledger, Logged, Order, Line, Armed, Awaiting, AddState, Wakeup, Batch, Taken, Waited, NoDup;
  }

  lemma SameRegsInv(s: State, regs: map<RegId, Reg>)
    requires Inv(s) && SameRegs(s.regs, regs)
    ensures Lists(regs, s.registered, s.pending, s.reactorRefs, s.nextReg)
    ensures Slots(regs, s.slot)
    ensures Ledger(regs, s.places, s.nextTicket, ItemTickets(Loose(s.php)))
    ensures Logged(regs, Queue(s), s.log, s.places)
    ensures Batch(regs, s.php)
    ensures forall r :: r in Queue(s) ==> r in regs
    ensures Line(regs, Held(s.php), Loose(s.php), s.ready, s.php.Reclaiming?)
         == Line(s.regs, Held(s.php), Loose(s.php), s.ready, s.php.Reclaiming?)
  {
    hide Lists, Slots, Pins, Queues, Ledger, Logged, Order, Line, Armed, Awaiting, AddState, Wakeup, Batch, Taken, Waited;
    QueueLive(s);
    SameRegsLists(s.regs, regs, s.registered, s.pending, s.reactorRefs, s.nextReg, s.slot);
    SameRegsLedger(s.regs, regs, s.places, s.nextTicket, ItemTickets(Loose(s.php)), Queue(s), s.log);
    SameRegsLine(s.regs, regs, Held(s.php), Loose(s.php), s.ready, s.php.Reclaiming?);
    SameRegsBatch(s.regs, regs, s.php);
  }

  /** The winner of the compare-and-swap is an IO thread or add() itself. */
  lemma CasQueues(regs: map<RegId, Reg>, r: RegId, queue: seq<RegId>, appending: set<RegId>,
                  pushing: Option<RegId>, byAdd: bool)
    requires Queues(regs, queue, appending, pushing) && r in regs && !regs[r].enqueued
    requires byAdd ==> pushing.None?
    ensures Queues(regs[r := regs[r].(enqueued := true)], queue, if byAdd then appending else appending + {r},
                   if byAdd then Some(r) else pushing)
  {
    hide NoDup;
  }

  lemma CasDriver(regs: map<RegId, Reg>, r: RegId, slot: map<FutureId, RegId>, armed: map<FutureId, RegId>,
                  visible: set<FutureId>, values: set<FutureId>, php: Php)
    requires Slots(regs, slot) && Armed(regs, armed, visible, values) && r in regs && !regs[r].enqueued
    requires Awaiting(regs, armed, Adding(php)) && AddState(regs, armed, visible, values, php)
    requires regs[r].future in armed || php.AddEnqueue?
    ensures var regs' := regs[r := regs[r].(enqueued := true)];
      var armed' := armed - {regs[r].future};
      && SameRegs(regs, regs')
      && Armed(regs', armed', visible, values)
      && Awaiting(regs', armed', Adding(php))
      && AddState(regs', armed', visible, values, php)
  {
  }

  lemma CallbackInv(s: State, f: FutureId)
    requires Inv(s) && f in s.armed
    ensures Inv(RunCallback(s, f))
  {
    var r := s.armed[f];
    assert r in s.regs && !s.regs[r].enqueued && s.regs[r].future == f by {
      hide Lists, Slots, Pins, Queues, Ledger, Logged, Order, Line, Awaiting, AddState, Wakeup, Batch, Taken, Waited;
    }
    hide Lists, Slots, Pins, Queues, Ledger, Logged, Order, Line, Armed, Awaiting, AddState, Wakeup, Batch, Taken, Waited;
    CasDriver(s.regs, r, s.slot, s.armed, s.visible, s.values, s.php);
    CasQueues(s.regs, r, Queue(s), s.appending, Pushing(s.php), false);
    SameRegsInv(s, RunCallback(s, f).regs);
  }

  lemma CasInAddInv(s: State)
    requires Inv(s) && s.php.AddEnqueue?
    ensures Inv(CasInAdd(s))
  {
    hide Lists, Slots, Pins, Queues, Ledger, Logged, Order, Line, Armed, Awaiting;
    var r := s.php.r;
    assert r in s.regs;
    if !s.regs[r].enqueued {
      assert s.regs[r].future !in s.armed by { ArmedNotReady(s); }
      CasDriver(s.regs, r, s.slot, s.armed, s.visible, s.values, s.php);
      CasQueues(s.regs, r, Queue(s), s.appending, Pushing(s.php), true);
      assert s.armed - {s.regs[r].future} == s.armed;
      SameRegsInv(s, CasInAdd(s).regs);
    } else {
      AddDone(s.regs, s.armed, r);
    }
  }

  lemma ArmedNotReady(s: State)
    requires Inv(s)
    ensures forall f :: f in s.visible || f in s.values ==> f !in s.armed
  {
    hide Lists, Slots, Pins, Queues, Ledger, Logged, Order, Line, Awaiting, AddState, Wakeup, Batch, Taken, Waited;
  }

  /** An enqueued record no longer needs add(). */
  lemma AddDone(regs: map<RegId, Reg>, armed: map<FutureId, RegId>, r: RegId)
    requires Awaiting(regs, armed, Some(r)) && (r in regs ==> regs[r].enqueued || regs[r].future in armed)
    ensures Awaiting(regs, armed, None)
  {
  }

  // ---- append --------------------------------------------------------------

  lemma TicketsConcat(regs: map<RegId, Reg>, a: seq<RegId>, b: seq<RegId>)
    requires forall r :: r in a + b ==> r in regs
    ensures forall r :: r in a || r in b ==> r in regs
    ensures TicketsIn(regs, a + b) == TicketsIn(regs, a) + TicketsIn(regs, b)
  {
    forall r | r in a || r in b ensures r in regs { assert r in a + b; }
  }

  lemma AppendQueues(regs: map<RegId, Reg>, queue: seq<RegId>, appending: set<RegId>,
                     pushing: Option<RegId>, r: RegId)
    requires Queues(regs, queue, appending, pushing) && (r in appending || pushing == Some(r))
    ensures r in regs && r !in queue
    ensures Queues(regs, queue + [r], appending - {r}, if pushing == Some(r) then None else pushing)
  {
    assert NoDup([r]);
    NoDupConcat(queue, [r]);
    hide NoDup;
  }

  lemma AppendLogged(regs: map<RegId, Reg>, places: map<Ticket, Where>, next: nat, loose: seq<Ticket>,
                     queue: seq<RegId>, log: seq<Ticket>, r: RegId)
    requires Ledger(regs, places, next, loose) && Logged(regs, queue, log, places)
    requires r in regs && r !in queue
    ensures Logged(regs, queue + [r], log + [regs[r].ticket], places)
    ensures regs[r].ticket !in log && regs[r].ticket !in Done(places)
  {
  }

  lemma AppendOrder(log: seq<Ticket>, done: set<Ticket>, line: seq<Ticket>, t: Ticket)
    requires Order(log, done, line) && t !in log && t !in done
    ensures Order(log + [t], done, line + [t])
  {
    NoDupConcat(log, [t]);
    WithoutAppend(log, t, done);
  }

  lemma AppendLine(regs: map<RegId, Reg>, held: seq<RegId>, loose: seq<Item>, ready: seq<RegId>,
                   reclaiming: bool, r: RegId)
    requires r in regs && forall x :: x in held + ready ==> x in regs
    ensures forall x :: x in held + (ready + [r]) ==> x in regs
    ensures Line(regs, held, loose, ready + [r], reclaiming)
         == Line(regs, held, loose, ready, reclaiming) + [regs[r].ticket]
  {
    assert held + (ready + [r]) == (held + ready) + [r];
    TicketsConcat(regs, held, ready);
    TicketsConcat(regs, ready, [r]);
  }

  /** Appending keeps the records, the order and the ledger, whoever appends. */
  lemma AppendInv(s: State, r: RegId)
    requires Inv(s) && (r in s.appending || Pushing(s.php) == Some(r))
    ensures r in s.regs && forall x :: x in Held(s.php) + (s.ready + [r]) ==> x in s.regs
    ensures Queues(s.regs, Held(s.php) + (s.ready + [r]), s.appending - {r},
                   if Pushing(s.php) == Some(r) then None else Pushing(s.php))
    ensures Logged(s.regs, Held(s.php) + (s.ready + [r]), s.log + [s.regs[r].ticket], s.places)
    ensures Order(s.log + [s.regs[r].ticket], Done(s.places),
                  Line(s.regs, Held(s.php), Loose(s.php), s.ready + [r], s.php.Reclaiming?))
  {
    hide Lists, Slots, Pins, Queues, Ledger, Logged, Order, Line, Armed, Awaiting, AddState, Wakeup, Batch, Taken, Waited,
      Done, Held, Loose;
    QueueLive(s);
    AppendQueues(s.regs, Queue(s), s.appending, Pushing(s.php), r);
    AppendLogged(s.regs, s.places, s.nextTicket, ItemTickets(Loose(s.php)), Queue(s), s.log, r);
    AppendLine(s.regs, Held(s.php), Loose(s.php), s.ready, s.php.Reclaiming?, r);
    AppendOrder(s.log, Done(s.places), Line(s.regs, Held(s.php), Loose(s.php), s.ready, s.php.Reclaiming?),
                s.regs[r].ticket);
    assert Held(s.php) + (s.ready + [r]) == Queue(s) + [r];
  }

  lemma IoAppendInv(s: State, s': State, r: RegId)
    requires Inv(s) && r in s.appending && s.lock.None?
    requires s' == Append(s, r).(appending := s.appending - {r}, lock := Some(r))
    ensures Inv(s')
  {
    assert Pushing(s.php) != Some(r) by {
      hide Lists, Slots, Pins, Ledger, Logged, Order, Line, Armed, Awaiting, AddState, Wakeup, Batch, Taken, Waited;
    }
    hide Lists, Slots, Pins, Queues, Ledger, Logged, Order, Line, Armed, Awaiting, AddState, Batch, Taken, Waited, Done, Held, Loose;
    AppendInv(s, r);
  }

  lemma PushingLive(regs: map<RegId, Reg>, queue: seq<RegId>, appending: set<RegId>, r: RegId)
    requires Queues(regs, queue, appending, Some(r))
    ensures r in regs && regs[r].enqueued && appending - {r} == appending
  {
    hide NoDup;
  }

  lemma AddPushed(regs: map<RegId, Reg>, armed: map<FutureId, RegId>, visible: set<FutureId>,
                  values: set<FutureId>, php: Php)
    requires AddState(regs, armed, visible, values, php) && php.AddAppend? && regs[php.r].enqueued
    ensures AddState(regs, armed, visible, values, AfterPush(php))
    ensures Adding(AfterPush(php)) == if php.inCallback then Some(php.r) else None
  {
  }

  lemma AddPushParts(s: State, s': State)
    requires Inv(s) && s.php.AddAppend?
    requires s' == Append(s, s.php.r).(fd := s.fd + 1, php := AfterPush(s.php))
    ensures Queues(s'.regs, Queue(s'), s'.appending, Pushing(s'.php))
    ensures Logged(s'.regs, Queue(s'), s'.log, s'.places)
    ensures forall x :: x in Held(s'.php) + s'.ready ==> x in s'.regs
    ensures Order(s'.log, Done(s'.places), Line(s'.regs, Held(s'.php), Loose(s'.php), s'.ready, false))
    ensures Awaiting(s'.regs, s'.armed, Adding(s'.php))
    ensures AddState(s'.regs, s'.armed, s'.visible, s'.values, s'.php)
  {
    hide Lists, Slots, Pins, Queues, Ledger, Logged, Order, Line, Armed, Awaiting, AddState, Done, Wakeup, Batch,
      Taken, Waited;
    var r := s.php.r;
    PushingLive(s.regs, Queue(s), s.appending, r);
    AppendInv(s, r);
    AddDone(s.regs, s.armed, r);
    AddPushed(s.regs, s.armed, s.visible, s.values, s.php);
  }

  lemma AddPushInv(s: State, s': State)
    requires Inv(s) && s.php.AddAppend? && s.lock.None?
    requires s' == Append(s, s.php.r).(fd := s.fd + 1, php := AfterPush(s.php))
    ensures Inv(s')
  {
    hide Lists, Slots, Pins, Queues, Ledger, Logged, Order, Line, Armed, Awaiting, AddState, Done, Queue, ItemTickets;
    AddPushParts(s, s');
  }

  // ---- create and dispose --------------------------------------------------

  lemma CreateLists(regs: map<RegId, Reg>, registered: seq<RegId>, pending: int, refs: int, next: nat, reg: Reg)
    requires Lists(regs, registered, pending, refs, next) && reg.refs == 2
    ensures Lists(regs[next := reg], [next] + registered, pending + 1, refs + 1, next + 1)
    ensures next !in regs
  {
    assert next !in regs;
    NoDupConcat([next], registered);
    hide NoDup;
  }

  lemma CreateSlots(regs: map<RegId, Reg>, slot: map<FutureId, RegId>, next: nat, reg: Reg)
    requires Slots(regs, slot) && next !in regs && reg.future !in slot
    ensures Slots(regs[next := reg], slot[reg.future := next])
    ensures multiset(slot[reg.future := next].Keys) == multiset(slot.Keys) + multiset{reg.future}
  {
    assert slot[reg.future := next].Keys == slot.Keys + {reg.future};
  }

  lemma DisposeLists(regs: map<RegId, Reg>, registered: seq<RegId>, pending: int, refs: int, next: nat, r: RegId)
    requires Lists(regs, registered, pending, refs, next) && r in regs
    ensures Lists(regs - {r}, Remove(registered, r), pending - 1, refs - 1, next)
  {
    RemoveMembers(registered, r);
    hide NoDup, Remove;
  }

  lemma DisposeSlots(regs: map<RegId, Reg>, slot: map<FutureId, RegId>, r: RegId)
    requires Slots(regs, slot) && r in regs
    ensures Slots(regs - {r}, slot - {regs[r].future})
    ensures multiset(slot.Keys) == multiset((slot - {regs[r].future}).Keys) + multiset{regs[r].future}
  {
    var f := regs[r].future;
    assert slot.Keys == (slot - {f}).Keys + {f};
  }

  lemma CreateQueues(regs: map<RegId, Reg>, queue: seq<RegId>, appending: set<RegId>, next: nat, reg: Reg)
    requires Queues(regs, queue, appending, None) && next !in regs && !reg.enqueued
    ensures Queues(regs[next := reg], queue, appending, None)
  {
    hide NoDup;
  }

  lemma CreateDriver(regs: map<RegId, Reg>, slot: map<FutureId, RegId>, armed: map<FutureId, RegId>,
                     visible: set<FutureId>, values: set<FutureId>, next: nat, reg: Reg)
    requires Slots(regs, slot) && Armed(regs, armed, visible, values) && Awaiting(regs, armed, None)
    requires next !in regs && reg.future !in slot
    ensures reg.future !in armed
    ensures Armed(regs[next := reg], armed, visible, values)
    ensures Awaiting(regs[next := reg], armed, Some(next))
    ensures reg.enqueued ==> Awaiting(regs[next := reg], armed, None)
  {
  }

  lemma CreateLedger(regs: map<RegId, Reg>, places: map<Ticket, Where>, next: nat, loose: seq<Ticket>,
                     queue: seq<RegId>, log: seq<Ticket>, id: RegId, reg: Reg)
    requires Ledger(regs, places, next, loose) && Logged(regs, queue, log, places)
    requires id !in regs && id !in queue && reg.ticket == next
    ensures Ledger(regs[id := reg], places[next := Live(id)], next + 1, loose)
    ensures Logged(regs[id := reg], queue, log, places[next := Live(id)])
    ensures Done(places[next := Live(id)]) == Done(places)
  {
  }

  lemma CreateLine(regs: map<RegId, Reg>, held: seq<RegId>, loose: seq<Item>, ready: seq<RegId>,
                   reclaiming: bool, id: RegId, reg: Reg)
    requires id !in regs && forall r :: r in held + ready ==> r in regs
    ensures id !in held + ready
    ensures Line(regs[id := reg], held, loose, ready, reclaiming) == Line(regs, held, loose, ready, reclaiming)
  {
    forall r | r in held || r in ready ensures r in regs { assert r in held + ready; }
    TicketsSame(regs, regs[id := reg], held);
    TicketsSame(regs, regs[id := reg], ready);
  }

  lemma PinOne(slot: map<FutureId, RegId>, pins: multiset<FutureId>, f: FutureId, r: RegId)
    requires Pins(slot, pins, [], []) && f !in slot
    requires multiset(slot[f := r].Keys) == multiset(slot.Keys) + multiset{f}
    ensures Pins(slot[f := r], pins + multiset{f}, [], [])
  {
  }

  lemma AddCreateInv(s: State, s': State, f: FutureId, callback: bool)
    requires Inv(s) && s.php.Idle? && f !in s.slot
    requires s' == RegCreate(s, f, callback, false, s.nextTicket)
                   .(php := AddCreated(s.nextReg), nextTicket := s.nextTicket + 1)
    ensures Inv(s')
  {
    hide Lists, Slots, Pins, Queues, Ledger, Logged, Order, Line, Armed, Awaiting, Done;
    var reg := Reg(2, false, f, callback, s.nextTicket);
    QueueLive(s);
    CreateLists(s.regs, s.registered, s.pending, s.reactorRefs, s.nextReg, reg);
    CreateSlots(s.regs, s.slot, s.nextReg, reg);
    CreateQueues(s.regs, Queue(s), s.appending, s.nextReg, reg);
    CreateDriver(s.regs, s.slot, s.armed, s.visible, s.values, s.nextReg, reg);
    CreateLine(s.regs, [], [], s.ready, false, s.nextReg, reg);
    CreateLedger(s.regs, s.places, s.nextTicket, ItemTickets(Loose(s.php)), Queue(s), s.log, s.nextReg, reg);
    PinOne(s.slot, s.pins, f, s.nextReg);
  }

  /** The queue without a record that leaves it from the front, or was never in it. */
  ghost predicate Leaves(queue: seq<RegId>, rest: seq<RegId>, r: RegId) {
    (queue == [r] + rest) || (r !in queue && rest == queue)
  }

  lemma DisposeQueues(regs: map<RegId, Reg>, queue: seq<RegId>, rest: seq<RegId>, appending: set<RegId>, r: RegId)
    requires Queues(regs, queue, appending, None) && Leaves(queue, rest, r)
    requires r !in appending
    ensures Queues(regs - {r}, rest, appending, None)
    ensures r !in rest
  {
    if queue == [r] + rest { NoDupConcat([r], rest); }
    hide NoDup;
  }

  lemma DisposeDriver(regs: map<RegId, Reg>, slot: map<FutureId, RegId>, armed: map<FutureId, RegId>,
                      visible: set<FutureId>, values: set<FutureId>, r: RegId, adding: Option<RegId>)
    requires Slots(regs, slot) && Armed(regs, armed, visible, values) && Awaiting(regs, armed, adding)
    requires r in regs && (adding.None? || adding == Some(r))
    requires regs[r].enqueued || regs[r].future !in armed
    ensures Armed(regs - {r}, armed, visible, values)
    ensures Awaiting(regs - {r}, armed, None)
  {
  }

  lemma DisposeLogged(regs: map<RegId, Reg>, places: map<Ticket, Where>, next: nat, loose: seq<Ticket>,
                      queue: seq<RegId>, rest: seq<RegId>, log: seq<Ticket>, r: RegId, w: Where)
    requires Ledger(regs, places, next, loose) && Logged(regs, queue, log, places)
    requires r in regs && Leaves(queue, rest, r)
    ensures Logged(regs - {r}, rest, log, places[regs[r].ticket := w])
  {
    forall x | x in regs && x != r ensures x in queue <==> x in rest {}
  }

  lemma DisposeLedger(regs: map<RegId, Reg>, places: map<Ticket, Where>, next: nat, loose: seq<Ticket>,
                      r: RegId, w: Where)
    requires Ledger(regs, places, next, loose) && r in regs && !w.Live?
    ensures var t := regs[r].ticket;
      && t !in loose && t !in Done(places)
      && Ledger(regs - {r}, places[t := w], next, if w.Collected? then loose + [t] else loose)
      && Done(places[t := w]) == if Finished(w) then Done(places) + {t} else Done(places)
  {
  }

  lemma DisposeLine(regs: map<RegId, Reg>, rs: seq<RegId>, r: RegId)
    requires (forall x :: x in rs ==> x in regs) && r !in rs
    ensures forall x :: x in rs ==> x in regs - {r}
    ensures TicketsIn(regs - {r}, rs) == TicketsIn(regs, rs)
  {
    TicketsSame(regs, regs - {r}, rs);
  }

  /** Everything a disposed record leaves behind, apart from the pin and the order. */
  lemma DisposeInv(s: State, r: RegId, rest: seq<RegId>, w: Where)
    requires Inv(s) && r in s.regs && Leaves(Queue(s), rest, r) && !w.Live? && Pushing(s.php).None?
    requires Adding(s.php).None? || Adding(s.php) == Some(r)
    requires (s.regs[r].enqueued && r in Queue(s)) || (!s.regs[r].enqueued && s.regs[r].future !in s.armed)
    ensures var s' := RegDispose(s, r, w);
      && s' == s.(regs := s.regs - {r}, slot := s'.slot, pins := s'.pins, registered := s'.registered,
                  pending := s'.pending, reactorRefs := s'.reactorRefs, places := s'.places)
      && Lists(s'.regs, s'.registered, s'.pending, s'.reactorRefs, s'.nextReg)
      && Slots(s'.regs, s'.slot)
      && Queues(s'.regs, rest, s'.appending, None)
      && Armed(s'.regs, s'.armed, s'.visible, s'.values)
      && Awaiting(s'.regs, s'.armed, None)
      && Logged(s'.regs, rest, s'.log, s'.places)
      && r !in rest
  {
    assert r !in s.appending && s.regs[r].refs == 2 by {
      hide Slots, Pins, Ledger, Logged, Order, Line, Armed, Awaiting, AddState, Wakeup, Batch, Taken, Waited, NoDup;
    }
    hide Lists, Slots, Pins, Queues, Ledger, Logged, Order, Line, Armed, Awaiting, AddState, Wakeup, Batch, Taken, Waited, Done;
    DisposeLists(s.regs, s.registered, s.pending, s.reactorRefs, s.nextReg, r);
    DisposeSlots(s.regs, s.slot, r);
    DisposeQueues(s.regs, Queue(s), rest, s.appending, r);
    DisposeDriver(s.regs, s.slot, s.armed, s.visible, s.values, r, Adding(s.php));
    DisposeLogged(s.regs, s.places, s.nextTicket, ItemTickets(Loose(s.php)), Queue(s), rest, s.log, r, w);
  }

  lemma UnpinOne(slot: map<FutureId, RegId>, pins: multiset<FutureId>, loose: seq<Item>, f: FutureId)
    requires Pins(slot, pins, loose, loose) && f in slot
    requires multiset(slot.Keys) == multiset((slot - {f}).Keys) + multiset{f}
    ensures Pins(slot - {f}, pins - multiset{f}, loose, loose)
  {
  }

  lemma DisposeWholeLine(regs: map<RegId, Reg>, held: seq<RegId>, loose: seq<Item>, ready: seq<RegId>,
                         reclaiming: bool, r: RegId)
    requires (forall x :: x in held + ready ==> x in regs) && r !in held + ready
    ensures forall x :: x in held + ready ==> x in regs - {r}
    ensures Line(regs - {r}, held, loose, ready, reclaiming) == Line(regs, held, loose, ready, reclaiming)
  {
    TicketsConcat(regs, held, ready);
    forall x | x in held || x in ready ensures x != r { assert x in held + ready; }
    DisposeLine(regs, held, r);
    DisposeLine(regs, ready, r);
  }

  lemma UnqueuedLive(regs: map<RegId, Reg>, queue: seq<RegId>, appending: set<RegId>, r: RegId)
    requires Queues(regs, queue, appending, None) && r in regs && !regs[r].enqueued
    ensures r !in queue
  {
    hide NoDup;
  }

  lemma RollBackInv(s: State)
    requires Inv(s) && s.php.AddDecide? && !s.php.accepted
    requires s.php.r in s.regs && !s.regs[s.php.r].enqueued && s.regs[s.php.r].future !in s.armed
    ensures Inv(RegDispose(s, s.php.r, Withdrawn).(php := Idle))
  {
    hide Lists, Slots, Pins, Queues, Ledger, Logged, Order, Line, Armed, Awaiting, Done, RegDispose;
    var r := s.php.r;
    QueueLive(s);
    UnqueuedLive(s.regs, Queue(s), s.appending, r);
    DisposeInv(s, r, Queue(s), Withdrawn);
    DisposeRest(s, r, Withdrawn);
    DisposeWholeLine(s.regs, [], [], s.ready, false, r);
    SlotKnown(s.regs, s.slot, r);
    UnpinOne(s.slot, s.pins, [], s.regs[r].future);
  }

  /** The slot, pin and ledger entries of a disposed record. */
  lemma DisposeRest(s: State, r: RegId, w: Where)
    requires Inv(s) && r in s.regs && !w.Live?
    ensures var s' := RegDispose(s, r, w);
      var loose := ItemTickets(Loose(s.php));
      var t := s.regs[r].ticket;
      && s'.slot == s.slot - {s.regs[r].future}
      && s'.places == s.places[t := w]
      && s'.pins == (if w.Collected? then s.pins else s.pins - multiset{s.regs[r].future})
      && multiset(s.slot.Keys) == multiset(s'.slot.Keys) + multiset{s.regs[r].future}
      && t !in Done(s.places)
      && Ledger(s.regs - {r}, s'.places, s.nextTicket, if w.Collected? then loose + [t] else loose)
      && Done(s'.places) == (if Finished(w) then Done(s.places) + {t} else Done(s.places))
  {
    hide Lists, Slots, Pins, Queues, Ledger, Logged, Order, Line, Armed, Awaiting, AddState, Wakeup, Batch, Taken, Waited, Done;
    DisposeSlots(s.regs, s.slot, r);
    DisposeLedger(s.regs, s.places, s.nextTicket, ItemTickets(Loose(s.php)), r, w);
  }

  lemma RecheckInv(s: State)
    requires Inv(s) && s.php.AddDecide?
    ensures Inv(Recheck(s))
  {
    hide Lists, Slots, Pins, Queues, Ledger, Logged, Order, Line, Armed, Awaiting, Done, RegDispose;
    var r := s.php.r;
    assert r in s.regs;
    if s.regs[r].future !in s.visible {
      if s.php.accepted {
        AddDone(s.regs, s.armed, r);
      } else {
        RollBackInv(s);
      }
    }
  }

  lemma SlotKnown(regs: map<RegId, Reg>, slot: map<FutureId, RegId>, r: RegId)
    requires Slots(regs, slot) && r in regs
    ensures regs[r].future in slot && slot[regs[r].future] == r
  {
  }

  // ---- consume -------------------------------------------------------------

  lemma ConsumeOrder(log: seq<Ticket>, done: set<Ticket>, a: seq<Ticket>, t: Ticket, b: seq<Ticket>)
    requires Order(log, done, a + [t] + b)
    ensures Order(log, done + {t}, a + b)
  {
    WithoutBlock(log, done, a, [t], b, {t});
    WithoutMembers(log, done);
    assert t in a + [t] + b;
  }

  /** The head of the batch stands right behind the collected futures. */
  lemma ConsumeLine(regs: map<RegId, Reg>, batch: seq<RegId>, out: seq<Item>, ready: seq<RegId>)
    returns (before: seq<Ticket>, after: seq<Ticket>)
    requires batch != [] && batch[0] in regs && (forall x :: x in batch + ready ==> x in regs)
    requires batch[0] !in batch[1..] + ready
    ensures forall x :: x in batch[1..] + ready ==> x in regs - {batch[0]}
    ensures var r := batch[0];
      var t := regs[r].ticket;
      && Line(regs, batch, out, ready, false) == before + [t] + after
      && Line(regs - {r}, batch[1..], out, ready, false) == before + after
      && Line(regs - {r}, batch[1..], out + [Item(regs[r].future, t)], ready, false) == before + [t] + after
  {
    var r := batch[0];
    assert batch == [r] + batch[1..];
    TicketsConcat(regs, batch, ready);
    TicketsConcat(regs, [r], batch[1..]);
    forall x | x in batch[1..] || x in ready ensures x != r { assert x in batch[1..] + ready; }
    DisposeLine(regs, batch[1..], r);
    DisposeLine(regs, ready, r);
    before := ItemTickets(out);
    after := TicketsIn(regs, batch[1..]) + TicketsIn(regs, ready);
    assert ItemTickets(out + [Item(regs[r].future, regs[r].ticket)]) == before + [regs[r].ticket];
  }

  lemma CollectPin(slot: map<FutureId, RegId>, pins: multiset<FutureId>, out: seq<Item>, it: Item)
    requires Pins(slot, pins, out, out) && it.future in slot
    requires multiset(slot.Keys) == multiset((slot - {it.future}).Keys) + multiset{it.future}
    ensures Pins(slot - {it.future}, pins, out + [it], out + [it])
  {
    assert ItemFutures(out + [it]) == ItemFutures(out) + [it.future];
    assert NoDup([it.future]);
    NoDupConcat(ItemFutures(out), [it.future]);
  }

  lemma ConsumeBatch(regs: map<RegId, Reg>, php: Php, php': Php)
    requires Batch(regs, php) && php.Consuming? && php.batch != [] && !CapReached(php)
    requires php'.Consuming? && php'.mode == php.mode && php'.batch == php.batch[1..]
    requires php'.spliced == php.spliced && php'.taken == php.taken + 1
    requires php.mode.Discard? ==> php'.out == php.out && !php'.thrown
    requires php.batch[0] !in php.batch[1..]
    ensures Batch(regs - {php.batch[0]}, php')
  {
    var rest := php.batch[1..];
    assert php.batch == [php.batch[0]] + rest;
    assert |php.spliced[php.taken..]| == |php.batch|;
    assert |TicketsIn(regs, php.batch)| == |php.batch|;
    TicketsConcat(regs, [php.batch[0]], rest);
    DisposeLine(regs, rest, php.batch[0]);
    assert TicketsIn(regs, php.batch)[1..] == TicketsIn(regs, rest);
  }

  /** The head of the batch is a live, enqueued record and leaves the rest in place. */
  lemma ConsumeHead(s: State)
    requires Inv(s) && s.php.Consuming? && s.php.batch != []
    ensures var r := s.php.batch[0];
      && r in s.regs && s.regs[r].enqueued && r in Queue(s)
      && Leaves(Queue(s), s.php.batch[1..] + s.ready, r)
      && s.regs[r].future in s.slot
      && (forall x :: x in s.php.batch + s.ready ==> x in s.regs)
  {
    hide Lists, Slots, Pins, Queues, Ledger, Logged, Order, Line, Armed, Awaiting, AddState, Wakeup, Batch, Taken, Waited;
    var r := s.php.batch[0];
    QueueLive(s);
    assert Queue(s) == [r] + (s.php.batch[1..] + s.ready);
    assert r in Queue(s);
    QueuedEnqueued(s.regs, Queue(s), s.appending, r);
    SlotKnown(s.regs, s.slot, r);
  }

  lemma ConsumeTaken(regs: map<RegId, Reg>, places: map<Ticket, Where>, php: Php, php': Php, w: Where)
    requires Taken(places, php) && Batch(regs, php) && php.Consuming? && php.batch != []
    requires php'.Consuming? && php'.spliced == php.spliced && php'.taken == php.taken + 1
    requires w.Called? || w.Collected? || w.Discarded?
    ensures php.batch[0] in regs && Taken(places[regs[php.batch[0]].ticket := w], php')
  {
    assert php.spliced[php.taken..][0] == TicketsIn(regs, php.batch)[0];
  }

  /** How the head of the batch is dispatched. */
  function Dispatch(s: State, r: RegId): Where
    requires s.php.Consuming? && r in s.regs
  {
    if s.php.mode.Discard? then Discarded else if s.regs[r].hasCallback then Called else Collected
  }

  /** One turn of the consume loop, with the collected array spelled out. */
  ghost predicate Consumes(s: State, s': State, w: Where) {
    && s.php.Consuming? && s.php.batch != [] && !CapReached(s.php) && s.php.batch[0] in s.regs
    && w == Dispatch(s, s.php.batch[0])
    && s'.php.Consuming?
    && s'.php.out == (if w.Collected?
                      then s.php.out + [Item(s.regs[s.php.batch[0]].future, s.regs[s.php.batch[0]].ticket)]
                      else s.php.out)
    && (s.php.mode.Discard? ==> !s'.php.thrown)
    && s' == RegDispose(s, s.php.batch[0], w)
             .(php := s.php.(batch := s.php.batch[1..], taken := s.php.taken + 1, out := s'.php.out,
                             thrown := s'.php.thrown))
  }

  lemma ConsumeRecords(s: State, s': State, w: Where)
    requires Inv(s) && Consumes(s, s', w)
    ensures Lists(s'.regs, s'.registered, s'.pending, s'.reactorRefs, s'.nextReg)
    ensures Slots(s'.regs, s'.slot)
    ensures Queues(s'.regs, Queue(s'), s'.appending, Pushing(s'.php))
    ensures Armed(s'.regs, s'.armed, s'.visible, s'.values)
    ensures Awaiting(s'.regs, s'.armed, Adding(s'.php))
    ensures Logged(s'.regs, Queue(s'), s'.log, s'.places)
    ensures !s'.fault && s'.strict
  {
    hide Lists, Slots, Pins, Queues, Ledger, Logged, Order, Line, Armed, Awaiting, AddState, Wakeup, Batch, Taken,
      Waited, Done, RegDispose;
    ConsumeHead(s);
    DisposeInv(s, s.php.batch[0], s.php.batch[1..] + s.ready, w);
  }

  lemma ConsumeHistory(s: State, s': State, w: Where)
    requires Inv(s) && Consumes(s, s', w)
    ensures forall x :: x in Held(s'.php) + s'.ready ==> x in s'.regs
    ensures Ledger(s'.regs, s'.places, s'.nextTicket, ItemTickets(Loose(s'.php)))
    ensures Order(s'.log, Done(s'.places), Line(s'.regs, Held(s'.php), Loose(s'.php), s'.ready, false))
  {
    hide Lists, Slots, Pins, Queues, Ledger, Logged, Order, Line, Armed, Awaiting, AddState, Wakeup, Batch, Taken,
      Waited, Done, RegDispose;
    var r := s.php.batch[0];
    var t := s.regs[r].ticket;
    ConsumeHead(s);
    DisposeInv(s, r, s.php.batch[1..] + s.ready, w);
    DisposeRest(s, r, w);
    var before, after := ConsumeLine(s.regs, s.php.batch, s.php.out, s.ready);
    if w.Collected? {
      assert ItemTickets(s'.php.out) == ItemTickets(s.php.out) + [t];
    } else {
      ConsumeOrder(s.log, Done(s.places), before, t, after);
    }
  }

  lemma ConsumeLoop(s: State, s': State, w: Where)
    requires Inv(s) && Consumes(s, s', w)
    ensures Pins(s'.slot, s'.pins, Loose(s'.php), Array(s'.php))
    ensures Batch(s'.regs, s'.php)
    ensures Taken(s'.places, s'.php)
  {
    hide Lists, Slots, Pins, Queues, Ledger, Logged, Order, Line, Armed, Awaiting, AddState, Wakeup, Batch, Taken,
      Waited, Done, RegDispose;
    var r := s.php.batch[0];
    ConsumeHead(s);
    DisposeInv(s, r, s.php.batch[1..] + s.ready, w);
    DisposeRest(s, r, w);
    ConsumeBatch(s.regs, s.php, s'.php);
    ConsumeTaken(s.regs, s.places, s.php, s'.php, w);
    if w.Collected? {
      CollectPin(s.slot, s.pins, s.php.out, Item(s.regs[r].future, s.regs[r].ticket));
    } else {
      UnpinOne(s.slot, s.pins, s.php.out, s.regs[r].future);
    }
  }

  lemma ConsumesInv(s: State, s': State, w: Where)
    requires Inv(s) && Consumes(s, s', w)
    ensures Inv(s')
  {
    hide Lists, Slots, Pins, Queues, Ledger, Logged, Order, Line, Armed, Awaiting, Batch, Taken, Done, Queue,
      ItemTickets;
    ConsumeRecords(s, s', w);
    ConsumeHistory(s, s', w);
    ConsumeLoop(s, s', w);
  }

  lemma ConsumeInv(s: State, throws: bool)
    requires Inv(s) && s.php.Consuming? && s.php.batch != [] && !s.php.thrown && !CapReached(s.php)
    ensures Inv(Consume(s, throws))
  {
    hide Inv, RegDispose;
    ConsumeHead(s);
    ConsumesInv(s, Consume(s, throws), Dispatch(s, s.php.batch[0]));
  }

  lemma QueuedEnqueued(regs: map<RegId, Reg>, queue: seq<RegId>, appending: set<RegId>, r: RegId)
    requires Queues(regs, queue, appending, None) && r in queue
    ensures r in regs && regs[r].enqueued
  {
    hide NoDup;
  }

  // ---- splice, put back, hand over, reclaim --------------------------------

  lemma TicketsAgree(s: State, rs: seq<RegId>)
    requires forall r :: r in rs ==> r in s.regs
    ensures Tickets(s, rs) == TicketsIn(s.regs, rs)
  {
  }

  lemma SpliceInv(s: State)
    requires Inv(s) && s.php.Drained? && s.lock.None?
    ensures Inv(SpliceReady(s))
  {
    hide Lists, Slots, Pins, Queues, Ledger, Logged, Order, Armed, Awaiting, Done;
    QueueLive(s);
    assert Held(s.php) + s.ready == s.ready == s.ready + [];
    TicketsAgree(s, s.ready);
    var ts := TicketsIn(s.regs, s.ready);
    assert ItemTickets([]) + ts + TicketsIn(s.regs, []) == ItemTickets([]) + TicketsIn(s.regs, []) + ts;
    assert |ts| == |s.ready| && ts == ts[0..];
  }

  lemma PutBackLine(s: State)
    requires s.php.Consuming? && forall r :: r in Queue(s) ==> r in s.regs
    ensures Queue(PutBack(s)) == Queue(s) && (forall r :: r in [] + PutBack(s).ready ==> r in s.regs)
    ensures Line(s.regs, [], s.php.out, PutBack(s).ready, false) == Line(s.regs, s.php.batch, s.php.out, s.ready, false)
  {
    assert [] + (s.php.batch + s.ready) == s.php.batch + s.ready;
    TicketsConcat(s.regs, s.php.batch, s.ready);
    var a, b, c := ItemTickets(s.php.out), TicketsIn(s.regs, s.php.batch), TicketsIn(s.regs, s.ready);
    assert a + b + c == a + TicketsIn(s.regs, []) + (b + c);
  }

  lemma PutBackInv(s: State)
    requires Inv(s) && s.php.Consuming? && s.php.batch != [] && (s.php.thrown || CapReached(s.php)) && s.lock.None?
    ensures Inv(PutBack(s))
  {
    hide Lists, Slots, Pins, Queues, Ledger, Logged, Order, Armed, Awaiting, Done, Line;
    QueueLive(s);
    PutBackLine(s);
  }

  lemma SettleLedger(regs: map<RegId, Reg>, places: map<Ticket, Where>, next: nat, out: seq<Item>,
                     queue: seq<RegId>, log: seq<Ticket>)
    requires Ledger(regs, places, next, ItemTickets(out)) && Logged(regs, queue, log, places)
    ensures Ledger(regs, Settle(places, out), next, ItemTickets([]))
    ensures Logged(regs, queue, log, Settle(places, out))
    ensures Done(Settle(places, out)) == Done(places) + (set t | t in ItemTickets(out))
  {
  }

  lemma SettleOrder(log: seq<Ticket>, done: set<Ticket>, out: seq<Ticket>, rest: seq<Ticket>)
    requires Order(log, done, out + rest)
    ensures Order(log, done + (set t | t in out), rest)
  {
    assert [] + out + rest == out + rest;
    WithoutBlock(log, done, [], out, rest, set t | t in out);
    WithoutMembers(log, done);
    forall t | t in out ensures t in log { assert t in out + rest; }
    assert [] + rest == rest;
  }

  lemma ReleasePins(slot: map<FutureId, RegId>, pins: multiset<FutureId>, loose: seq<Item>, out: seq<Item>)
    requires Pins(slot, pins, loose, out)
    ensures Pins(slot, pins - multiset(ItemFutures(out)), [], [])
  {
  }

  lemma HandOverInv(s: State)
    requires Inv(s) && s.php.Consuming? && s.php.mode.Deliver? && s.php.batch == []
    ensures Inv(HandOver(s))
  {
    hide Lists, Slots, Pins, Queues, Ledger, Logged, Order, Armed, Awaiting, Done, Settle;
    QueueLive(s);
    assert Held(s.php) == [];
    SettleLedger(s.regs, s.places, s.nextTicket, s.php.out, Queue(s), s.log);
    var ts, c := ItemTickets(s.php.out), TicketsIn(s.regs, s.ready);
    assert ts + TicketsIn(s.regs, []) + c == ts + c;
    SettleOrder(s.log, Done(s.places), ts, c);
    assert ItemTickets([]) + TicketsIn(s.regs, []) + c == c;
    ReleasePins(s.slot, s.pins, s.php.out, s.php.out);
  }

  lemma ReclaimStartInv(s: State, s': State)
    requires Inv(s) && s.php.Consuming? && s.php.batch == [] && s' == s.(php := Reclaiming([], s.php.out))
    ensures Inv(s')
  {
    hide Lists, Slots, Pins, Queues, Ledger, Logged, Order, Armed, Awaiting, Done;
    QueueLive(s);
    assert s.php.out[0..] == s.php.out;
    var a, c := ItemTickets(s.php.out), TicketsIn(s.regs, s.ready);
    assert a + TicketsIn(s.regs, []) + c == TicketsIn(s.regs, []) + a + c;
  }

  lemma PushReclaimedInv(s: State)
    requires Inv(s) && s.php.Reclaiming? && |s.php.head| >= |s.php.all| && s.lock.None?
    ensures Inv(PushReclaimed(s))
  {
    hide Lists, Slots, Pins, Queues, Ledger, Logged, Order, Armed, Awaiting, Done;
    QueueLive(s);
    assert Loose(s.php) == [];
    assert [] + (s.php.head + s.ready) == s.php.head + s.ready;
    TicketsConcat(s.regs, s.php.head, s.ready);
    var a, c := TicketsIn(s.regs, s.php.head), TicketsIn(s.regs, s.ready);
    assert a + ItemTickets([]) + c == ItemTickets([]) + TicketsIn(s.regs, []) + (a + c);
    ReleasePins(s.slot, s.pins, [], s.php.all);
  }

  lemma ReRegisterQueues(regs: map<RegId, Reg>, head: seq<RegId>, ready: seq<RegId>, appending: set<RegId>,
                         id: RegId, reg: Reg)
    requires Queues(regs, head + ready, appending, None) && id !in regs && reg.enqueued
    ensures Queues(regs[id := reg], (head + [id]) + ready, appending, None)
  {
    assert id !in head + ready;
    assert NoDup([id]);
    NoDupConcat(head, ready);
    NoDupConcat(head, [id]);
    NoDupConcat(head + [id], ready);
    hide NoDup;
  }

  lemma ReRegisterLedger(regs: map<RegId, Reg>, places: map<Ticket, Where>, next: nat, loose: seq<Item>,
                         queue: seq<RegId>, queue': seq<RegId>, log: seq<Ticket>, id: RegId, reg: Reg)
    requires Ledger(regs, places, next, ItemTickets(loose)) && Logged(regs, queue, log, places)
    requires loose != [] && reg.ticket == loose[0].ticket && NoDup(ItemTickets(loose)) && reg.ticket in log
    requires id !in regs && forall r :: r in queue' <==> r in queue || r == id
    ensures Ledger(regs[id := reg], places[reg.ticket := Live(id)], next, ItemTickets(loose[1..]))
    ensures Logged(regs[id := reg], queue', log, places[reg.ticket := Live(id)])
    ensures Done(places[reg.ticket := Live(id)]) == Done(places)
  {
    assert ItemTickets(loose) == [reg.ticket] + ItemTickets(loose[1..]);
    NoDupConcat([reg.ticket], ItemTickets(loose[1..]));
    assert reg.ticket in ItemTickets(loose);
  }

  lemma ReRegisterPins(slot: map<FutureId, RegId>, pins: multiset<FutureId>, loose: seq<Item>, all: seq<Item>, r: RegId)
    requires Pins(slot, pins, loose, all) && loose != []
    requires multiset(slot[loose[0].future := r].Keys) == multiset(slot.Keys) + multiset{loose[0].future}
    ensures Pins(slot[loose[0].future := r], pins + multiset{loose[0].future}, loose[1..], all)
  {
    assert ItemFutures(loose) == [loose[0].future] + ItemFutures(loose[1..]);
    NoDupConcat([loose[0].future], ItemFutures(loose[1..]));
    forall i | 0 <= i < |loose[1..]| ensures loose[1..][i].future != loose[0].future {
      assert ItemFutures(loose)[0] != ItemFutures(loose)[i + 1];
    }
  }

  /** The first loose future trades its place in the line for a record at the end of `head`. */
  lemma ReRegisterLine(regs: map<RegId, Reg>, head: seq<RegId>, loose: seq<Item>, ready: seq<RegId>,
                       id: RegId, reg: Reg)
    requires id !in regs && (forall r :: r in head + ready ==> r in regs)
    requires loose != [] && reg.ticket == loose[0].ticket
    ensures forall r :: r in (head + [id]) + ready ==> r in regs[id := reg]
    ensures Line(regs[id := reg], head + [id], loose[1..], ready, true) == Line(regs, head, loose, ready, true)
  {
    var regs' := regs[id := reg];
    TicketsConcat(regs, head, ready);
    TicketsSame(regs, regs', head);
    TicketsSame(regs, regs', ready);
    TicketsConcat(regs', head, [id]);
    assert ItemTickets(loose) == [reg.ticket] + ItemTickets(loose[1..]);
    assert TicketsIn(regs', [id]) == [reg.ticket];
  }

  /** Collected tickets are part of the line, so they are distinct and logged. */
  lemma LooseLogged(log: seq<Ticket>, done: set<Ticket>, a: seq<Ticket>, loose: seq<Ticket>, b: seq<Ticket>)
    requires Order(log, done, a + loose + b)
    ensures NoDup(loose) && forall t :: t in loose ==> t in log
  {
    WithoutMembers(log, done);
    NoDupConcat(a + loose, b);
    NoDupConcat(a, loose);
    forall t | t in loose ensures t in log { assert t in a + loose + b; }
  }

  lemma FirstLoose(s: State)
    requires Inv(s) && s.php.Reclaiming? && |s.php.head| < |s.php.all|
    ensures var loose := Loose(s.php);
      && loose == s.php.all[|s.php.head|..] && loose != []
      && NoDup(ItemTickets(loose)) && loose[0].ticket in s.log && loose[0].future !in s.slot
  {
    hide Lists, Slots, Queues, Ledger, Logged, Order, Armed, Awaiting, AddState, Wakeup, Batch, Taken, Waited, Done;
    QueueLive(s);
    LooseLogged(s.log, Done(s.places), TicketsIn(s.regs, s.php.head), ItemTickets(Loose(s.php)),
                TicketsIn(s.regs, s.ready));
    assert ItemTickets(Loose(s.php))[0] == Loose(s.php)[0].ticket;
  }

  lemma ReRegisterInv(s: State)
    requires Inv(s) && s.php.Reclaiming? && |s.php.head| < |s.php.all|
    ensures Inv(ReRegister(s))
  {
    hide Lists, Slots, Pins, Queues, Ledger, Logged, Order, Line, Armed, Awaiting, Done, NoDup;
    FirstLoose(s);
    QueueLive(s);
    var loose, id := Loose(s.php), s.nextReg;
    var reg := Reg(2, true, loose[0].future, false, loose[0].ticket);
    var head' := s.php.head + [id];
    assert s.php.all[|head'|..] == loose[1..];
    CreateLists(s.regs, s.registered, s.pending, s.reactorRefs, id, reg);
    CreateSlots(s.regs, s.slot, id, reg);
    ReRegisterQueues(s.regs, s.php.head, s.ready, s.appending, id, reg);
    CreateDriver(s.regs, s.slot, s.armed, s.visible, s.values, id, reg);
    ReRegisterLine(s.regs, s.php.head, loose, s.ready, id, reg);
    ReRegisterLedger(s.regs, s.places, s.nextTicket, loose, Queue(s), head' + s.ready, s.log, id, reg);
    ReRegisterPins(s.slot, s.pins, loose, s.php.all, id);
  }

  // ---- every step ----------------------------------------------------------

  lemma WakeupOf(s: State)
    requires Inv(s)
    ensures Wakeup(s.ready, s.fd, s.lock, s.php.Draining? || s.php.Drained?)
    ensures s.strict && Waited(s.regs, s.visible, s.values, s.php)
  {
    hide Lists, Slots, Pins, Queues, Ledger, Logged, Order, Line, Armed, Awaiting, Batch, Taken, Waited, Wakeup;
  }

  /** Nothing registered means nothing queued, in flight, slotted or pinned. */
  lemma NothingLeft(s: State)
    requires Inv(s) && s.registered == []
    ensures s.regs == map[] && Queue(s) == [] && s.ready == [] && s.appending == {} && s.lock.None?
    ensures s.slot == map[] && s.armed == map[]
    ensures Quiet(s.php) ==> s.pins == multiset{}
  {
    hide Ledger, Logged, Order, Line, Awaiting, AddState, Batch, Taken, Waited, NoDup;
    assert s.regs == map[];
    assert forall r :: r !in Queue(s);
    HeadIsMember(Queue(s));
    assert s.slot == map[] && s.armed == map[];
  }

  lemma ListedAll(s: State)
    requires Inv(s)
    ensures forall r :: r in s.regs ==> r in s.registered
  {
    hide Slots, Pins, Queues, Ledger, Logged, Order, Line, Armed, Awaiting, AddState, Wakeup, Batch, Taken, Waited, NoDup;
  }

  lemma IoStepInv(s: State, step: Step)
    requires Inv(s) && Enabled(s, step)
    requires step.IoCallback? || step.IoAppend? || step.IoSignal? || step.MakeVisible? || step.UseNotifier?
    ensures Inv(Apply(s, step))
  {
    hide Inv, RunCallback, Append;
    WakeupOf(s);
    var s' := Apply(s, step);
    match step
    case IoCallback(f) => CallbackInv(s, f);
    case IoAppend(r) => IoAppendInv(s, s', r);
    case IoSignal => IoSignalInv(s, s');
    case MakeVisible(f) => MakeVisibleInv(s, s', f);
    case UseNotifier(_, _) => NotifierInv(s, s');
  }

  lemma AddStepInv(s: State, step: Step)
    requires Inv(s) && Enabled(s, step)
    requires step.AddReject? || step.AddCreate? || step.AddSetCallback? || step.AddSkipCallback?
             || step.AddRecheck? || step.AddCas? || step.AddPush?
    ensures Inv(Apply(s, step))
  {
    hide Inv, RegCreate, SetCallback, Recheck, CasInAdd, Append;
    var s' := Apply(s, step);
    match step
    case AddReject(_) =>
    case AddCreate(f, callback) => AddCreateInv(s, s', f, callback);
    case AddSetCallback(reply) => SetCallbackInv(s, reply);
    case AddSkipCallback => SkipCallbackInv(s, s');
    case AddRecheck => RecheckInv(s);
    case AddCas => CasInAddInv(s);
    case AddPush => AddPushInv(s, s');
  }

  lemma DrainStepInv(s: State, step: Step)
    requires Inv(s) && Enabled(s, step)
    requires step.PollStart? || step.ResetStart? || step.ResetWait? || step.ResetAgain? || step.ResetDone?
             || step.DrainRead? || step.DrainEmpty?
    ensures Inv(Apply(s, step))
  {
    hide Inv;
    WakeupOf(s);
    if step.ResetDone? { NothingLeft(s); }
    if step.ResetWait? { ListedAll(s); }
    MoveInv(s, Apply(s, step));
  }

  lemma PollStepInv(s: State, step: Step)
    requires Inv(s) && Enabled(s, step)
    requires step.Splice? || step.ConsumeOne? || step.Requeue? || step.Return? || step.ReclaimStart?
             || step.ReclaimOne? || step.ReclaimPush?
    ensures Inv(Apply(s, step))
  {
    hide Inv, SpliceReady, Consume, PutBack, HandOver, ReRegister, PushReclaimed;
    match step
    case Splice => SpliceInv(s);
    case ConsumeOne(throws) => ConsumeInv(s, throws);
    case Requeue => PutBackInv(s);
    case Return => HandOverInv(s);
    case ReclaimStart => ReclaimStartInv(s, Apply(s, step));
    case ReclaimOne => ReRegisterInv(s);
    case ReclaimPush => PushReclaimedInv(s);
  }

  /** Every step of either thread keeps the invariant. */
  lemma StepInv(s: State, step: Step)
    requires Inv(s) && Enabled(s, step)
    ensures Inv(Apply(s, step))
  {
    hide Inv, Enabled, Apply;
    match step
    case IoCallback(_) => IoStepInv(s, step);
    case IoAppend(_) => IoStepInv(s, step);
    case IoSignal => IoStepInv(s, step);
    case MakeVisible(_) => IoStepInv(s, step);
    case UseNotifier(_, _) => IoStepInv(s, step);
    case PollStart(_) => DrainStepInv(s, step);
    case ResetStart => DrainStepInv(s, step);
    case ResetWait => DrainStepInv(s, step);
    case ResetAgain => DrainStepInv(s, step);
    case ResetDone => DrainStepInv(s, step);
    case DrainRead => DrainStepInv(s, step);
    case DrainEmpty => DrainStepInv(s, step);
    case Splice => PollStepInv(s, step);
    case ConsumeOne(_) => PollStepInv(s, step);
    case Requeue => PollStepInv(s, step);
    case Return => PollStepInv(s, step);
    case ReclaimStart => PollStepInv(s, step);
    case ReclaimOne => PollStepInv(s, step);
    case ReclaimPush => PollStepInv(s, step);
    case _ => AddStepInv(s, step);
  }
}

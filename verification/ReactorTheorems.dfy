/** Safety of the shared reactor over every interleaving of PHP and IO-thread steps. */
module ReactorTheorems {
  import opened Sequences
  import opened ReactorModel
  import opened ReactorInvariant

  /** Some run leads from `s` to `t`. */
  ghost predicate Reaches(s: State, t: State) {
    exists steps :: IsRun(s, steps) && t == RunFrom(s, steps)
  }

  /** Some run of a conforming driver leads from a fresh reactor to `s`. */
  ghost predicate Reachable(s: State) {
    exists values: set<FutureId> :: Reaches(Init(values, true), s)
  }

  lemma ReachesSelf(s: State)
    ensures Reaches(s, s)
  {
    assert IsRun(s, []) && s == RunFrom(s, []);
  }

  lemma ReachesNext(s: State, t: State, step: Step)
    requires Reaches(s, t) && Enabled(t, step)
    ensures Reaches(s, Apply(t, step))
  {
    hide Enabled, Apply;
    var steps :| IsRun(s, steps) && t == RunFrom(s, steps);
    RunSnoc(s, steps, step);
  }

  lemma {:induction false} RunInv(s: State, steps: seq<Step>)
    requires Inv(s) && IsRun(s, steps)
    ensures Inv(RunFrom(s, steps))
    decreases |steps|
  {
    hide Inv, Enabled, Apply;
    if steps != [] {
      StepInv(s, steps[0]);
      RunInv(Apply(s, steps[0]), steps[1..]);
    }
  }

  lemma ReachableInv(s: State)
    requires Reachable(s)
    ensures Inv(s)
  {
    hide Inv, Enabled, Apply, Init;
    var values: set<FutureId> :| Reaches(Init(values, true), s);
    var steps :| IsRun(Init(values, true), steps) && s == RunFrom(Init(values, true), steps);
    InitInv(values);
    RunInv(Init(values, true), steps);
  }

  // ---- exactly-once delivery -----------------------------------------------

  ghost predicate AwaitsCallback(s: State, t: Ticket) {
    exists r :: r in s.regs && s.regs[r].ticket == t && !s.regs[r].enqueued
  }

  ghost predicate BeingAppended(s: State, t: Ticket) {
    exists r :: r in s.regs && s.regs[r].ticket == t && (r in s.appending || Pushing(s.php) == Some(r))
  }

  ghost predicate InReadyList(s: State, t: Ticket) {
    exists r :: r in s.ready && r in s.regs && s.regs[r].ticket == t
  }

  /** Spliced by the running poll, or collected into the array it will return. */
  ghost predicate InPoll(s: State, t: Ticket) {
    || (exists r :: r in Held(s.php) && r in s.regs && s.regs[r].ticket == t)
    || t in ItemTickets(Loose(s.php))
  }

  /** Handed to userland, dropped by a reset, or withdrawn by an add() that threw. */
  ghost predicate Over(s: State, t: Ticket) {
    t in s.places && (Finished(s.places[t]) || s.places[t].Withdrawn?)
  }

  function Count(b: bool): nat { if b then 1 else 0 }

  /** A ticket with a live record is where that record is, and nowhere else. */
  lemma LivePlace(s: State, t: Ticket, r: RegId)
    requires Inv(s) && t in s.places && s.places[t] == Live(r)
    ensures r in s.regs && s.regs[r].ticket == t
    ensures forall x :: x in s.regs && s.regs[x].ticket == t ==> x == r
    ensures t !in ItemTickets(Loose(s.php))
    ensures r in Held(s.php) ==> r !in s.ready
    ensures r in Held(s.php) || r in s.ready ==> s.regs[r].enqueued && r !in s.appending && Pushing(s.php) != Some(r)
    ensures r in s.appending || Pushing(s.php) == Some(r) ==> s.regs[r].enqueued
    ensures s.regs[r].enqueued ==> r in Held(s.php) || r in s.ready || r in s.appending || Pushing(s.php) == Some(r)
  {
    hide Lists, Slots, Pins, Logged, Order, Line, Armed, Awaiting, AddState, Wakeup, Batch, Taken;
    NoDupConcat(Held(s.php), s.ready);
    hide NoDup;
    forall x | x in Held(s.php) || x in s.ready ensures x in Queue(s) {}
    forall x | x in Queue(s) ensures x in Held(s.php) || x in s.ready {}
  }

  lemma NoLivePlace(s: State, t: Ticket)
    requires Inv(s) && t in s.places && !s.places[t].Live?
    ensures forall x :: x in s.regs ==> s.regs[x].ticket != t
    ensures t in ItemTickets(Loose(s.php)) <==> s.places[t].Collected?
  {
    hide Lists, Slots, Pins, Queues, Logged, Order, Line, Armed, Awaiting, AddState, Wakeup, Batch, Taken;
  }

  lemma TicketIssued(s: State, t: Ticket)
    requires Inv(s) && t < s.nextTicket
    ensures t in s.places
  {
    hide Lists, Slots, Pins, Queues, Logged, Order, Line, Armed, Awaiting, AddState, Wakeup, Batch, Taken;
  }

  lemma LiveOnce(s: State, t: Ticket, r: RegId)
    requires Inv(s) && t in s.places && s.places[t] == Live(r)
    ensures Count(AwaitsCallback(s, t)) + Count(BeingAppended(s, t)) + Count(InReadyList(s, t)) + Count(InPoll(s, t)) == 1
  {
    hide Inv, ItemTickets;
    LivePlace(s, t, r);
  }

  lemma DeadOnce(s: State, t: Ticket)
    requires Inv(s) && t in s.places && !s.places[t].Live?
    ensures !AwaitsCallback(s, t) && !BeingAppended(s, t) && !InReadyList(s, t) && (InPoll(s, t) <==> s.places[t].Collected?)
  {
    hide Inv, ItemTickets;
    NoLivePlace(s, t);
  }

  /** In every reachable state each accepted add() is in exactly one place. */
  lemma ExactlyOnce(s: State, t: Ticket)
    requires Reachable(s) && t < s.nextTicket
    ensures Count(AwaitsCallback(s, t)) + Count(BeingAppended(s, t)) + Count(InReadyList(s, t))
          + Count(InPoll(s, t)) + Count(Over(s, t)) == 1
  {
    hide Inv, Reachable, AwaitsCallback, BeingAppended, InReadyList, InPoll;
    ReachableInv(s);
    TicketIssued(s, t);
    if s.places[t].Live? {
      LiveOnce(s, t, s.places[t].r);
    } else {
      DeadOnce(s, t);
    }
  }

  /** pending() is the length of the registered-list; both refcounts are exact. */
  lemma Counters(s: State)
    requires Reachable(s)
    ensures s.pending == |s.registered| == |s.regs|
    ensures s.reactorRefs == 1 + |s.regs|
    ensures forall r :: r in s.regs ==> s.regs[r].refs == 2
  {
    ReachableInv(s);
    hide Reachable, Slots, Pins, Queues, Ledger, Logged, Order, Line, Armed, Awaiting, AddState, Wakeup, Batch, Taken,
      Waited;
    DistinctSize(s.registered, s.regs.Keys);
  }

  lemma {:induction false} DistinctSize<T>(s: seq<T>, xs: set<T>)
    requires NoDup(s) && forall x :: x in s <==> x in xs
    ensures |s| == |xs|
  {
    if s == [] {
      assert xs == {};
    } else {
      assert s == [s[0]] + s[1..];
      NoDupConcat([s[0]], s[1..]);
      DistinctSize(s[1..], xs - {s[0]});
    }
  }

  // ---- no lost wakeup ------------------------------------------------------

  /**
   * Outside the drain-to-splice window of poll() and reset(), a non-empty ready-list
   * means a readable descriptor, unless the thread that just appended still holds the
   * lock and is about to signal.
   */
  lemma NoLostWakeup(s: State)
    requires Reachable(s) && s.ready != [] && !s.php.Draining? && !s.php.Drained?
    ensures s.fd > 0 || s.lock.Some?
    ensures s.lock.Some? ==> Enabled(s, IoSignal) && Apply(s, IoSignal).fd > 0
  {
    ReachableInv(s);
    WakeupOf(s);
  }

  // ---- order ---------------------------------------------------------------

  /** Appended, not yet handed over or dropped, in append order. */
  ghost function Outstanding(s: State): seq<Ticket> { Without(s.log, Done(s.places)) }

  /** Outside poll() the ready-list is everything outstanding, in append order. */
  lemma ReadyIsOutstanding(s: State)
    requires Reachable(s) && Held(s.php) == [] && Loose(s.php) == []
    ensures Tickets(s, s.ready) == Outstanding(s)
  {
    ReachableInv(s);
    hide Reachable, Lists, Slots, Pins, Queues, Ledger, Logged, Armed, Awaiting, AddState, Wakeup, Batch, Taken,
      Waited, Without, NoDup;
    QueueLive(s);
    assert s.ready == [] + s.ready;
    TicketsAgree(s, s.ready);
    assert Line(s.regs, Held(s.php), Loose(s.php), s.ready, s.php.Reclaiming?) == TicketsIn(s.regs, s.ready);
  }

  /** The record poll() takes next is the oldest append it has not taken yet. */
  lemma ConsumeIsFifo(s: State, throws: bool)
    requires Reachable(s) && Enabled(s, ConsumeOne(throws))
    ensures var k := |s.php.out|;
      && k < |Outstanding(s)|
      && ItemTickets(s.php.out) == Outstanding(s)[..k]
      && TicketOf(s, s.php.batch[0]) == Outstanding(s)[k]
  {
    hide Reachable, Lists, Slots, Pins, Queues, Ledger, Logged, Armed, Awaiting, AddState, Wakeup, Batch,
      Taken, Waited, Without, NoDup;
    ReachableInv(s);
    assert s.php.Consuming? && s.php.batch != [];
    QueueLive(s);
    ConsumeHead(s);
    var a, b, c := ItemTickets(s.php.out), TicketsIn(s.regs, s.php.batch), TicketsIn(s.regs, s.ready);
    assert Outstanding(s) == a + b + c;
    assert (a + b + c)[|a|] == b[0];
    assert (a + b + c)[..|a|] == a;
  }

  /** How many records a poll that no callback interrupts takes out of `n`. */
  function TakenBy(limit: nat, n: nat): nat {
    if limit == 0 || n <= limit then n else limit
  }

  /**
   * A poll that returns normally took the first `TakenBy` records of what it spliced,
   * delivered exactly those, and left the rest ready in order.
   */
  lemma PollReturns(s: State)
    requires Reachable(s) && Enabled(s, Return) && !s.php.thrown
    ensures s.php.taken == TakenBy(s.php.mode.limit, |s.php.spliced|)
    ensures var s' := Apply(s, Return);
      && (forall i :: 0 <= i < s.php.taken ==> s.php.spliced[i] in s'.places && Finished(s'.places[s.php.spliced[i]]))
      && Tickets(s', s'.ready) == Outstanding(s')
  {
    hide Reachable, Inv, Without, Outstanding, Tickets, Settle;
    assert s.php.Consuming? && s.php.mode.Deliver? && s.php.batch == [];
    assert Apply(s, Return) == HandOver(s);
    ReachableInv(s);
    PollTook(s);
    ReachableStep(s, Return);
    ReadyIsOutstanding(Apply(s, Return));
  }

  lemma PollTook(s: State)
    requires Inv(s) && s.php.Consuming? && s.php.mode.Deliver? && s.php.batch == [] && !s.php.thrown
    ensures s.php.taken == TakenBy(s.php.mode.limit, |s.php.spliced|)
    ensures forall i :: 0 <= i < s.php.taken ==>
      s.php.spliced[i] in HandOver(s).places && Finished(HandOver(s).places[s.php.spliced[i]])
  {
    hide Lists, Slots, Pins, Queues, Logged, Order, Line, Armed, Awaiting, AddState, Wakeup, Waited;
  }

  lemma {:induction false} RunSnoc(s: State, steps: seq<Step>, step: Step)
    requires IsRun(s, steps) && Enabled(RunFrom(s, steps), step)
    ensures IsRun(s, steps + [step]) && RunFrom(s, steps + [step]) == Apply(RunFrom(s, steps), step)
    decreases |steps|
  {
    hide Enabled, Apply;
    if steps == [] {
      assert steps + [step] == [step];
      assert [step][1..] == [];
    } else {
      RunSnoc(Apply(s, steps[0]), steps[1..], step);
      assert (steps + [step])[1..] == steps[1..] + [step];
    }
  }

  lemma ReachableStep(s: State, step: Step)
    requires Reachable(s) && Enabled(s, step)
    ensures Reachable(Apply(s, step))
  {
    hide Enabled, Apply, Init, Reaches;
    var values: set<FutureId> :| Reaches(Init(values, true), s);
    ReachesNext(Init(values, true), s, step);
  }

  // ---- what the driver threads leave alone ---------------------------------

  predicate ByDriver(step: Step) {
    step.IoCallback? || step.IoAppend? || step.IoSignal? || step.MakeVisible?
  }

  /** The part of the state only the PHP thread writes. */
  ghost predicate SamePhpView(a: State, b: State) {
    && a.registered == b.registered && a.pending == b.pending && a.reactorRefs == b.reactorRefs
    && a.slot == b.slot && a.pins == b.pins && a.php == b.php && a.values == b.values && a.places == b.places
    && a.nextReg == b.nextReg && a.nextTicket == b.nextTicket && SameRegs(a.regs, b.regs)
  }

  lemma CallbackFrame(s: State, f: FutureId)
    requires f in s.armed
    ensures SamePhpView(s, RunCallback(s, f)) && RunCallback(s, f).log == s.log
  {
  }

  lemma DriverStepFrame(s: State, step: Step)
    requires Enabled(s, step) && ByDriver(step)
    ensures SamePhpView(s, Apply(s, step)) && s.log <= Apply(s, step).log
  {
    if step.IoCallback? { CallbackFrame(s, step.f); }
    hide RunCallback;
  }

  lemma {:induction false} DriverRunFrame(s: State, steps: seq<Step>)
    requires IsRun(s, steps) && forall step :: step in steps ==> ByDriver(step)
    ensures SamePhpView(s, RunFrom(s, steps))
    decreases |steps|
  {
    hide Enabled, Apply;
    if steps != [] {
      assert ByDriver(steps[0]);
      DriverStepFrame(s, steps[0]);
      DriverRunFrame(Apply(s, steps[0]), steps[1..]);
    }
  }

  // ---- a throwing callback -------------------------------------------------

  /** poll() is on its way out after a callback threw. */
  predicate Unwinding(p: Php) { (p.Consuming? && p.mode.Deliver? && p.thrown) || p.Reclaiming? }

  /** `steps` are the steps of both threads until the throwing poll() is over. */
  ghost predicate UnwindsBy(s: State, steps: seq<Step>)
    decreases |steps|
  {
    if steps == [] then s.php.Idle?
    else Unwinding(s.php) && Enabled(s, steps[0]) && UnwindsBy(Apply(s, steps[0]), steps[1..])
  }

  lemma ReRegisterKeepsDone(s: State)
    requires Inv(s) && s.php.Reclaiming? && |s.php.head| < |s.php.all|
    ensures Done(ReRegister(s).places) == Done(s.places)
    ensures ReRegister(s).log == s.log && ReRegister(s).php.Reclaiming?
  {
    FirstLoose(s);
    hide Lists, Slots, Pins, Queues, Logged, Order, Line, Armed, Awaiting, AddState, Wakeup, Batch, Taken, Waited, NoDup;
    assert ItemTickets(Loose(s.php))[0] == Loose(s.php)[0].ticket;
    assert s.php.all[|s.php.head|] == Loose(s.php)[0];
  }

  lemma UnwindPhpStep(s: State, step: Step)
    requires Inv(s) && Unwinding(s.php) && Enabled(s, step) && !ByDriver(step)
    ensures var s' := Apply(s, step);
      Done(s'.places) == Done(s.places) && s'.log == s.log && (Unwinding(s'.php) || s'.php.Idle?)
  {
    hide Inv, Done, Settle, ReRegister;
    if step.ReclaimOne? { ReRegisterKeepsDone(s); }
    if step.Return? { SettleNothing(s.places); }
  }

  lemma SettleNothing(places: map<Ticket, Where>)
    ensures Settle(places, []) == places
  {
  }

  lemma UnwindStep(s: State, step: Step)
    requires Inv(s) && Unwinding(s.php) && Enabled(s, step)
    ensures var s' := Apply(s, step);
      Done(s'.places) == Done(s.places) && s.log <= s'.log && (Unwinding(s'.php) || s'.php.Idle?)
  {
    hide Inv, Enabled, Apply, Done;
    if ByDriver(step) {
      DriverStepFrame(s, step);
    } else {
      UnwindPhpStep(s, step);
    }
  }

  lemma {:induction false} UnwindRun(s: State, steps: seq<Step>)
    requires Inv(s) && UnwindsBy(s, steps)
    ensures IsRun(s, steps)
    ensures var s' := RunFrom(s, steps);
      s'.php.Idle? && Done(s'.places) == Done(s.places) && s.log <= s'.log
    decreases |steps|
  {
    hide Inv, Enabled, Apply, Done;
    if steps != [] {
      UnwindStep(s, steps[0]);
      StepInv(s, steps[0]);
      UnwindRun(Apply(s, steps[0]), steps[1..]);
    }
  }

  /**
   * After a callback throws, poll() leaves the ready-list holding exactly the futures it
   * had collected, then the records it had not reached, then what was or became ready
   * meanwhile: nothing lost, nothing twice, all in append order.
   */
  lemma ThrowRestoresOrder(s: State, steps: seq<Step>)
    requires Reachable(s) && s.php.Consuming? && s.php.mode.Deliver? && s.php.thrown && UnwindsBy(s, steps)
    ensures IsRun(s, steps)
    ensures var s' := RunFrom(s, steps);
      && s.log <= s'.log
      && Tickets(s', s'.ready)
         == ItemTickets(s.php.out) + Tickets(s, s.php.batch) + Tickets(s, s.ready) + s'.log[|s.log|..]
  {
    hide Reachable, Inv, Done, Without, UnwindsBy, IsRun, RunFrom, Tickets, ItemTickets;
    ReachableInv(s);
    UnwindRun(s, steps);
    ReachableRun(s, steps);
    var s' := RunFrom(s, steps);
    ReadyIsOutstanding(s');
    ReachableInv(s');
    LineNow(s);
    LogOf(s);
    LogOf(s');
    var ext := s'.log[|s.log|..];
    assert s'.log == s.log + ext;
    WithoutExtension(s.log, ext, Done(s.places));
  }

  lemma WithoutExtension(log: seq<Ticket>, ext: seq<Ticket>, done: set<Ticket>)
    requires NoDup(log + ext) && forall t :: t in done ==> t in log
    ensures Without(log + ext, done) == Without(log, done) + ext
  {
    NoDupConcat(log, ext);
    WithoutConcat(log, ext, done);
    WithoutNone(ext, done);
  }

  lemma LogOf(s: State)
    requires Inv(s)
    ensures NoDup(s.log) && forall t :: t in Done(s.places) ==> t in s.log
  {
    hide Lists, Slots, Pins, Queues, Ledger, Logged, Line, Armed, Awaiting, AddState, Wakeup, Batch, Taken, Waited, NoDup,
      Without;
  }

  lemma LineNow(s: State)
    requires Inv(s) && s.php.Consuming?
    ensures Outstanding(s) == ItemTickets(s.php.out) + Tickets(s, s.php.batch) + Tickets(s, s.ready)
  {
    hide Lists, Slots, Pins, Queues, Ledger, Logged, Armed, Awaiting, AddState, Wakeup, Batch, Taken, Waited, NoDup, Without;
    QueueLive(s);
    TicketsConcat(s.regs, s.php.batch, s.ready);
    TicketsAgree(s, s.php.batch);
    TicketsAgree(s, s.ready);
  }

  lemma {:induction false} ReachableRun(s: State, steps: seq<Step>)
    requires Reachable(s) && IsRun(s, steps)
    ensures Reachable(RunFrom(s, steps))
    decreases |steps|
  {
    hide Enabled, Apply, Reachable;
    if steps != [] {
      ReachableStep(s, steps[0]);
      ReachableRun(Apply(s, steps[0]), steps[1..]);
    }
  }

  // ---- an add() that throws ------------------------------------------------

  /** add() up to the point where the driver has refused the callback. */
  ghost predicate RefusedAdd(s: State, f: FutureId, callback: bool, io1: seq<Step>, io2: seq<Step>, s4: State) {
    && Enabled(s, AddCreate(f, callback)) && f !in s.values
    && var s1 := Apply(s, AddCreate(f, callback));
    && IsRun(s1, io1) && (forall step :: step in io1 ==> ByDriver(step))
    && var s2 := RunFrom(s1, io1);
    && Enabled(s2, AddSetCallback(Refused))
    && var s3 := Apply(s2, AddSetCallback(Refused));
    && IsRun(s3, io2) && (forall step :: step in io2 ==> ByDriver(step))
    && s4 == RunFrom(s3, io2)
  }

  /** What add() has done to the PHP thread's data once the record exists. */
  ghost predicate Opened(s: State, t: State, f: FutureId, callback: bool) {
    && t.registered == [s.nextReg] + s.registered && t.pending == s.pending + 1
    && t.reactorRefs == s.reactorRefs + 1
    && t.slot == s.slot[f := s.nextReg] && t.pins == s.pins + multiset{f}
    && t.places == s.places[s.nextTicket := Live(s.nextReg)]
    && t.regs.Keys == s.regs.Keys + {s.nextReg}
    && t.regs[s.nextReg].(enqueued := false) == Reg(2, false, f, callback, s.nextTicket)
  }

  lemma RefusedAddView(s: State, f: FutureId, callback: bool, io1: seq<Step>, io2: seq<Step>, s4: State)
    requires Reachable(s) && RefusedAdd(s, f, callback, io1, io2, s4)
    ensures f !in s.slot && s.nextReg !in s.regs && s4.php == AddDecide(s.nextReg, false)
    ensures Opened(s, s4, f, callback)
  {
    hide Inv, Enabled, Apply, IsRun, RunFrom, Reachable;
    ReachableInv(s);
    var s1 := Apply(s, AddCreate(f, callback));
    var s2 := RunFrom(s1, io1);
    var s3 := Apply(s2, AddSetCallback(Refused));
    DriverRunFrame(s1, io1);
    DriverRunFrame(s3, io2);
    StepInv(s, AddCreate(f, callback));
    RunInv(s1, io1);
    StepInv(s2, AddSetCallback(Refused));
    RunInv(s3, io2);
    AddOpens(s, f, callback);
    RefusalOnlyMoves(s2);
  }

  lemma AddOpens(s: State, f: FutureId, callback: bool)
    requires Inv(s) && Enabled(s, AddCreate(f, callback))
    ensures f !in s.slot && s.nextReg !in s.regs
    ensures Apply(s, AddCreate(f, callback)).php == AddCreated(s.nextReg)
    ensures Opened(s, Apply(s, AddCreate(f, callback)), f, callback)
  {
    hide Slots, Pins, Queues, Ledger, Logged, Order, Line, Armed, Awaiting, AddState, Wakeup, Batch, Taken, Waited, NoDup;
  }

  lemma RefusalOnlyMoves(s: State)
    requires Enabled(s, AddSetCallback(Refused))
    ensures Apply(s, AddSetCallback(Refused)) == s.(php := AddDecide(s.php.r, false))
  {
  }

  lemma DisposeUndoes(s: State, t: State, f: FutureId, callback: bool)
    requires Opened(s, t, f, callback) && f !in s.slot && s.nextReg !in s.regs
    ensures var u := RegDispose(t, s.nextReg, Withdrawn);
      && u.registered == s.registered && u.pending == s.pending && u.reactorRefs == s.reactorRefs
      && u.slot == s.slot && u.pins == s.pins && u.regs.Keys == s.regs.Keys
      && u.places == s.places[s.nextTicket := Withdrawn]
  {
    var id := s.nextReg;
    assert ([id] + s.registered)[1..] == s.registered;
    assert s.slot[f := id] - {f} == s.slot;
    assert (t.regs - {id}).Keys == s.regs.Keys;
  }

  /**
   * An add() whose callback the driver refuses on a still-pending future leaves the
   * lists, the counters, the slots and the pins as it found them, whatever the IO
   * threads did meanwhile.
   */
  lemma AddThatThrows(s: State, f: FutureId, callback: bool, io1: seq<Step>, io2: seq<Step>, s4: State)
    requires Reachable(s) && RefusedAdd(s, f, callback, io1, io2, s4) && f !in s4.visible
    ensures Enabled(s4, AddRecheck)
    ensures var s5 := Apply(s4, AddRecheck);
      && s5.registered == s.registered && s5.pending == s.pending && s5.reactorRefs == s.reactorRefs
      && s5.slot == s.slot && s5.pins == s.pins && s5.php == Idle && s5.regs.Keys == s.regs.Keys
      && s5.places == s.places[s.nextTicket := Withdrawn]
  {
    hide Reachable, RefusedAdd, RegDispose;
    RefusedAddView(s, f, callback, io1, io2, s4);
    DisposeUndoes(s, s4, f, callback);
  }

  // ---- reset drains --------------------------------------------------------

  predicate InReset(p: Php) {
    p.Resetting? || ((p.Draining? || p.Drained? || p.Consuming?) && p.mode.Discard?)
  }

  /** Appends and consumptions a reset still has to wait for. */
  ghost function Weight(s: State): int { 2 * |s.registered| - |Queue(s)| }

  function Work(step: Step): nat { if step.IoAppend? || step.ConsumeOne? then 1 else 0 }

  function TotalWork(steps: seq<Step>): nat {
    if steps == [] then 0 else Work(steps[0]) + TotalWork(steps[1..])
  }

  /** `steps` stay inside one reset. */
  ghost predicate ResetsBy(s: State, steps: seq<Step>)
    decreases |steps|
  {
    InReset(s.php) &&
    (steps == [] || (Enabled(s, steps[0]) && ResetsBy(Apply(s, steps[0]), steps[1..])))
  }

  lemma DriverStepWeight(s: State, step: Step)
    requires Enabled(s, step) && ByDriver(step)
    ensures Weight(Apply(s, step)) == Weight(s) - Work(step)
  {
    hide RunCallback;
    if step.IoCallback? { CallbackReady(s, step.f); }
  }

  lemma CallbackReady(s: State, f: FutureId)
    requires f in s.armed
    ensures var s' := RunCallback(s, f);
      s'.ready == s.ready && s'.php == s.php && s'.registered == s.registered
  {
  }

  lemma ConsumeWeight(s: State, throws: bool)
    requires Inv(s) && s.php.Consuming? && s.php.batch != [] && s.php.mode.Discard?
    ensures Weight(Consume(s, throws)) == Weight(s) - 1
  {
    hide Inv, Remove;
    ConsumeHead(s);
    RemoveListed(s, s.php.batch[0]);
  }

  /** In a reset the weight drops by one with each append and each consumption, and never otherwise. */
  lemma ResetStepWeight(s: State, step: Step)
    requires Inv(s) && InReset(s.php) && Enabled(s, step) && InReset(Apply(s, step).php)
    ensures Weight(Apply(s, step)) == Weight(s) - Work(step)
  {
    hide Inv, Consume, Tickets;
    if ByDriver(step) {
      DriverStepWeight(s, step);
    } else if step.ConsumeOne? {
      ConsumeWeight(s, step.throws);
    } else {
      if s.php.Consuming? { DiscardNeverThrows(s); }
      QuietStepWeight(s, step);
    }
  }

  lemma DiscardNeverThrows(s: State)
    requires Inv(s) && s.php.Consuming? && s.php.mode.Discard?
    ensures !s.php.thrown
  {
    hide Lists, Slots, Pins, Queues, Ledger, Logged, Order, Line, Armed, Awaiting, AddState, Wakeup, Taken, Waited;
  }

  lemma QuietStepWeight(s: State, step: Step)
    requires InReset(s.php) && Enabled(s, step) && InReset(Apply(s, step).php)
    requires !ByDriver(step) && !step.ConsumeOne? && (s.php.Consuming? ==> !s.php.thrown)
    ensures Weight(Apply(s, step)) == Weight(s)
  {
    hide Tickets, Consume, Recheck, SetCallback, CasInAdd, RegCreate, HandOver, PushReclaimed, ReRegister;
  }

  lemma RemoveListed(s: State, r: RegId)
    requires Inv(s) && r in s.regs
    ensures |Remove(s.registered, r)| == |s.registered| - 1
  {
    hide Slots, Pins, Queues, Ledger, Logged, Order, Line, Armed, Awaiting, AddState, Wakeup, Batch, Taken, Waited;
    RemoveMembers(s.registered, r);
  }

  lemma {:induction false} ResetAccounting(s: State, steps: seq<Step>)
    requires Inv(s) && ResetsBy(s, steps)
    ensures IsRun(s, steps) && Inv(RunFrom(s, steps))
    ensures Weight(RunFrom(s, steps)) == Weight(s) - TotalWork(steps)
    decreases |steps|
  {
    hide Inv, Enabled, Apply, Weight, Work;
    if steps != [] {
      StepInv(s, steps[0]);
      ResetStepWeight(s, steps[0]);
      ResetAccounting(Apply(s, steps[0]), steps[1..]);
    }
  }

  /** The queue never holds more records than are registered. */
  lemma WeightBound(s: State)
    requires Inv(s)
    ensures |s.registered| <= Weight(s) <= 2 * |s.registered|
  {
    hide Slots, Pins, Ledger, Logged, Order, Line, Armed, Awaiting, AddState, Wakeup, Batch, Taken, Waited;
    SubsetSize(Queue(s), s.registered);
  }

  lemma {:induction false} SubsetSize<T>(a: seq<T>, b: seq<T>)
    requires NoDup(a) && NoDup(b) && forall x :: x in a ==> x in b
    ensures |a| <= |b|
  {
    if a != [] {
      assert a == [a[0]] + a[1..];
      NoDupConcat([a[0]], a[1..]);
      RemoveMembers(b, a[0]);
      SubsetSize(a[1..], Remove(b, a[0]));
    }
  }

  /** When a reset is about to splice and finds nothing, an append is in flight. */
  lemma ResetNeverStuck(s: State)
    requires Reachable(s) && s.php.Drained? && s.php.mode.Discard? && s.registered != []
    ensures s.ready != [] || exists r :: r in s.appending && (s.lock.None? ==> Enabled(s, IoAppend(r)))
  {
    hide Reachable, Pins, Ledger, Logged, Order, Line, AddState, Wakeup, Batch, Taken, NoDup;
    ReachableInv(s);
    var r := s.registered[0];
    assert r in s.registered;
    assert s.regs[r].enqueued;
    assert Queue(s) == s.ready;
    assert r in s.ready || r in s.appending;
    assert r in s.appending && s.lock.None? ==> Enabled(s, IoAppend(r));
  }

  /** A finished reset has freed every record and released every pin. */
  lemma ResetEndsEmpty(s: State)
    requires Reachable(s) && Enabled(s, ResetDone)
    ensures var s' := Apply(s, ResetDone);
      && s'.regs == map[] && s'.ready == [] && s'.registered == [] && s'.pending == 0 && s'.reactorRefs == 1
      && s'.slot == map[] && s'.pins == multiset{} && s'.armed == map[] && s'.appending == {} && s'.fd == 0
  {
    hide Inv, Reachable;
    ReachableInv(s);
    NothingLeft(s);
    Counters(s);
  }

  // ---- record lifetime -----------------------------------------------------

  /** No step of a conforming driver or of PHP ever touches a freed record. */
  lemma NoUseAfterFree(s: State)
    requires Reachable(s)
    ensures !s.fault
    ensures forall f :: f in s.armed ==> s.armed[f] in s.regs
    ensures forall r :: r in s.appending || r in s.ready || r in Held(s.php) || r in s.registered ==> r in s.regs
    ensures forall r :: r in s.regs ==> s.regs[r].future in s.slot && s.slot[s.regs[r].future] == r
    ensures forall f :: f in s.slot ==> s.pins[f] >= 1
  {
    ReachableInv(s);
    hide Reachable, Ledger, Logged, Order, Line, Awaiting, AddState, Wakeup, Batch, Taken, Waited, NoDup;
    forall r | r in Held(s.php) || r in s.ready ensures r in s.regs { assert r in Queue(s); }
  }

  /** Record `r` has been freed. */
  ghost predicate Freed(s: State, r: RegId) { r < s.nextReg && r !in s.regs }

  lemma DisposeFreed(s: State, x: RegId, w: Where, r: RegId)
    requires Freed(s, r)
    ensures Freed(RegDispose(s, x, w), r)
  {
  }

  lemma SetCallbackRegs(s: State, reply: Reply)
    requires Enabled(s, AddSetCallback(reply))
    ensures SetCallback(s, reply).regs == s.regs && SetCallback(s, reply).nextReg == s.nextReg
  {
  }

  lemma AddStepFreed(s: State, step: Step, r: RegId)
    requires Freed(s, r) && Enabled(s, step)
    requires step.AddReject? || step.AddCreate? || step.AddSetCallback? || step.AddSkipCallback?
             || step.AddRecheck? || step.AddCas? || step.AddPush? || step.UseNotifier?
    ensures Freed(Apply(s, step), r)
  {
    hide RegDispose, SetCallback, TicketOf;
    if step.AddRecheck? { DisposeFreed(s, s.php.r, Withdrawn, r); }
    if step.AddSetCallback? { SetCallbackRegs(s, step.reply); }
  }

  lemma ConsumeFreed(s: State, throws: bool, r: RegId)
    requires Freed(s, r) && s.php.Consuming? && s.php.batch != []
    ensures Freed(Consume(s, throws), r)
  {
    hide RegDispose;
    DisposeFreed(s, s.php.batch[0], Called, r);
    DisposeFreed(s, s.php.batch[0], Collected, r);
    DisposeFreed(s, s.php.batch[0], Discarded, r);
  }

  lemma PollStepFreed(s: State, step: Step, r: RegId)
    requires Freed(s, r) && Enabled(s, step) && !ByDriver(step)
    requires !(step.AddReject? || step.AddCreate? || step.AddSetCallback? || step.AddSkipCallback?
               || step.AddRecheck? || step.AddCas? || step.AddPush? || step.UseNotifier?)
    ensures Freed(Apply(s, step), r)
  {
    hide Consume, Settle, Tickets;
    if step.ConsumeOne? { ConsumeFreed(s, step.throws, r); }
  }

  /** A freed record number never comes back, so no record is freed twice. */
  lemma FreedForGood(s: State, step: Step, r: RegId)
    requires Freed(s, r) && Enabled(s, step)
    ensures Freed(Apply(s, step), r)
  {
    hide Enabled, Apply;
    if ByDriver(step) {
      DriverStepFrame(s, step);
    } else if step.AddReject? || step.AddCreate? || step.AddSetCallback? || step.AddSkipCallback?
              || step.AddRecheck? || step.AddCas? || step.AddPush? || step.UseNotifier? {
      AddStepFreed(s, step, r);
    } else {
      PollStepFreed(s, step, r);
    }
  }

  // ---- the driver assumption is needed -------------------------------------

  /** A record consumed while its accepted callback has yet to run: the callback finds it freed. */
  lemma LateCallbackFaults(s: State, throws: bool, f: FutureId)
    requires Enabled(s, ConsumeOne(throws)) && f in s.armed && s.armed[f] == s.php.batch[0]
    requires s.php.batch[0] in s.regs && s.regs[s.php.batch[0]].refs == 2
    ensures var s' := Apply(s, ConsumeOne(throws));
      Enabled(s', IoCallback(f)) && Apply(s', IoCallback(f)).fault
  {
    hide Remove;
    assert s.php.batch[0] !in Consume(s, throws).regs;
  }

  /** The driver has accepted the callback of future 0 and shows it ready without running it. */
  function Eager(enqueued: bool, php: Php, ready: seq<RegId>, fd: nat, log: seq<Ticket>): State {
    State(map[0 := Reg(2, enqueued, 0, false, 0)], [0], 1, 2, ready, None, fd, map[0 := 0], multiset{0}, {}, {0}, {0},
          map[0 := 0], {}, {}, php, 1, false, false, 1, map[0 := Live(0)], log)
  }

  lemma EagerRegistered()
    ensures Reaches(Init({}, false), Eager(false, AddDecide(0, true), [], 0, []))
  {
    var s0 := Init({}, false);
    var s1 := Apply(s0, AddCreate(0, false));
    var s2 := Apply(s1, AddSetCallback(Accepted));
    assert Apply(s2, MakeVisible(0)) == Eager(false, AddDecide(0, true), [], 0, []);
    hide Apply, Enabled;
    ReachesSelf(s0);
    ReachesNext(s0, s0, AddCreate(0, false));
    ReachesNext(s0, s1, AddSetCallback(Accepted));
    ReachesNext(s0, s2, MakeVisible(0));
  }

  lemma EagerPushed(s0: State)
    requires Reaches(s0, Eager(false, AddDecide(0, true), [], 0, []))
    ensures Reaches(s0, Eager(true, Idle, [0], 1, [0]))
  {
    var s3 := Eager(false, AddDecide(0, true), [], 0, []);
    var s4 := Apply(s3, AddRecheck);
    var s5 := Apply(s4, AddCas);
    assert Apply(s5, AddPush) == Eager(true, Idle, [0], 1, [0]);
    hide Apply, Enabled;
    ReachesNext(s0, s3, AddRecheck);
    ReachesNext(s0, s4, AddCas);
    ReachesNext(s0, s5, AddPush);
  }

  lemma EagerSpliced(s0: State)
    requires Reaches(s0, Eager(true, Idle, [0], 1, [0]))
    ensures Reaches(s0, Eager(true, Consuming(Deliver(0), [0], [0], 0, [], false), [], 0, [0]))
  {
    var s6 := Eager(true, Idle, [0], 1, [0]);
    var s7 := Apply(s6, PollStart(None));
    var s8 := Apply(s7, DrainRead);
    var s9 := Apply(s8, DrainEmpty);
    assert Tickets(s9, [0]) == [0];
    assert Apply(s9, Splice) == Eager(true, Consuming(Deliver(0), [0], [0], 0, [], false), [], 0, [0]);
    hide Apply, Enabled;
    ReachesNext(s0, s6, PollStart(None));
    ReachesNext(s0, s7, DrainRead);
    ReachesNext(s0, s8, DrainEmpty);
    ReachesNext(s0, s9, Splice);
  }

  /**
   * A driver that shows readiness before it runs an accepted callback breaks the lifetime
   * rule: add()'s recheck enqueues the record, poll() frees it, the callback comes late.
   */
  lemma EagerDriverFaults()
    ensures exists s :: Reaches(Init({}, false), s) && s.fault
  {
    var s0 := Init({}, false);
    EagerRegistered();
    EagerPushed(s0);
    EagerSpliced(s0);
    var s10 := Eager(true, Consuming(Deliver(0), [0], [0], 0, [], false), [], 0, [0]);
    LateCallbackFaults(s10, false, 0);
    hide Apply, Enabled;
    var s11 := Apply(s10, ConsumeOne(false));
    ReachesNext(s0, s10, ConsumeOne(false));
    ReachesNext(s0, s11, IoCallback(0));
  }

  // ---- the limit -----------------------------------------------------------

  /**
   * poll($max) takes min($max, ready) records of every ready-list that the 32-bit pending
   * counter can count, if and only if the cast keeps $max or loses nothing by it.
   */
  lemma LimitExact(max: nat)
    requires max >= 1
    ensures (forall n: nat :: n < 0x1_0000_0000 ==> TakenBy(LimitOf(Some(max)), n) == if n <= max then n else max)
            <==> max < 0x1_0000_0000 || max % 0x1_0000_0000 == 0 || max % 0x1_0000_0000 == 0xffff_ffff
  {
    var m := max % 0x1_0000_0000;
    if max >= 0x1_0000_0000 && m != 0 && m != 0xffff_ffff {
      assert TakenBy(LimitOf(Some(max)), m + 1) == m;
    }
  }
}

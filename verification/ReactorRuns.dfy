/** What whole runs of the reactor do: deliveries, refused registrations, resets. */
module ReactorRuns {
  import opened Sequences
  import opened ReactorModel
  import opened ReactorInvariant
  import opened ReactorTheorems

  // ---- a delivery is final -------------------------------------------------

  /** `t` is not where `step` moves a ticket. */
  ghost predicate Settled(s: State, t: Ticket) {
    && t in s.places && t != s.nextTicket
    && (forall r :: r in s.regs ==> s.regs[r].ticket != t)
    && t !in ItemTickets(Loose(s.php))
  }

  predicate Same(a: map<Ticket, Where>, b: map<Ticket, Where>, t: Ticket) { t in a && t in b && a[t] == b[t] }

  lemma OverIsSettled(s: State, t: Ticket)
    requires Inv(s) && Over(s, t)
    ensures Settled(s, t)
  {
    NoLivePlace(s, t);
    hide Lists, Slots, Pins, Queues, Logged, Order, Line, Armed, Awaiting, AddState, Wakeup, Batch, Taken, Waited;
  }

  lemma DisposeKeeps(s: State, r: RegId, w: Where, t: Ticket)
    requires Settled(s, t)
    ensures Same(s.places, RegDispose(s, r, w).places, t)
  {
    hide Remove;
  }

  lemma ConsumeKeeps(s: State, throws: bool, t: Ticket)
    requires Settled(s, t) && Enabled(s, ConsumeOne(throws))
    ensures Same(s.places, Consume(s, throws).places, t)
  {
    hide RegDispose, Settled;
    var r := s.php.batch[0];
    DisposeKeeps(s, r, Discarded, t);
    DisposeKeeps(s, r, Called, t);
    DisposeKeeps(s, r, Collected, t);
    assert Same(s.places, s.places, t) by { InPlaces(s, t); }
  }

  lemma InPlaces(s: State, t: Ticket)
    requires Settled(s, t)
    ensures t in s.places
  {
  }

  lemma HandOverKeeps(s: State, t: Ticket)
    requires Settled(s, t) && s.php.Consuming?
    ensures Same(s.places, HandOver(s).places, t)
  {
  }

  lemma ReRegisterKeeps(s: State, t: Ticket)
    requires Settled(s, t) && Enabled(s, ReclaimOne)
    ensures Same(s.places, ReRegister(s).places, t)
  {
    var items, i := s.php.all, |s.php.head|;
    assert Loose(s.php) == items[i..];
    assert ItemTickets(Loose(s.php))[0] == items[i].ticket;
  }

  lemma AddKeeps(s: State, step: Step, t: Ticket)
    requires Settled(s, t) && Enabled(s, step)
    requires step.AddCreate? || step.AddSetCallback? || step.AddSkipCallback? || step.AddRecheck? || step.AddCas? || step.AddPush?
    ensures Same(s.places, Apply(s, step).places, t)
  {
    hide RegDispose, Consume, HandOver, ReRegister, RunCallback, SpliceReady, PutBack, PushReclaimed;
    if step.AddRecheck? {
      DisposeKeeps(s, s.php.r, Withdrawn, t);
    }
  }

  lemma SettledStep(s: State, step: Step, t: Ticket)
    requires Settled(s, t) && Enabled(s, step)
    ensures Same(s.places, Apply(s, step).places, t)
  {
    hide Settled, Consume, HandOver, ReRegister, SpliceReady, PutBack, PushReclaimed, RegDispose;
    InPlaces(s, t);
    if ByDriver(step) {
      DriverStepFrame(s, step);
    } else if step.ConsumeOne? {
      ConsumeKeeps(s, step.throws, t);
    } else if step.Return? {
      HandOverKeeps(s, t);
    } else if step.ReclaimOne? {
      ReRegisterKeeps(s, t);
    } else if step.AddCreate? || step.AddSetCallback? || step.AddSkipCallback? || step.AddRecheck? || step.AddCas? || step.AddPush? {
      AddKeeps(s, step, t);
    } else {
      OtherKeeps(s, step);
    }
  }

  lemma OtherKeeps(s: State, step: Step)
    requires Enabled(s, step)
    requires step.UseNotifier? || step.AddReject? || step.PollStart? || step.ResetStart? || step.ResetWait? || step.ResetAgain?
          || step.ResetDone? || step.DrainRead? || step.DrainEmpty? || step.Splice? || step.Requeue? || step.ReclaimStart?
          || step.ReclaimPush?
    ensures Apply(s, step).places == s.places
  {
    hide RegCreate, SetCallback, Recheck, CasInAdd, Append, Consume, HandOver, ReRegister, RunCallback, Tickets;
  }

  /** Once delivered, dropped or withdrawn, a ticket stays so under every step. */
  lemma OverForGood(s: State, step: Step, t: Ticket)
    requires Reachable(s) && Enabled(s, step) && Over(s, t)
    ensures t in Apply(s, step).places && Apply(s, step).places[t] == s.places[t] && Over(Apply(s, step), t)
  {
    hide Reachable, Inv, Enabled, Apply, Settled;
    ReachableInv(s);
    OverIsSettled(s, t);
    SettledStep(s, step, t);
  }

  /** How many steps of a run take `t` out of the reactor. */
  ghost function Deliveries(s: State, steps: seq<Step>, t: Ticket): nat
    requires IsRun(s, steps)
    decreases |steps|
  {
    if steps == [] then 0
    else
      var s' := Apply(s, steps[0]);
      Count(!Over(s, t) && Over(s', t)) + Deliveries(s', steps[1..], t)
  }

  /** Along every run a ticket is delivered, dropped or withdrawn at most once, and then for good. */
  lemma {:induction false} DeliveredAtMostOnce(s: State, steps: seq<Step>, t: Ticket)
    requires Reachable(s) && IsRun(s, steps)
    ensures Deliveries(s, steps, t) + Count(Over(s, t)) == Count(Over(RunFrom(s, steps), t))
    ensures Over(s, t) ==> t in RunFrom(s, steps).places && RunFrom(s, steps).places[t] == s.places[t]
    decreases |steps|
  {
    hide Reachable, Enabled, Apply, Over;
    if steps != [] {
      ReachableStep(s, steps[0]);
      if Over(s, t) {
        OverForGood(s, steps[0], t);
      }
      DeliveredAtMostOnce(Apply(s, steps[0]), steps[1..], t);
    } else if Over(s, t) {
      assert t in s.places by { OverPlace(s, t); }
    }
  }

  lemma OverPlace(s: State, t: Ticket)
    requires Over(s, t)
    ensures t in s.places
  {
  }

  // ---- a refused add() is invisible ----------------------------------------

  /** `a` with one more record, its number and ticket used up. */
  function Opening(a: State, id: RegId, reg: Reg, php: Php, nextReg: nat, nextTicket: nat): State {
    a.(regs := a.regs[id := reg], registered := [id] + a.registered, pending := a.pending + 1,
       reactorRefs := a.reactorRefs + 1, slot := a.slot[reg.future := id], pins := a.pins + multiset{reg.future},
       places := a.places[reg.ticket := Live(id)], php := php, nextReg := nextReg, nextTicket := nextTicket)
  }

  /** Nothing in `a` knows the record `id`, nor `f`. */
  ghost predicate Apart(a: State, f: FutureId, id: RegId) {
    && id !in a.regs && id !in a.appending && (forall g :: g in a.armed ==> a.armed[g] != id)
    && f !in a.slot && f !in a.armed && a.php.Idle?
  }

  /** `t` is `a` with the open record `id` of an add() of `f` beside it. */
  ghost predicate Beside(a: State, t: State, f: FutureId, id: RegId, tk: Ticket) {
    && Apart(a, f, id) && id in t.regs
    && t.regs[id].refs == 2 && t.regs[id].future == f && t.regs[id].ticket == tk
    && t == Opening(a, id, t.regs[id], t.php, t.nextReg, t.nextTicket)
  }

  lemma CallbackApart(a: State, f: FutureId, id: RegId, g: FutureId)
    requires Apart(a, f, id) && g in a.armed
    ensures Apart(RunCallback(a, g), f, id)
  {
  }

  lemma CasOpening(a: State, id: RegId, reg: Reg, php: Php, nr: nat, nt: nat, r: RegId)
    requires r != id
    ensures Cas(Opening(a, id, reg, php, nr, nt), r) == (Opening(Cas(a, r).0, id, reg, php, nr, nt), Cas(a, r).1)
  {
    if r in a.regs {
      var won := a.regs[r].(enqueued := true);
      assert a.regs[id := reg][r := won] == a.regs[r := won][id := reg];
    }
  }

  lemma CallbackOpening(a: State, id: RegId, reg: Reg, php: Php, nr: nat, nt: nat, g: FutureId)
    requires g in a.armed && a.armed[g] != id
    ensures RunCallback(Opening(a, id, reg, php, nr, nt), g) == Opening(RunCallback(a, g), id, reg, php, nr, nt)
  {
    hide Cas;
    var r, b := a.armed[g], a.(armed := a.armed - {g});
    assert Opening(a, id, reg, php, nr, nt).(armed := a.armed - {g}) == Opening(b, id, reg, php, nr, nt);
    CasOpening(b, id, reg, php, nr, nt, r);
  }

  lemma CallbackBeside(a: State, t: State, f: FutureId, id: RegId, tk: Ticket, g: FutureId)
    requires Beside(a, t, f, id, tk) && g in t.armed
    ensures g in a.armed && Beside(RunCallback(a, g), RunCallback(t, g), f, id, tk)
  {
    hide RunCallback;
    CallbackApart(a, f, id, g);
    CallbackOpening(a, id, t.regs[id], t.php, t.nextReg, t.nextTicket, g);
  }

  lemma AppendBeside(a: State, t: State, f: FutureId, id: RegId, tk: Ticket, r: RegId)
    requires Beside(a, t, f, id, tk) && Enabled(t, IoAppend(r))
    ensures Enabled(a, IoAppend(r)) && Beside(Apply(a, IoAppend(r)), Apply(t, IoAppend(r)), f, id, tk)
  {
  }

  lemma DriverBeside(a: State, t: State, f: FutureId, id: RegId, tk: Ticket, step: Step)
    requires Beside(a, t, f, id, tk) && ByDriver(step) && Enabled(t, step)
    ensures Enabled(a, step) && Beside(Apply(a, step), Apply(t, step), f, id, tk)
  {
    if step.IoCallback? {
      hide RunCallback, Beside;
      assert step.f in t.armed;
      CallbackBeside(a, t, f, id, tk, step.f);
    } else if step.IoAppend? {
      hide Beside, Apply, Enabled;
      AppendBeside(a, t, f, id, tk, step.r);
    }
  }

  lemma {:induction false} DriverRunBeside(a: State, t: State, f: FutureId, id: RegId, tk: Ticket, steps: seq<Step>)
    requires Beside(a, t, f, id, tk) && IsRun(t, steps) && forall step :: step in steps ==> ByDriver(step)
    ensures IsRun(a, steps) && Beside(RunFrom(a, steps), RunFrom(t, steps), f, id, tk)
    decreases |steps|
  {
    hide Beside, Enabled, Apply;
    if steps != [] {
      DriverBeside(a, t, f, id, tk, steps[0]);
      DriverRunBeside(Apply(a, steps[0]), Apply(t, steps[0]), f, id, tk, steps[1..]);
    }
  }

  lemma CreateBeside(s: State, f: FutureId, callback: bool)
    requires Inv(s) && Enabled(s, AddCreate(f, callback))
    ensures Beside(s, Apply(s, AddCreate(f, callback)), f, s.nextReg, s.nextTicket)
    ensures Apply(s, AddCreate(f, callback)).nextReg == s.nextReg + 1
    ensures Apply(s, AddCreate(f, callback)).nextTicket == s.nextTicket + 1
  {
    hide Pins, Ledger, Logged, Order, Line, Awaiting, AddState, Wakeup, Batch, Taken, Waited, NoDup;
  }

  lemma RefusalBeside(a: State, t: State, f: FutureId, id: RegId, tk: Ticket)
    requires Beside(a, t, f, id, tk) && Enabled(t, AddSetCallback(Refused))
    ensures Beside(a, Apply(t, AddSetCallback(Refused)), f, id, tk)
  {
  }

  lemma WithdrawBeside(a: State, t: State, f: FutureId, id: RegId, tk: Ticket)
    requires Beside(a, t, f, id, tk) && t.php == AddDecide(id, false) && f !in t.visible
    ensures Apply(t, AddRecheck) ==
            a.(places := a.places[tk := Withdrawn], nextReg := t.nextReg, nextTicket := t.nextTicket)
  {
    DisposeOpening(a, id, t.regs[id], t.php, t.nextReg, t.nextTicket);
    hide RegDispose;
  }

  lemma DisposeOpening(a: State, id: RegId, reg: Reg, php: Php, nr: nat, nt: nat)
    requires id !in a.regs && reg.future !in a.slot && reg.refs == 2
    ensures RegDispose(Opening(a, id, reg, php, nr, nt), id, Withdrawn) ==
            a.(places := a.places[reg.ticket := Withdrawn], php := php, nextReg := nr, nextTicket := nt)
  {
    assert ([id] + a.registered)[1..] == a.registered;
    assert a.slot[reg.future := id] - {reg.future} == a.slot;
    assert a.regs[id := reg] - {id} == a.regs;
    assert a.pins + multiset{reg.future} - multiset{reg.future} == a.pins;
    assert a.places[reg.ticket := Live(id)][reg.ticket := Withdrawn] == a.places[reg.ticket := Withdrawn];
  }

  lemma {:induction false} RunConcat(s: State, a: seq<Step>, b: seq<Step>)
    requires IsRun(s, a) && IsRun(RunFrom(s, a), b)
    ensures IsRun(s, a + b) && RunFrom(s, a + b) == RunFrom(RunFrom(s, a), b)
    decreases |a|
  {
    hide Enabled, Apply;
    if a == [] {
      assert a + b == b;
    } else {
      assert (a + b)[1..] == a[1..] + b;
      RunConcat(Apply(s, a[0]), a[1..], b);
    }
  }

  /** Driver steps use up no numbers. */
  lemma {:induction false} DriverRunNumbers(s: State, steps: seq<Step>)
    requires IsRun(s, steps) && forall step :: step in steps ==> ByDriver(step)
    ensures RunFrom(s, steps).nextReg == s.nextReg && RunFrom(s, steps).nextTicket == s.nextTicket
    ensures RunFrom(s, steps).php == s.php
  {
    DriverRunFrame(s, steps);
  }

  /**
   * An add() that the driver refuses on a still-pending future leaves the reactor exactly
   * as the driver steps alone would have left it, the record and ticket numbers used up
   * and the ticket withdrawn.
   */
  lemma RefusedAddIsInvisible(s: State, f: FutureId, callback: bool, io1: seq<Step>, io2: seq<Step>, s4: State)
    requires Reachable(s) && RefusedAdd(s, f, callback, io1, io2, s4) && f !in s4.visible
    ensures IsRun(s, io1 + io2) && Enabled(s4, AddRecheck)
    ensures var alone := RunFrom(s, io1 + io2);
      Apply(s4, AddRecheck) == alone.(places := alone.places[s.nextTicket := Withdrawn],
                                      nextReg := s.nextReg + 1, nextTicket := s.nextTicket + 1)
  {
    hide Reachable, Inv, Beside, Enabled, Apply, IsRun, RunFrom;
    ReachableInv(s);
    RefusedAddView(s, f, callback, io1, io2, s4);
    var id, tk := s.nextReg, s.nextTicket;
    var s1 := Apply(s, AddCreate(f, callback));
    CreateBeside(s, f, callback);
    DriverRunBeside(s, s1, f, id, tk, io1);
    DriverRunNumbers(s1, io1);
    var s2, a2 := RunFrom(s1, io1), RunFrom(s, io1);
    RefusalBeside(a2, s2, f, id, tk);
    var s3 := Apply(s2, AddSetCallback(Refused));
    RefusalOnlyMoves(s2);
    DriverRunBeside(a2, s3, f, id, tk, io2);
    DriverRunNumbers(s3, io2);
    WithdrawBeside(RunFrom(a2, io2), s4, f, id, tk);
    RunConcat(s, io1, io2);
    RecheckEnabled(s4);
  }

  lemma RecheckEnabled(s: State)
    requires s.php.AddDecide?
    ensures Enabled(s, AddRecheck)
  {
  }

  // ---- a reset ends --------------------------------------------------------

  /** One turn of the drain loop: from the loop's head through wait, drain, splice and consume back to it. */
  ghost predicate Turn(s: State, steps: seq<Step>) {
    && s.php.Resetting? && ResetsBy(s, steps)
    && steps != [] && steps[|steps| - 1] == ResetAgain && ResetAgain !in steps[..|steps| - 1]
  }

  /** The state in which the turn takes the ready-list. */
  ghost function AtSplice(s: State, steps: seq<Step>): Option<State>
    requires IsRun(s, steps)
    decreases |steps|
  {
    if steps == [] then None
    else if steps[0].Splice? then Some(s) else AtSplice(Apply(s, steps[0]), steps[1..])
  }

  /** Appends in flight when the turn splices finish before the turn is over. */
  ghost predicate Fair(s: State, steps: seq<Step>)
    requires IsRun(s, steps)
  {
    var m := AtSplice(s, steps);
    m.Some? ==> forall r :: r in m.value.appending ==> r !in RunFrom(s, steps).appending
  }

  lemma DiscardBatch(s: State)
    requires Inv(s) && s.php.Consuming? && s.php.mode.Discard?
    ensures !s.php.thrown
  {
    hide Lists, Slots, Pins, Queues, Ledger, Logged, Order, Line, Armed, Awaiting, AddState, Wakeup, Taken, Waited;
  }

  /** With records left in its batch the loop can only consume. */
  lemma OnlyConsumes(s: State, step: Step)
    requires Inv(s) && s.php.Consuming? && s.php.mode.Discard? && s.php.batch != [] && Enabled(s, step)
    ensures ByDriver(step) || step.ConsumeOne?
  {
    hide Inv;
    DiscardBatch(s);
  }

  lemma {:induction false} BatchIsConsumed(s: State, steps: seq<Step>)
    requires Inv(s) && ResetsBy(s, steps) && s.php.Consuming? && s.php.batch != []
    requires steps != [] && steps[|steps| - 1] == ResetAgain
    ensures TotalWork(steps) >= 1
    decreases |steps|
  {
    hide Inv, Enabled, Apply;
    OnlyConsumes(s, steps[0]);
    if ByDriver(steps[0]) {
      StepInv(s, steps[0]);
      DriverStepFrame(s, steps[0]);
      assert steps[1..] != [] && steps[1..][|steps| - 2] == ResetAgain;
      BatchIsConsumed(Apply(s, steps[0]), steps[1..]);
    }
  }

  lemma ConsumeAppending(s: State, throws: bool)
    requires Enabled(s, ConsumeOne(throws))
    ensures Consume(s, throws).appending == s.appending
  {
    hide Remove;
  }

  lemma CallbackAppending(s: State, f: FutureId)
    requires f in s.armed
    ensures s.appending <= RunCallback(s, f).appending
  {
  }

  lemma BatchAppending(s: State, step: Step)
    requires Enabled(s, step) && (step.Return? || step.Requeue? || step.Splice?)
    ensures Apply(s, step).appending == s.appending
  {
    hide Consume, RunCallback, Tickets, RegCreate, SetCallback, Recheck, CasInAdd, Append, ReRegister, PushReclaimed;
  }

  lemma AppendingStep(s: State, step: Step, r: RegId)
    requires InReset(s.php) && Enabled(s, step) && r in s.appending && !step.IoAppend?
    ensures r in Apply(s, step).appending
  {
    hide Consume, RunCallback, Tickets, RegCreate, SetCallback, Recheck, CasInAdd, Append, ReRegister, PushReclaimed;
    hide HandOver, PutBack, SpliceReady;
    if step.ConsumeOne? {
      ConsumeAppending(s, step.throws);
    } else if step.IoCallback? {
      CallbackAppending(s, step.f);
    } else if step.Return? || step.Requeue? || step.Splice? {
      BatchAppending(s, step);
    }
  }

  /** A record leaves the set of in-flight appends only by being appended. */
  lemma {:induction false} AppendIsWork(s: State, steps: seq<Step>, r: RegId)
    requires ResetsBy(s, steps) && IsRun(s, steps) && r in s.appending && r !in RunFrom(s, steps).appending
    ensures TotalWork(steps) >= 1
    decreases |steps|
  {
    hide Enabled, Apply;
    if !steps[0].IoAppend? {
      AppendingStep(s, steps[0], r);
      AppendIsWork(Apply(s, steps[0]), steps[1..], r);
    }
  }

  predicate BeforeSplice(p: Php) { p.Resetting? || ((p.Draining? || p.Drained?) && p.mode.Discard?) }

  /** What can happen in a reset before it splices. */
  lemma StepBeforeSplice(s: State, step: Step)
    requires BeforeSplice(s.php) && Enabled(s, step) && InReset(Apply(s, step).php)
    requires !s.php.Resetting? ==> s.registered != []
    ensures step != ResetAgain
    ensures step.Splice? || (BeforeSplice(Apply(s, step).php) && Apply(s, step).registered == s.registered)
    ensures !step.Splice? && !Apply(s, step).php.Resetting? ==> s.registered != []
    ensures step.Splice? ==> s.php.Drained? && s.php.mode.Discard? && Apply(s, step).php.Consuming? &&
                             Apply(s, step).php.batch == s.ready && Apply(s, step).appending == s.appending
  {
    if ByDriver(step) {
      DriverStepFrame(s, step);
    }
    hide RunCallback, Append, Tickets;
  }

  /**
   * A fair turn makes progress: it consumes a record if it splices any, and if it splices
   * none an append was in flight, which finishes.
   */
  lemma {:induction false} ProgressFrom(s: State, steps: seq<Step>)
    requires Reachable(s) && BeforeSplice(s.php) && (!s.php.Resetting? ==> s.registered != [])
    requires ResetsBy(s, steps) && IsRun(s, steps) && Fair(s, steps)
    requires steps != [] && steps[|steps| - 1] == ResetAgain
    ensures TotalWork(steps) >= 1
    decreases |steps|
  {
    hide Reachable, Inv, Enabled, Apply, BeforeSplice;
    var next := Apply(s, steps[0]);
    assert InReset(next.php);
    StepBeforeSplice(s, steps[0]);
    assert steps[1..] != [] && steps[1..][|steps| - 2] == ResetAgain;
    ReachableStep(s, steps[0]);
    if steps[0].Splice? {
      ReachableInv(next);
      if s.ready != [] {
        BatchIsConsumed(next, steps[1..]);
      } else {
        ResetNeverStuck(s);
        var r :| r in s.appending;
        assert AtSplice(s, steps) == Some(s);
        AppendIsWork(next, steps[1..], r);
      }
    } else {
      assert AtSplice(s, steps) == AtSplice(next, steps[1..]);
      ProgressFrom(next, steps[1..]);
    }
  }

  lemma TurnMakesProgress(s: State, steps: seq<Step>)
    requires Reachable(s) && Turn(s, steps) && IsRun(s, steps) && Fair(s, steps)
    ensures TotalWork(steps) >= 1
  {
    hide Reachable, IsRun, Fair, ResetsBy;
    ProgressFrom(s, steps);
  }

  /** A reset as its turns, each of them fair. */
  ghost predicate Turns(s: State, turns: seq<seq<Step>>)
    decreases |turns|
  {
    turns == [] ||
    (Turn(s, turns[0]) && IsRun(s, turns[0]) && Fair(s, turns[0]) && Turns(RunFrom(s, turns[0]), turns[1..]))
  }

  ghost function AfterTurns(s: State, turns: seq<seq<Step>>): State
    requires Turns(s, turns)
    decreases |turns|
  {
    if turns == [] then s else AfterTurns(RunFrom(s, turns[0]), turns[1..])
  }

  lemma {:induction false} TurnEnds(s: State, steps: seq<Step>)
    requires IsRun(s, steps) && steps != [] && steps[|steps| - 1] == ResetAgain
    ensures RunFrom(s, steps).php.Resetting?
    decreases |steps|
  {
    if |steps| > 1 {
      hide Enabled, Apply;
      assert steps[1..][|steps| - 2] == ResetAgain;
      TurnEnds(Apply(s, steps[0]), steps[1..]);
    } else {
      assert RunFrom(Apply(s, steps[0]), []) == Apply(s, steps[0]);
    }
  }

  lemma {:induction false} TurnsWeigh(s: State, turns: seq<seq<Step>>)
    requires Reachable(s) && s.php.Resetting? && Turns(s, turns)
    ensures Reachable(AfterTurns(s, turns)) && AfterTurns(s, turns).php.Resetting?
    ensures Weight(AfterTurns(s, turns)) + |turns| <= Weight(s)
    decreases |turns|
  {
    hide Reachable, Inv, Weight, IsRun, Fair, ResetsBy, TotalWork;
    if turns != [] {
      var next := RunFrom(s, turns[0]);
      TurnMakesProgress(s, turns[0]);
      ReachableInv(s);
      ResetAccounting(s, turns[0]);
      TurnEnds(s, turns[0]);
      ReachableRun(s, turns[0]);
      TurnsWeigh(next, turns[1..]);
    }
  }

  /**
   * A reset whose scheduler lets in-flight appends finish takes at most twice as many
   * turns as there are records, and after that many it can only end: with both lists
   * empty, every record freed and every pin released.
   */
  lemma ResetTerminates(s: State, turns: seq<seq<Step>>)
    requires Reachable(s) && s.php.Resetting? && Turns(s, turns)
    ensures |turns| <= 2 * |s.registered|
    ensures var end := AfterTurns(s, turns);
      (|turns| == 2 * |s.registered| || end.registered == []) ==>
        && Enabled(end, ResetDone)
        && Emptied(Apply(end, ResetDone))
  {
    hide Reachable, Inv, Weight, Turns, AfterTurns, Apply;
    TurnsWeigh(s, turns);
    var end := AfterTurns(s, turns);
    ReachableInv(s);
    ReachableInv(end);
    WeightBound(s);
    WeightBound(end);
    if end.registered == [] {
      ResetEndsEmpty(end);
    }
  }

  ghost predicate Emptied(s: State) {
    && s.regs == map[] && s.ready == [] && s.registered == [] && s.pending == 0 && s.reactorRefs == 1
    && s.slot == map[] && s.pins == multiset{} && s.armed == map[] && s.appending == {} && s.fd == 0
  }
}

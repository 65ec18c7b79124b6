/** What one poll() does from its start to its end, whatever the IO threads do meanwhile. */
module ReactorPolls {
  import opened Sequences
  import opened ReactorModel
  import opened ReactorInvariant
  import opened ReactorTheorems
  import opened ReactorRuns

  /** `steps` are taken one after another, none of them once the PHP thread is idle. */
  ghost predicate BusyRun(s: State, steps: seq<Step>): (busy: bool)
    ensures busy ==> IsRun(s, steps)
    decreases |steps|
  {
    steps == [] || (!s.php.Idle? && Enabled(s, steps[0]) && BusyRun(Apply(s, steps[0]), steps[1..]))
  }

  predicate Delivered(w: Where) { w.Called? || w.Returned? }

  // ---- a callback that throws ends the poll --------------------------------

  lemma UnwindingConsumesNothing(s: State, throws: bool)
    requires Unwinding(s.php) || s.php.Idle?
    ensures !Enabled(s, ConsumeOne(throws))
  {
  }

  lemma {:induction false} BusyUnwinds(s: State, steps: seq<Step>)
    requires Inv(s) && (Unwinding(s.php) || s.php.Idle?) && BusyRun(s, steps)
    ensures IsRun(s, steps)
    ensures var e := RunFrom(s, steps);
      && (Unwinding(e.php) || e.php.Idle?) && Done(e.places) == Done(s.places)
      && (e.php.Idle? ==> UnwindsBy(s, steps))
    decreases |steps|
  {
    hide Inv, Enabled, Apply, Done, Unwinding;
    if steps != [] {
      UnwindStep(s, steps[0]);
      StepInv(s, steps[0]);
      BusyUnwinds(Apply(s, steps[0]), steps[1..]);
    }
  }

  /** `s1` is `s` after the callback of the head of the batch has thrown. */
  ghost predicate ThrownFrom(s: State, s1: State) {
    && s.php.Consuming? && s.php.batch != [] && s1.php.Consuming? && s1.php.mode.Deliver? && s1.php.thrown
    && s1.php.out == s.php.out && s1.php.batch == s.php.batch[1..]
    && s1.ready == s.ready && s1.log == s.log
    && s1.places == s.places[TicketOf(s, s.php.batch[0]) := Called]
    && (forall r :: r in s.regs && r != s.php.batch[0] ==> r in s1.regs && s1.regs[r].ticket == s.regs[r].ticket)
  }

  lemma ThrowUnwinds(s: State)
    requires Enabled(s, ConsumeOne(true))
    ensures ThrownFrom(s, Apply(s, ConsumeOne(true)))
  {
    hide Remove;
    assert Apply(s, ConsumeOne(true)) == Consume(s, true);
    hide Apply, Enabled;
  }

  /** Disposing of the head of the batch leaves the tickets of the other records as they are. */
  lemma OthersKeepTickets(s: State, s1: State)
    requires Inv(s) && ThrownFrom(s, s1)
    ensures Tickets(s1, s.php.batch[1..]) == Tickets(s, s.php.batch[1..]) && Tickets(s1, s.ready) == Tickets(s, s.ready)
  {
    hide Lists, Slots, Pins, Ledger, Logged, Order, Line, Armed, Awaiting, AddState, Wakeup, Batch, Taken, Waited;
    var r := s.php.batch[0];
    NoDupConcat(s.php.batch, s.ready);
    assert s.php.batch == [r] + s.php.batch[1..];
    NoDupConcat([r], s.php.batch[1..]);
    hide NoDup;
    assert r in s.php.batch;
    assert forall x :: x in s.php.batch[1..] || x in s.ready ==> x in Queue(s) && x != r;
  }

  /**
   * Once a callback has thrown, the poll consumes no further record: until it is over no
   * ticket is called or returned, and at its end what it had collected, what it had not
   * reached, what was ready and what arrived meanwhile are ready in that order.
   */
  lemma ThrowStopsPoll(s: State, steps: seq<Step>)
    requires Reachable(s) && Enabled(s, ConsumeOne(true)) && BusyRun(Apply(s, ConsumeOne(true)), steps)
    ensures var s1 := Apply(s, ConsumeOne(true));
      var e := RunFrom(s1, steps);
      && s.php.Consuming? && s.php.batch != []
      && s1.places == s.places[TicketOf(s, s.php.batch[0]) := Called]
      && (forall throws :: !Enabled(e, ConsumeOne(throws)))
      && (forall t :: t in e.places && Delivered(e.places[t]) ==> t in s1.places && s1.places[t] == e.places[t])
      && (e.php.Idle? ==>
            && s.log <= e.log
            && Tickets(e, e.ready) == ItemTickets(s.php.out) + Tickets(s, s.php.batch[1..]) + Tickets(s, s.ready) + e.log[|s.log|..])
  {
    hide Reachable, Inv, Enabled, Apply, Done, Over, Tickets, ItemTickets, UnwindsBy;
    ReachableInv(s);
    ThrowUnwinds(s);
    var s1 := Apply(s, ConsumeOne(true));
    StepInv(s, ConsumeOne(true));
    ReachableStep(s, ConsumeOne(true));
    BusyUnwinds(s1, steps);
    var e := RunFrom(s1, steps);
    forall throws ensures !Enabled(e, ConsumeOne(throws)) {
      UnwindingConsumesNothing(e, throws);
    }
    forall t | t in e.places && Delivered(e.places[t]) ensures t in s1.places && s1.places[t] == e.places[t] {
      DeliveredWasDone(s1, e, t);
      DeliveredAtMostOnce(s1, steps, t);
    }
    if e.php.Idle? {
      ThrowRestoresOrder(s1, steps);
      OthersKeepTickets(s, s1);
    }
  }

  lemma DeliveredWasDone(s: State, e: State, t: Ticket)
    requires Done(e.places) == Done(s.places) && t in e.places && Delivered(e.places[t])
    ensures Over(s, t)
  {
    assert t in Done(e.places);
  }

  // ---- a poll that no callback interrupts ----------------------------------

  /** Between its start and its splice: `done` and `log` are what they were at the start. */
  ghost predicate Waiting(s: State, limit: nat, done: set<Ticket>, log: seq<Ticket>) {
    (s.php.Draining? || s.php.Drained?) && s.php.mode == Deliver(limit) && Done(s.places) == done && log <= s.log
  }

  predicate CalledOrCollected(places: map<Ticket, Where>, t: Ticket) {
    t in places && (places[t].Called? || places[t].Collected?)
  }

  /** After a splice at log length `j`: only what was taken has changed. */
  ghost predicate Taking(s: State, limit: nat, done: set<Ticket>, log: seq<Ticket>, j: nat) {
    && s.php.Consuming? && s.php.mode == Deliver(limit) && !s.php.thrown
    && log <= s.log && |log| <= j <= |s.log| && s.php.taken <= |s.php.spliced|
    && s.php.spliced == Without(s.log[..j], done)
    && done <= Done(s.places)
    && (forall t :: t in Done(s.places) ==> t in done || t in s.php.spliced[..s.php.taken])
    && (forall t :: t in ItemTickets(s.php.out) ==> t in s.php.spliced[..s.php.taken])
    && (forall i :: 0 <= i < s.php.taken ==> CalledOrCollected(s.places, s.php.spliced[i]))
  }

  /** The poll is over: of the queue it spliced at log length `j` it delivered the first `k`. */
  ghost predicate Polled(s: State, limit: nat, done: set<Ticket>, log: seq<Ticket>, j: nat) {
    && s.php.Idle? && log <= s.log && |log| <= j <= |s.log|
    && var queue := Without(s.log[..j], done);
    && var k := TakenBy(limit, |queue|);
    && (forall t :: t in Done(s.places) <==> t in done || t in queue[..k])
    && (forall i :: 0 <= i < k ==> queue[i] in s.places && Delivered(s.places[queue[i]]))
  }

  lemma SpliceTakes(s: State, limit: nat, done: set<Ticket>, log: seq<Ticket>)
    requires Reachable(s) && Waiting(s, limit, done, log) && Enabled(s, Splice)
    ensures Taking(Apply(s, Splice), limit, done, log, |s.log|)
  {
    hide Reachable, Without, Done;
    ReadyIsOutstanding(s);
    assert s.log[..|s.log|] == s.log;
  }

  lemma WaitingStep(s: State, step: Step, limit: nat, done: set<Ticket>, log: seq<Ticket>)
    requires Reachable(s) && Waiting(s, limit, done, log) && Enabled(s, step)
    ensures Waiting(Apply(s, step), limit, done, log) || Taking(Apply(s, step), limit, done, log, |s.log|)
  {
    hide Reachable, Done, Taking, RunCallback, Append;
    if ByDriver(step) {
      hide Enabled, Apply;
      DriverStepFrame(s, step);
    } else if step.Splice? {
      SpliceTakes(s, limit, done, log);
    } else {
      assert step.DrainRead? || step.DrainEmpty?;
    }
  }

  /** `s1` is `s` after its poll has taken one more record without a throw. */
  ghost predicate TookOne(s: State, s1: State) {
    && s.php.Consuming? && s.php.batch != [] && s.php.batch[0] in s.regs && s1.php.Consuming?
    && var reg := s.regs[s.php.batch[0]];
    && s1.php.mode == s.php.mode && !s1.php.thrown && s1.php.spliced == s.php.spliced && s1.php.taken == s.php.taken + 1
    && s1.log == s.log
    && s1.places == s.places[reg.ticket := if reg.hasCallback then Called else Collected]
    && s1.php.out == s.php.out + (if reg.hasCallback then [] else [Item(reg.future, reg.ticket)])
  }

  lemma ConsumeTakes(s: State)
    requires Enabled(s, ConsumeOne(false)) && s.php.mode.Deliver? && s.php.batch[0] in s.regs
    ensures TookOne(s, Apply(s, ConsumeOne(false)))
  {
    hide Remove;
    assert Apply(s, ConsumeOne(false)) == Consume(s, false);
    assert !s.php.thrown;
    hide Apply, Enabled;
    assert s.php.out + [] == s.php.out;
  }

  lemma NextTaken(s: State)
    requires Inv(s) && s.php.Consuming? && s.php.batch != []
    ensures s.php.taken < |s.php.spliced| && s.php.batch[0] in s.regs
    ensures var t := s.regs[s.php.batch[0]].ticket; t == s.php.spliced[s.php.taken] && t in s.places && s.places[t].Live?
  {
    hide Lists, Slots, Pins, Queues, Logged, Order, Line, Armed, Awaiting, AddState, Wakeup, Taken, Waited;
    var p := s.php;
    assert p.batch[0] in p.batch;
    assert p.spliced[p.taken..][0] == TicketsIn(s.regs, p.batch)[0] == s.regs[p.batch[0]].ticket;
  }

  lemma TakingNext(s: State, s1: State, limit: nat, done: set<Ticket>, log: seq<Ticket>, j: nat)
    requires Taking(s, limit, done, log, j) && TookOne(s, s1) && s.php.taken < |s.php.spliced|
    requires var t := s.regs[s.php.batch[0]].ticket; t == s.php.spliced[s.php.taken] && t in s.places && s.places[t].Live?
    ensures Taking(s1, limit, done, log, j)
  {
    hide Without;
    var p, t := s.php, s.regs[s.php.batch[0]].ticket;
    assert p.spliced[..p.taken + 1] == p.spliced[..p.taken] + [t];
    forall x | x in Done(s1.places) ensures x in done || x in s1.php.spliced[..s1.php.taken] {
      assert x != t ==> x in Done(s.places);
    }
    forall x | x in done ensures x in Done(s1.places) {
      assert x in Done(s.places) && x != t;
    }
    forall i | 0 <= i < s1.php.taken ensures CalledOrCollected(s1.places, s1.php.spliced[i]) {
      assert i < p.taken ==> CalledOrCollected(s.places, p.spliced[i]);
    }
    forall x | x in ItemTickets(s1.php.out) ensures x in s1.php.spliced[..s1.php.taken] {
      var i :| 0 <= i < |s1.php.out| && s1.php.out[i].ticket == x;
      assert i < |p.out| ==> ItemTickets(p.out)[i] == x;
    }
  }

  lemma ReturnEnds(s: State, limit: nat, done: set<Ticket>, log: seq<Ticket>, j: nat)
    requires Inv(s) && Taking(s, limit, done, log, j) && Enabled(s, Return)
    ensures Polled(Apply(s, Return), limit, done, log, j)
  {
    hide Inv, Polled, Done, Without;
    PollTook(s);
    CollectedIsLoose(s);
    HandOverEnds(s, limit, done, log, j);
  }

  lemma HandOverEnds(s: State, limit: nat, done: set<Ticket>, log: seq<Ticket>, j: nat)
    requires Taking(s, limit, done, log, j) && s.php.taken == TakenBy(limit, |s.php.spliced|)
    requires forall t :: t in s.places && s.places[t].Collected? ==> t in ItemTickets(s.php.out)
    ensures Polled(HandOver(s), limit, done, log, j)
  {
    hide Without;
    var e, p := HandOver(s), s.php;
    forall i | 0 <= i < p.taken ensures p.spliced[i] in e.places && Delivered(e.places[p.spliced[i]]) {
      assert CalledOrCollected(s.places, p.spliced[i]);
    }
    forall t | t in Done(e.places) ensures t in done || t in p.spliced[..p.taken] {
      assert t in ItemTickets(p.out) || t in Done(s.places);
    }
    forall t | t in done ensures t in Done(e.places) {
      assert t in Done(s.places);
    }
    forall t | t in p.spliced[..p.taken] ensures t in Done(e.places) {
      var i :| 0 <= i < p.taken && p.spliced[i] == t;
      assert Delivered(e.places[t]);
    }
  }

  lemma CollectedIsLoose(s: State)
    requires Inv(s) && s.php.Consuming?
    ensures forall t :: t in s.places && s.places[t].Collected? ==> t in ItemTickets(s.php.out)
  {
    hide Lists, Slots, Pins, Queues, Logged, Order, Line, Armed, Awaiting, AddState, Wakeup, Taken, Waited, Batch;
  }

  lemma RequeueTaking(s: State, limit: nat, done: set<Ticket>, log: seq<Ticket>, j: nat)
    requires Taking(s, limit, done, log, j) && Enabled(s, Requeue)
    ensures Taking(Apply(s, Requeue), limit, done, log, j)
  {
    hide Without, Done;
  }

  /** What the driver does during a poll only lengthens the log. */
  lemma DriverTaking(s: State, step: Step, limit: nat, done: set<Ticket>, log: seq<Ticket>, j: nat)
    requires Taking(s, limit, done, log, j) && Enabled(s, step) && ByDriver(step)
    ensures Taking(Apply(s, step), limit, done, log, j)
  {
    hide Without, Done, Enabled, Apply;
    DriverStepFrame(s, step);
    assert Apply(s, step).log[..j] == s.log[..j];
  }

  lemma TakingStep(s: State, step: Step, limit: nat, done: set<Ticket>, log: seq<Ticket>, j: nat)
    requires Inv(s) && Taking(s, limit, done, log, j) && Enabled(s, step) && step != ConsumeOne(true)
    ensures Taking(Apply(s, step), limit, done, log, j) || Polled(Apply(s, step), limit, done, log, j)
  {
    hide Inv, Polled, Apply, Done, Without;
    if ByDriver(step) {
      DriverTaking(s, step, limit, done, log, j);
    } else if step.ConsumeOne? {
      NextTaken(s);
      ConsumeTakes(s);
      TakingNext(s, Apply(s, step), limit, done, log, j);
    } else if step.Requeue? {
      RequeueTaking(s, limit, done, log, j);
    } else {
      assert step.Return?;
      ReturnEnds(s, limit, done, log, j);
    }
  }

  /** The rest of a poll that is between its start and its end. */
  lemma {:induction false} PollEnds(s: State, steps: seq<Step>, limit: nat, done: set<Ticket>, log: seq<Ticket>, j: nat)
    returns (at: nat)
    requires Reachable(s) && BusyRun(s, steps) && ConsumeOne(true) !in steps
    requires Waiting(s, limit, done, log) || Taking(s, limit, done, log, j) || Polled(s, limit, done, log, j)
    ensures IsRun(s, steps) && (RunFrom(s, steps).php.Idle? ==> Polled(RunFrom(s, steps), limit, done, log, at))
    decreases |steps|
  {
    hide Reachable, Inv, Enabled, Apply, Done, Without;
    at := j;
    if steps != [] {
      assert steps[0] in steps;
      var k := j;
      if Waiting(s, limit, done, log) {
        WaitingStep(s, steps[0], limit, done, log);
        k := |s.log|;
      } else {
        ReachableInv(s);
        TakingStep(s, steps[0], limit, done, log, j);
      }
      ReachableStep(s, steps[0]);
      at := PollEnds(Apply(s, steps[0]), steps[1..], limit, done, log, k);
    }
  }

  /** Taking the first `k` of a queue out of a log leaves the others and what came later. */
  lemma LogAfter(log: seq<Ticket>, j: nat, done: set<Ticket>, now: set<Ticket>, k: nat)
    requires NoDup(log) && j <= |log| && k <= |Without(log[..j], done)|
    requires forall t :: t in now ==> t in log
    requires forall t :: t in now <==> t in done || t in Without(log[..j], done)[..k]
    requires forall t :: t in done ==> t in log[..j]
    ensures Without(log, now) == Without(log[..j], done)[k..] + log[j..]
  {
    var a, b := log[..j], log[j..];
    var queue := Without(a, done);
    var took := set t | t in queue[..k];
    assert now == done + took;
    assert log == a + b;
    NoDupConcat(a, b);
    WithoutMembers(a, done);
    WithoutConcat(a, b, now);
    WithoutNone(b, now);
    WithoutTwice(a, done, took);
    WithoutPrefix(queue, k, took);
  }

  lemma WithoutPrefix(queue: seq<Ticket>, k: nat, took: set<Ticket>)
    requires NoDup(queue) && k <= |queue| && forall t :: t in took <==> t in queue[..k]
    ensures Without(queue, took) == queue[k..]
  {
    var a, b := queue[..k], queue[k..];
    assert queue == a + b;
    NoDupConcat(a, b);
    WithoutConcat(a, b, took);
    WithoutNone(b, took);
    WithoutAll(a, took);
  }

  lemma {:induction false} WithoutAll(a: seq<Ticket>, took: set<Ticket>)
    requires forall t :: t in a ==> t in took
    ensures Without(a, took) == []
  {
    if a != [] {
      WithoutAll(a[1..], took);
    }
  }

  function Least(a: nat, b: nat): nat { if a <= b then a else b }

  /** How many of `n` ready records poll(max) takes; max is cast to 32 bits, and then 0 is no limit. */
  function Share(max: Option<nat>, n: nat): nat {
    if max.None? || max.value % 0x1_0000_0000 == 0 then n else Least(max.value % 0x1_0000_0000, n)
  }

  /**
   * A whole poll in which no callback throws. At some moment it looks at the ready-list,
   * which then holds what was ready at the start and what had arrived. It delivers the
   * first of those, as many as its limit allows, and nothing else; the others stay ready,
   * followed by later arrivals.
   */
  lemma PollDelivers(s: State, max: Option<nat>, steps: seq<Step>) returns (j: nat)
    requires Reachable(s) && Enabled(s, PollStart(max)) && BusyRun(Apply(s, PollStart(max)), steps)
    requires ConsumeOne(true) !in steps
    requires RunFrom(Apply(s, PollStart(max)), steps).php.Idle?
    ensures var e := RunFrom(Apply(s, PollStart(max)), steps);
      && s.log <= e.log && |s.log| <= j <= |e.log|
      && var queue := Tickets(s, s.ready) + e.log[|s.log|..j];
      && var k := Share(max, |queue|);
      && Tickets(e, e.ready) == queue[k..] + e.log[j..]
      && (forall i :: 0 <= i < k ==> queue[i] in e.places && Delivered(e.places[queue[i]]))
      && (forall t :: t in Done(e.places) && t !in Done(s.places) ==> t in queue[..k])
  {
    hide Reachable, Inv, Done, Without, Tickets, IsRun, RunFrom, BusyRun;
    ReachableInv(s);
    LogOf(s);
    ReadyIsOutstanding(s);
    ReachableStep(s, PollStart(max));
    var limit, done := LimitOf(max), Done(s.places);
    var s1 := Apply(s, PollStart(max));
    assert Waiting(s1, limit, done, s.log);
    j := PollEnds(s1, steps, limit, done, s.log, 0);
    var e := RunFrom(s1, steps);
    ReachableRun(s1, steps);
    PollResult(s, e, limit, j);
    assert TakenBy(limit, |Tickets(s, s.ready) + e.log[|s.log|..j]|) == Share(max, |Tickets(s, s.ready) + e.log[|s.log|..j]|);
  }

  lemma PollResult(s: State, e: State, limit: nat, j: nat)
    requires Inv(s) && Reachable(e) && Polled(e, limit, Done(s.places), s.log, j)
    requires Tickets(s, s.ready) == Outstanding(s)
    ensures var queue := Tickets(s, s.ready) + e.log[|s.log|..j];
      && var k := TakenBy(limit, |queue|);
      && Tickets(e, e.ready) == queue[k..] + e.log[j..]
      && (forall i :: 0 <= i < k ==> queue[i] in e.places && Delivered(e.places[queue[i]]))
      && (forall t :: t in Done(e.places) && t !in Done(s.places) ==> t in queue[..k])
  {
    hide Reachable, Inv, Done, Without, Tickets;
    ReachableInv(e);
    LogOf(s);
    LogOf(e);
    ReadyIsOutstanding(e);
    var done, a, b := Done(s.places), s.log, e.log[|s.log|..j];
    assert e.log[..j] == a + b && e.log == e.log[..j] + e.log[j..];
    NoDupConcat(e.log[..j], e.log[j..]);
    WithoutExtension(a, b, done);
    var queue := Without(e.log[..j], done);
    assert queue == Tickets(s, s.ready) + b;
    LogAfter(e.log, j, done, Done(e.places), TakenBy(limit, |queue|));
  }

  /** Between draining and the end of a poll nothing raises the descriptor but a signal or a requeue. */
  ghost predicate Dry(s: State) {
    s.php.Draining? || ((s.php.Drained? || s.php.Idle? || (s.php.Consuming? && !s.php.thrown)) && s.fd == 0)
  }

  lemma CallbackDry(s: State, f: FutureId)
    requires f in s.armed
    ensures RunCallback(s, f).fd == s.fd && RunCallback(s, f).php == s.php
  {
    hide Cas;
    CasFields(s.(armed := s.armed - {f}), s.armed[f]);
  }

  lemma ConsumeDry(s: State)
    requires Enabled(s, ConsumeOne(false))
    ensures Consume(s, false).fd == s.fd && Consume(s, false).php.Consuming? && !Consume(s, false).php.thrown
  {
    hide RegDispose;
    DisposeFd(s, s.php.batch[0], Discarded);
    DisposeFd(s, s.php.batch[0], Called);
    DisposeFd(s, s.php.batch[0], Collected);
  }

  lemma DisposeFd(s: State, r: RegId, w: Where)
    ensures RegDispose(s, r, w).fd == s.fd
  {
    hide Remove;
  }

  lemma DryStep(s: State, step: Step)
    requires Dry(s) && !s.php.Idle? && Enabled(s, step) && step != IoSignal && step != Requeue && step != ConsumeOne(true)
    requires s.php.mode.Deliver?
    ensures Dry(Apply(s, step)) && (Apply(s, step).php.Idle? || Apply(s, step).php.mode == s.php.mode)
  {
    hide RunCallback, Consume, ReRegister, RegCreate, SetCallback, Recheck, CasInAdd, RegDispose, Settle, Tickets, ItemFutures, TicketOf;
    if step.IoCallback? {
      CallbackDry(s, step.f);
    } else if step.ConsumeOne? {
      ConsumeDry(s);
      ConsumeMode(s);
    }
  }

  lemma ConsumeMode(s: State)
    requires Enabled(s, ConsumeOne(false))
    ensures Consume(s, false).php.Consuming? && Consume(s, false).php.mode == s.php.mode
  {
    hide RegDispose;
  }

  /** A poll that takes everything, while no completion is signalled, leaves the descriptor unreadable. */
  lemma {:induction false} PollDrains(s: State, steps: seq<Step>)
    requires Dry(s) && (s.php.Idle? || s.php.mode.Deliver?) && BusyRun(s, steps)
    requires IoSignal !in steps && Requeue !in steps && ConsumeOne(true) !in steps
    ensures RunFrom(s, steps).php.Idle? ==> RunFrom(s, steps).fd == 0
    decreases |steps|
  {
    hide Enabled, Apply;
    if steps != [] {
      assert steps[0] in steps;
      DryStep(s, steps[0]);
      PollDrains(Apply(s, steps[0]), steps[1..]);
    }
  }

  // ---- what comes out is what was asked for --------------------------------

  datatype Ask = Ask(future: FutureId, callback: bool)

  function AskedBy(step: Step): seq<Ask> { if step.AddCreate? then [Ask(step.f, step.callback)] else [] }

  /** The futures given to add() along a run, in order; the i-th one gets ticket i. */
  ghost function Asks(s: State, steps: seq<Step>): seq<Ask>
    requires IsRun(s, steps)
    decreases |steps|
  {
    if steps == [] then [] else AskedBy(steps[0]) + Asks(Apply(s, steps[0]), steps[1..])
  }

  predicate Asked(asks: seq<Ask>, t: Ticket, f: FutureId, callback: bool) { t < |asks| && asks[t] == Ask(f, callback) }

  ghost predicate RegsAsked(regs: map<RegId, Reg>, asks: seq<Ask>) {
    forall r :: r in regs ==> Asked(asks, regs[r].ticket, regs[r].future, regs[r].hasCallback)
  }

  ghost predicate ItemsAsked(items: seq<Item>, asks: seq<Ask>) {
    forall i :: 0 <= i < |items| ==> Asked(asks, items[i].ticket, items[i].future, false)
  }

  predicate PlaceAsked(w: Where, ask: Ask) {
    (w.Called? ==> ask.callback) && (w.Collected? || w.Returned? ==> !ask.callback)
  }

  ghost predicate PlacesAsked(places: map<Ticket, Where>, asks: seq<Ask>) {
    forall t :: t in places ==> t < |asks| && PlaceAsked(places[t], asks[t])
  }

  ghost predicate AsksOk(s: State, asks: seq<Ask>) {
    && |asks| == s.nextTicket && RegsAsked(s.regs, asks) && ItemsAsked(Array(s.php), asks) && PlacesAsked(s.places, asks)
  }

  lemma AsksGrow(s: State, asks: seq<Ask>, ask: Ask)
    requires AsksOk(s, asks)
    ensures RegsAsked(s.regs, asks + [ask]) && ItemsAsked(Array(s.php), asks + [ask]) && PlacesAsked(s.places, asks + [ask])
  {
  }

  lemma CreateAsked(s: State, f: FutureId, callback: bool, asks: seq<Ask>)
    requires AsksOk(s, asks) && Enabled(s, AddCreate(f, callback))
    ensures AsksOk(Apply(s, AddCreate(f, callback)), asks + [Ask(f, callback)])
  {
    AsksGrow(s, asks, Ask(f, callback));
  }

  lemma DisposeAsked(s: State, r: RegId, w: Where, asks: seq<Ask>)
    requires AsksOk(s, asks) && (r in s.regs ==> PlaceAsked(w, Ask(s.regs[r].future, s.regs[r].hasCallback)))
    ensures AsksOk(RegDispose(s, r, w), asks)
  {
    hide Remove;
  }

  lemma ConsumeAsked(s: State, throws: bool, asks: seq<Ask>)
    requires AsksOk(s, asks) && Enabled(s, ConsumeOne(throws))
    ensures AsksOk(Consume(s, throws), asks)
  {
    hide RegDispose, RegsAsked, PlacesAsked;
    var r := s.php.batch[0];
    if r in s.regs {
      var w := if s.php.mode.Discard? then Discarded else if s.regs[r].hasCallback then Called else Collected;
      DisposeAsked(s, r, w, asks);
      assert Asked(asks, s.regs[r].ticket, s.regs[r].future, s.regs[r].hasCallback) by { RegAsked(s, r, asks); }
      DisposeFrame(s, r, w);
    }
  }

  lemma RegAsked(s: State, r: RegId, asks: seq<Ask>)
    requires AsksOk(s, asks) && r in s.regs
    ensures Asked(asks, s.regs[r].ticket, s.regs[r].future, s.regs[r].hasCallback)
  {
  }

  lemma DisposeFrame(s: State, r: RegId, w: Where)
    ensures RegDispose(s, r, w).php == s.php && RegDispose(s, r, w).nextTicket == s.nextTicket
  {
  }

  lemma HandOverAsked(s: State, asks: seq<Ask>)
    requires AsksOk(s, asks) && s.php.Consuming?
    ensures AsksOk(HandOver(s), asks)
  {
    forall t | t in s.places && t in ItemTickets(s.php.out) ensures !asks[t].callback {
      var i :| 0 <= i < |s.php.out| && s.php.out[i].ticket == t;
      assert Asked(asks, s.php.out[i].ticket, s.php.out[i].future, false);
    }
  }

  lemma ReRegisterAsked(s: State, asks: seq<Ask>)
    requires AsksOk(s, asks) && Enabled(s, ReclaimOne)
    ensures AsksOk(ReRegister(s), asks)
  {
  }

  /** A step that keeps tickets, futures and callbacks of the records and adds nothing to the array. */
  lemma FrameAsked(s: State, s1: State, asks: seq<Ask>)
    requires AsksOk(s, asks) && SameRegs(s.regs, s1.regs) && s1.places == s.places && s1.nextTicket == s.nextTicket
    requires Array(s1.php) == Array(s.php) || Array(s1.php) == []
    ensures AsksOk(s1, asks)
  {
  }

  predicate Plain(step: Step) {
    !step.AddCreate? && !step.ConsumeOne? && !step.Return? && !step.ReclaimOne? && !step.AddRecheck?
  }

  lemma FlagSet(regs: map<RegId, Reg>, r: RegId)
    ensures SameRegs(regs, regs) && (r in regs ==> SameRegs(regs, regs[r := regs[r].(enqueued := true)]))
  {
  }

  lemma CasKeeps(s: State, r: RegId)
    ensures var s1 := Cas(s, r).0; SameRegs(s.regs, s1.regs) && s1.places == s.places && s1.nextTicket == s.nextTicket
  {
    hide SameRegs;
    FlagSet(s.regs, r);
  }

  lemma CasFrame(s: State)
    requires s.php.AddEnqueue?
    ensures var s1 := CasInAdd(s); SameRegs(s.regs, s1.regs) && s1.places == s.places && s1.nextTicket == s.nextTicket && Array(s1.php) == []
  {
    hide Cas, SameRegs;
    CasKeeps(s, s.php.r);
  }

  ghost predicate SameLedger(s: State, s1: State) {
    && s1.regs == s.regs && s1.places == s.places && s1.nextTicket == s.nextTicket
    && (Array(s1.php) == Array(s.php) || Array(s1.php) == [])
  }

  lemma SetCallbackFrame(s: State, reply: Reply)
    requires Enabled(s, AddSetCallback(reply))
    ensures SameLedger(s, SetCallback(s, reply))
  {
    SetCallbackRegs(s, reply);
    assert s.php.AddCreated?;
    match reply
    case Accepted =>
    case AcceptedAndRun =>
    case Refused =>
  }

  lemma AddFrame(s: State, step: Step)
    requires Enabled(s, step)
    requires step.UseNotifier? || step.AddReject? || step.AddSetCallback? || step.AddSkipCallback? || step.AddPush?
    ensures SameLedger(s, Apply(s, step))
  {
    hide RegCreate, Recheck, Consume, HandOver, ReRegister, SpliceReady, PutBack, PushReclaimed, RunCallback, CasInAdd, TicketOf,
      SetCallback;
    if step.AddSetCallback? {
      SetCallbackFrame(s, step.reply);
    }
  }

  lemma PollFrame(s: State, step: Step)
    requires Enabled(s, step) && Plain(step) && !ByDriver(step)
    requires !(step.UseNotifier? || step.AddReject? || step.AddSetCallback? || step.AddSkipCallback? || step.AddPush? || step.AddCas?)
    ensures SameLedger(s, Apply(s, step))
  {
    hide RegCreate, Recheck, Consume, HandOver, ReRegister, SetCallback, Tickets, RunCallback, CasInAdd, Append, ItemFutures;
  }

  lemma PlainFrame(s: State, step: Step)
    requires Enabled(s, step) && Plain(step) && !ByDriver(step) && !step.AddCas?
    ensures SameLedger(s, Apply(s, step))
  {
    hide Enabled, Apply, SameLedger, Plain;
    if step.UseNotifier? || step.AddReject? || step.AddSetCallback? || step.AddSkipCallback? || step.AddPush? {
      AddFrame(s, step);
    } else {
      PollFrame(s, step);
    }
  }

  lemma OtherAsked(s: State, step: Step, asks: seq<Ask>)
    requires AsksOk(s, asks) && Enabled(s, step) && Plain(step)
    ensures AsksOk(Apply(s, step), asks)
  {
    hide AsksOk, Enabled, CasInAdd, Plain;
    assert step.AddCas? ==> s.php.AddEnqueue? by { CasEnabled(s, step); }
    if step.AddCas? {
      CasFrame(s);
      FrameAsked(s, CasInAdd(s), asks);
    } else {
      hide Apply;
      if ByDriver(step) {
        DriverStepFrame(s, step);
      } else {
        PlainFrame(s, step);
      }
      FrameAsked(s, Apply(s, step), asks);
    }
  }

  lemma CasEnabled(s: State, step: Step)
    requires Enabled(s, step)
    ensures step.AddCas? ==> s.php.AddEnqueue?
  {
  }

  lemma RecheckAsked(s: State, asks: seq<Ask>)
    requires AsksOk(s, asks) && s.php.AddDecide?
    ensures AsksOk(Recheck(s), asks)
  {
    hide RegDispose;
    DisposeAsked(s, s.php.r, Withdrawn, asks);
    DisposeFrame(s, s.php.r, Withdrawn);
  }

  lemma StepAsked(s: State, step: Step, asks: seq<Ask>)
    requires AsksOk(s, asks) && Enabled(s, step)
    ensures AsksOk(Apply(s, step), asks + AskedBy(step))
  {
    hide AsksOk, RegDispose, Consume, HandOver, ReRegister, Recheck, RegCreate, SpliceReady, PutBack, PushReclaimed;
    assert asks + [] == asks;
    if step.AddCreate? {
      CreateAsked(s, step.f, step.callback, asks);
    } else if step.ConsumeOne? {
      ConsumeAsked(s, step.throws, asks);
    } else if step.Return? {
      HandOverAsked(s, asks);
    } else if step.ReclaimOne? {
      ReRegisterAsked(s, asks);
    } else if step.AddRecheck? {
      RecheckAsked(s, asks);
    } else {
      OtherAsked(s, step, asks);
    }
  }

  lemma {:induction false} RunAsked(s: State, steps: seq<Step>, asks: seq<Ask>)
    requires IsRun(s, steps) && AsksOk(s, asks)
    ensures AsksOk(RunFrom(s, steps), asks + Asks(s, steps))
    decreases |steps|
  {
    hide AsksOk, Enabled, Apply, AskedBy;
    if steps == [] {
      assert asks + [] == asks;
    } else {
      StepAsked(s, steps[0], asks);
      RunAsked(Apply(s, steps[0]), steps[1..], asks + AskedBy(steps[0]));
      assert (asks + AskedBy(steps[0])) + Asks(Apply(s, steps[0]), steps[1..]) ==
             asks + (AskedBy(steps[0]) + Asks(Apply(s, steps[0]), steps[1..]));
    }
  }

  /**
   * Along every run from a fresh reactor the i-th accepted add() is ticket i. It is called
   * only if a callback was given and returned only if none was, and every record and every
   * collected item, also one that was put back, is for the future it was given.
   */
  lemma DeliveredAsAsked(values: set<FutureId>, strict: bool, steps: seq<Step>, t: Ticket)
    requires IsRun(Init(values, strict), steps)
    ensures var e, asks := RunFrom(Init(values, strict), steps), Asks(Init(values, strict), steps);
      && |asks| == e.nextTicket
      && (t in e.places ==> t < |asks|)
      && (t in e.places && e.places[t].Called? ==> asks[t].callback)
      && (t in e.places && e.places[t].Returned? ==> !asks[t].callback)
      && (forall r :: r in e.regs && e.regs[r].ticket == t ==> t < |asks| && asks[t] == Ask(e.regs[r].future, e.regs[r].hasCallback))
      && (forall i :: 0 <= i < |Array(e.php)| && Array(e.php)[i].ticket == t ==> t < |asks| && asks[t] == Ask(Array(e.php)[i].future, false))
  {
    hide Enabled, Apply, IsRun, RunFrom, Asks;
    var s := Init(values, strict);
    assert AsksOk(s, []);
    RunAsked(s, steps, []);
    assert [] + Asks(s, steps) == Asks(s, steps);
    assert AsksOk(RunFrom(s, steps), Asks(s, steps));
  }

  // ---- a future is claimed once --------------------------------------------

  /** No future that the reactor has, or is about to hand out, owns a descriptor of its own. */
  ghost predicate ClaimsOk(s: State) {
    && (forall f :: f in s.slot ==> f !in s.notified)
    && (forall i :: 0 <= i < |Array(s.php)| ==> Array(s.php)[i].future !in s.notified)
  }

  lemma ClaimsFrame(s: State, s1: State)
    requires ClaimsOk(s) && s1.notified == s.notified && (forall f :: f in s1.slot ==> f in s.slot)
    requires Array(s1.php) == Array(s.php) || Array(s1.php) == []
    ensures ClaimsOk(s1)
  {
  }

  lemma DisposeClaims(s: State, r: RegId, w: Where)
    ensures var s1 := RegDispose(s, r, w); s1.notified == s.notified && s1.php == s.php && forall f :: f in s1.slot ==> f in s.slot
  {
    hide Remove;
  }

  lemma SlotOf(s: State, r: RegId)
    requires Inv(s) && r in s.regs
    ensures s.regs[r].future in s.slot
  {
    hide Lists, Pins, Queues, Ledger, Logged, Order, Line, Armed, Awaiting, AddState, Wakeup, Taken, Waited, Batch;
  }

  lemma ConsumeClaims(s: State, throws: bool)
    requires ClaimsOk(s) && Enabled(s, ConsumeOne(throws))
    requires s.php.batch[0] in s.regs ==> s.regs[s.php.batch[0]].future in s.slot
    ensures ClaimsOk(Consume(s, throws))
  {
    hide RegDispose, ClaimsOk;
    var r, s1 := s.php.batch[0], Consume(s, throws);
    if r in s.regs {
      DisposeClaims(s, r, Discarded);
      DisposeClaims(s, r, Called);
      DisposeClaims(s, r, Collected);
      if Array(s1.php) == Array(s.php) {
        ClaimsFrame(s, s1);
      } else {
        ClaimsItem(s, s1, Item(s.regs[r].future, s.regs[r].ticket));
      }
    } else {
      ClaimsFrame(s, s1);
    }
  }

  lemma ClaimsItem(s: State, s1: State, item: Item)
    requires ClaimsOk(s) && s1.notified == s.notified && (forall f :: f in s1.slot ==> f in s.slot)
    requires Array(s1.php) == Array(s.php) + [item] && item.future in s.slot
    ensures ClaimsOk(s1)
  {
  }

  lemma ReRegisterClaims(s: State)
    requires ClaimsOk(s) && Enabled(s, ReclaimOne)
    ensures ClaimsOk(ReRegister(s))
  {
    assert Array(s.php)[|s.php.head|].future !in s.notified;
  }

  lemma CasFields(s: State, r: RegId)
    ensures var s1 := Cas(s, r).0; s1.notified == s.notified && s1.slot == s.slot && s1.fd == s.fd && s1.php == s.php
  {
  }

  lemma CasClaims(s: State)
    requires s.php.AddEnqueue?
    ensures CasInAdd(s).notified == s.notified && CasInAdd(s).slot == s.slot && Array(CasInAdd(s).php) == []
  {
    hide Cas;
    CasFields(s, s.php.r);
  }

  lemma DriverClaims(s: State, step: Step)
    requires Enabled(s, step) && ByDriver(step)
    ensures Apply(s, step).notified == s.notified
  {
    hide Cas, TicketOf;
    if step.IoCallback? {
      CasFields(s.(armed := s.armed - {step.f}), s.armed[step.f]);
    }
  }

  lemma AddClaims(s: State, step: Step)
    requires ClaimsOk(s) && Enabled(s, step)
    requires step.UseNotifier? || step.AddReject? || step.AddCreate? || step.AddSetCallback? || step.AddSkipCallback? || step.AddPush?
    ensures ClaimsOk(Apply(s, step))
  {
    hide Recheck, Consume, HandOver, ReRegister, SpliceReady, PutBack, PushReclaimed, RunCallback, CasInAdd, TicketOf,
      SetCallback;
    if step.AddSetCallback? {
      SetCallbackClaims(s, step.reply);
    }
  }

  lemma SetCallbackClaims(s: State, reply: Reply)
    requires Enabled(s, AddSetCallback(reply))
    ensures var s1 := SetCallback(s, reply); s1.slot == s.slot && s1.notified == s.notified && Array(s1.php) == []
  {
    match reply
    case Accepted =>
    case AcceptedAndRun =>
    case Refused =>
  }

  lemma PollClaims(s: State, step: Step)
    requires ClaimsOk(s) && Enabled(s, step)
    requires step.PollStart? || step.ResetStart? || step.ResetWait? || step.ResetAgain? || step.ResetDone? || step.DrainRead?
          || step.DrainEmpty? || step.Splice? || step.Requeue? || step.Return? || step.ReclaimStart? || step.ReclaimOne?
          || step.ReclaimPush?
    ensures ClaimsOk(Apply(s, step))
  {
    hide RegDispose, Recheck, Consume, SetCallback, Tickets, RunCallback, CasInAdd, Append, ItemFutures, Settle, ReRegister,
      ClaimsOk;
    if step.ReclaimOne? {
      ReRegisterClaims(s);
    } else {
      ClaimsFrame(s, Apply(s, step));
    }
  }

  lemma StepClaims(s: State, step: Step)
    requires Inv(s) && ClaimsOk(s) && Enabled(s, step)
    ensures ClaimsOk(Apply(s, step))
  {
    hide Inv, Consume, CasInAdd, RegDispose, HandOver, ReRegister, SpliceReady, PutBack, PushReclaimed, RunCallback, SetCallback, Append,
      RegCreate, ClaimsOk;
    if ByDriver(step) {
      DriverStepFrame(s, step);
      DriverClaims(s, step);
      ClaimsFrame(s, Apply(s, step));
    } else if step.ConsumeOne? {
      if s.php.batch[0] in s.regs {
        SlotOf(s, s.php.batch[0]);
      }
      ConsumeClaims(s, step.throws);
    } else if step.AddCas? {
      CasClaims(s);
      ClaimsFrame(s, CasInAdd(s));
    } else if step.AddRecheck? {
      DisposeClaims(s, s.php.r, Withdrawn);
      ClaimsFrame(s, Recheck(s));
    } else if step.UseNotifier? || step.AddReject? || step.AddCreate? || step.AddSetCallback? || step.AddSkipCallback? || step.AddPush? {
      AddClaims(s, step);
    } else {
      PollClaims(s, step);
    }
  }

  lemma {:induction false} RunClaims(s: State, steps: seq<Step>)
    requires Inv(s) && ClaimsOk(s) && IsRun(s, steps)
    ensures ClaimsOk(RunFrom(s, steps))
    decreases |steps|
  {
    hide Inv, ClaimsOk, Enabled, Apply;
    if steps != [] {
      StepInv(s, steps[0]);
      StepClaims(s, steps[0]);
      RunClaims(Apply(s, steps[0]), steps[1..]);
    }
  }

  /** A future is in the reactor or has a descriptor of its own, never both; add() is refused exactly for those. */
  lemma ClaimedOnce(s: State, f: FutureId, callback: bool)
    requires Reachable(s)
    ensures !(f in s.slot && f in s.notified)
    ensures s.php.Idle? ==> (Enabled(s, AddCreate(f, callback)) <==> f !in s.slot && f !in s.notified)
    ensures s.php.Idle? ==> (Enabled(s, AddReject(f)) <==> f in s.slot || f in s.notified)
  {
    hide Reachable;
    ReachableClaims(s);
  }

  lemma ReachableClaims(s: State)
    requires Reachable(s)
    ensures ClaimsOk(s)
  {
    hide Inv, ClaimsOk, Enabled, Apply, Init;
    var values: set<FutureId> :| Reaches(Init(values, true), s);
    var s0 := Init(values, true);
    var steps :| IsRun(s0, steps) && s == RunFrom(s0, steps);
    InitInv(values);
    InitClaims(values);
    RunClaims(s0, steps);
  }

  lemma InitClaims(values: set<FutureId>)
    ensures ClaimsOk(Init(values, true))
  {
  }

  // ---- the PHP thread goes on ----------------------------------------------

  /** A future the reset waits for has not resolved. */
  ghost predicate Unresolved(s: State) {
    exists r :: r in s.registered && r in s.regs && s.regs[r].future !in s.values && s.regs[r].future !in s.visible
  }

  /** What the PHP thread does next, the callbacks it runs returning. */
  function NextPhp(s: State): Step {
    match s.php
    case Idle => PollStart(None)
    case AddCreated(r) => if r in s.regs && s.regs[r].future in s.values then AddSkipCallback else AddSetCallback(Refused)
    case AddDecide(_, _) => AddRecheck
    case AddEnqueue(_, _) => AddCas
    case AddAppend(_, _) => AddPush
    case Draining(_) => if s.fd > 0 then DrainRead else DrainEmpty
    case Drained(_) => Splice
    case Consuming(mode, batch, _, _, out, thrown) =>
      if batch != [] then (if thrown || CapReached(s.php) then Requeue else ConsumeOne(false))
      else if mode.Discard? then ResetAgain
      else if thrown && out != [] then ReclaimStart else Return
    case Reclaiming(head, all) => if |head| < |all| then ReclaimOne else ReclaimPush
    case Resetting => if s.registered == [] then ResetDone else ResetWait
  }

  /**
   * The PHP thread is never stuck: its next step is enabled, or an IO thread that is about
   * to signal holds the lock, or a reset waits for a future the driver has not resolved.
   * Whether a callback throws is open until it has run.
   */
  lemma PhpGoesOn(s: State)
    requires Reachable(s)
    ensures Enabled(s, NextPhp(s)) || (s.lock.Some? && Enabled(s, IoSignal)) || (s.php.Resetting? && Unresolved(s))
    ensures s.php.Consuming? && s.php.mode.Deliver? && NextPhp(s) == ConsumeOne(false) ==>
              s.php.batch[0] in s.regs && (s.regs[s.php.batch[0]].hasCallback <==> Enabled(s, ConsumeOne(true)))
  {
    hide Reachable, Inv;
    ReachableInv(s);
    AddingKnown(s);
    if s.php.Consuming? && s.php.batch != [] {
      NextTaken(s);
    }
  }

  lemma AddingKnown(s: State)
    requires Inv(s)
    ensures s.php.AddCreated? ==> s.php.r in s.regs
  {
    hide Lists, Slots, Pins, Queues, Ledger, Logged, Order, Line, Armed, Awaiting, Wakeup, Taken, Waited, Batch;
  }
}

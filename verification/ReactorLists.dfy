/**
 * The reactor's records and lists as the PHP thread updates them in place: a doubly
 * linked registered-list, a singly linked ready-list with head and tail, and the
 * functions that work on them. User callbacks are a function from a future to
 * whether its callback throws.
 */
module ReactorLists {
  import opened Sequences
  import ReactorModel

  type FutureId = nat

  class Reg {
    var refcount: int
    var enqueued: bool
    const future: FutureId
    const hasCallback: bool
    var nextReady: Reg?
    var prevReg: Reg?
    var nextReg: Reg?

    constructor (future: FutureId, hasCallback: bool)
      ensures this.future == future && this.hasCallback == hasCallback
      ensures refcount == 2 && !enqueued && nextReady == null && prevReg == null && nextReg == null
    {
      this.future, this.hasCallback := future, hasCallback;
      refcount, enqueued := 2, false;
      nextReady, prevReg, nextReg := null, null, null;
    }
  }

  /** The i-th record of a list, or null outside it. */
  ghost function At(rs: seq<Reg>, i: int): Reg? {
    if 0 <= i < |rs| then rs[i] else null
  }

  /** `rs` is the registered-list that starts at `head`. */
  ghost predicate Registers(rs: seq<Reg>, head: Reg?)
    reads (set r | r in rs)`prevReg, (set r | r in rs)`nextReg
  {
    && NoDup(rs)
    && head == At(rs, 0)
    && (forall i {:trigger rs[i].nextReg} :: 0 <= i < |rs| ==> rs[i].nextReg == At(rs, i + 1))
    && (forall i {:trigger rs[i].prevReg} :: 0 <= i < |rs| ==> rs[i].prevReg == At(rs, i - 1))
  }

  /** `rs` is the ready-list that starts at `head`. */
  ghost predicate Chains(rs: seq<Reg>, head: Reg?)
    reads (set r | r in rs)`nextReady
  {
    && NoDup(rs)
    && head == At(rs, 0)
    && (forall i {:trigger rs[i].nextReady} :: 0 <= i < |rs| ==> rs[i].nextReady == At(rs, i + 1))
  }

  function Futures(rs: seq<Reg>): seq<FutureId> {
    seq(|rs|, i requires 0 <= i < |rs| => rs[i].future)
  }

  /** `rs` with its k-th record bypassed by its neighbours. */
  ghost predicate Bypassed(rs: seq<Reg>, k: nat, head: Reg?)
    reads (set r | r in rs)`prevReg, (set r | r in rs)`nextReg
  {
    && head == At(rs, if k == 0 then 1 else 0)
    && (forall i {:trigger rs[i].nextReg} :: 0 <= i < |rs| && i != k ==>
          rs[i].nextReg == At(rs, if i == k - 1 then k + 1 else i + 1))
    && (forall i {:trigger rs[i].prevReg} :: 0 <= i < |rs| && i != k ==>
          rs[i].prevReg == At(rs, if i == k + 1 then k - 1 else i - 1))
  }

  /** Neighbours in `rs` without its k-th record, in terms of `rs`. */
  lemma DropAt(rs: seq<Reg>, k: nat, i: int)
    requires k < |rs|
    ensures At(rs[..k] + rs[k + 1..], i) == At(rs, if i < k then i else i + 1)
  {
  }

  lemma Relinked(rs: seq<Reg>, k: nat, head: Reg?)
    requires NoDup(rs) && k < |rs| && Bypassed(rs, k, head)
    ensures Registers(rs[..k] + rs[k + 1..], head)
  {
    var ns := rs[..k] + rs[k + 1..];
    assert NoDup(ns) by {
      RemoveAt(rs, k);
      RemoveMembers(rs, rs[k]);
    }
    hide NoDup;
    DropAt(rs, k, 0);
    forall i | 0 <= i < |ns| ensures ns[i].nextReg == At(ns, i + 1) && ns[i].prevReg == At(ns, i - 1) {
      DropAt(rs, k, i);
      DropAt(rs, k, i + 1);
      DropAt(rs, k, i - 1);
      var j := if i < k then i else i + 1;
      assert ns[i] == rs[j] && j != k;
      assert rs[j].nextReg == At(rs, if j == k - 1 then k + 1 else j + 1);
      assert rs[j].prevReg == At(rs, if j == k + 1 then k - 1 else j - 1);
    }
  }

  /** The pointer surgery of reg_unregister. */
  method Unlink(ghost rs: seq<Reg>, head: Reg?, r: Reg, ghost k: nat) returns (head': Reg?)
    requires Registers(rs, head) && k < |rs| && rs[k] == r
    modifies (set x | x in rs)`prevReg, (set x | x in rs)`nextReg
    ensures Bypassed(rs, k, head')
  {
    head' := head;
    assert r.prevReg == At(rs, k - 1) && r.nextReg == At(rs, k + 1);
    if r.prevReg != null {
      r.prevReg.nextReg := r.nextReg;
    } else {
      head' := r.nextReg;
    }
    if r.nextReg != null {
      r.nextReg.prevReg := r.prevReg;
    }
    r.prevReg := null;
    r.nextReg := null;
  }

  lemma ListDistinct(rs: seq<Reg>, head: Reg?)
    requires Registers(rs, head)
    ensures NoDup(rs)
  {
  }

  /** The pointer surgery of reg_create. */
  method LinkFront(ghost rs: seq<Reg>, head: Reg?, r: Reg)
    requires Registers(rs, head) && r !in rs && r.prevReg == null
    modifies r`nextReg, (set x | x in rs)`prevReg
    ensures r.nextReg == head && r.prevReg == null
    ensures rs != [] ==> rs[0].prevReg == r
    ensures forall i {:trigger rs[i].prevReg} :: 1 <= i < |rs| ==> rs[i].prevReg == rs[i - 1]
    ensures forall i {:trigger rs[i].nextReg} :: 0 <= i < |rs| ==> rs[i].nextReg == At(rs, i + 1)
  {
    r.nextReg := head;
    if head != null {
      head.prevReg := r;
    }
  }

  lemma Prepended(rs: seq<Reg>, r: Reg)
    requires NoDup(rs) && r !in rs && r.nextReg == At(rs, 0) && r.prevReg == null
    requires rs != [] ==> rs[0].prevReg == r
    requires forall i {:trigger rs[i].prevReg} :: 1 <= i < |rs| ==> rs[i].prevReg == rs[i - 1]
    requires forall i {:trigger rs[i].nextReg} :: 0 <= i < |rs| ==> rs[i].nextReg == At(rs, i + 1)
    ensures Registers([r] + rs, r)
  {
    var ns := [r] + rs;
    assert NoDup(ns) by { NoDupConcat([r], rs); }
    hide NoDup;
    forall i | 0 <= i < |ns| ensures ns[i].nextReg == At(ns, i + 1) && ns[i].prevReg == At(ns, i - 1) {
      if i > 0 {
        assert ns[i] == rs[i - 1];
        assert rs[i - 1].nextReg == At(rs, i);
        assert i > 1 ==> rs[i - 1].prevReg == rs[i - 2];
      }
    }
  }

  class Reactor {
    var refcount: int
    var readyHead: Reg?
    var readyTail: Reg?
    var registered: Reg?
    var pending: int
    var fd: nat
    ghost var Registered: seq<Reg>
    ghost var Ready: seq<Reg>

    /** The registered-list and everything counted from it. */
    ghost predicate RegisteredOk()
      reads this`registered, this`pending, this`refcount, this`Registered
      reads (set r | r in Registered)`prevReg, (set r | r in Registered)`nextReg, (set r | r in Registered)`refcount
    {
      && Registers(Registered, registered)
      && pending == |Registered| && refcount == 1 + |Registered|
      && (forall r :: r in Registered ==> r.refcount == 2)
    }

    ghost predicate ReadyOk()
      reads this`readyHead, this`readyTail, this`Ready, (set r | r in Ready)`nextReady
    {
      Chains(Ready, readyHead) && readyTail == At(Ready, |Ready| - 1)
    }

    ghost predicate Valid()
      reads this, Registered, Ready
    {
      RegisteredOk() && ReadyOk() && forall r :: r in Ready ==> r in Registered
    }

    constructor ()
      ensures Valid() && Registered == [] && Ready == [] && fd == 0
    {
      refcount, readyHead, readyTail, registered, pending, fd := 1, null, null, null, 0, 0;
      Registered, Ready := [], [];
    }

    /** reg_create: link a fresh record in front of the registered-list. */
    method RegCreate(future: FutureId, hasCallback: bool) returns (r: Reg)
      requires RegisteredOk()
      modifies this`refcount, this`registered, this`pending, this`Registered, (set x | x in Registered)`prevReg
      ensures RegisteredOk() && fresh(r) && Registered == [r] + old(Registered)
      ensures r.future == future && r.hasCallback == hasCallback && !r.enqueued && r.nextReady == null
    {
      r := new Reg(future, hasCallback);
      refcount := refcount + 1;
      LinkFront(Registered, registered, r);
      Prepended(Registered, r);
      registered := r;
      pending := pending + 1;
      Registered := [r] + Registered;
    }

    /** reg_unregister and reg_release: unlink a record from wherever it is and drop both references. */
    method Dispose(r: Reg)
      requires RegisteredOk() && r in Registered
      modifies this`registered, this`pending, this`Registered, this`refcount, r`refcount,
        (set x | x in Registered)`prevReg, (set x | x in Registered)`nextReg
      ensures RegisteredOk() && Registered == Remove(old(Registered), r) && |Registered| == old(|Registered|) - 1
      ensures forall x :: x in Registered <==> x in old(Registered) && x != r
      ensures r.refcount == 0
    {
      hide Registers, Bypassed, NoDup, Remove;
      ghost var k :| 0 <= k < |Registered| && Registered[k] == r;
      ghost var was := Registered;
      ListDistinct(was, registered);
      RemoveAt(was, k);
      RemoveMembers(was, r);
      registered := Unlink(Registered, registered, r, k);
      Relinked(was, k, registered);
      pending := pending - 1;
      Registered := Registered[..k] + Registered[k + 1..];
      r.refcount := r.refcount - 2;
      if r.refcount == 0 {
        refcount := refcount - 1;
      }
    }

    /** reg_enqueue: the first caller appends the record and signals; later ones do nothing. */
    method Enqueue(r: Reg) returns (won: bool)
      requires ReadyOk() && (!r.enqueued ==> r !in Ready)
      modifies this`readyHead, this`readyTail, this`Ready, this`fd, r`enqueued, r`nextReady, (set x | x in Ready)`nextReady
      ensures ReadyOk() && won == !old(r.enqueued) && r.enqueued
      ensures Ready == old(Ready) + (if won then [r] else [])
      ensures fd == old(fd) + (if won then 1 else 0)
    {
      won := !r.enqueued;
      if won {
        r.enqueued := true;
        r.nextReady := null;
        if readyTail != null {
          readyTail.nextReady := r;
        } else {
          readyHead := r;
        }
        readyTail := r;
        ChainAppended(Ready, r, readyHead);
        Ready := Ready + [r];
        fd := fd + 1;
      }
    }

    /** add() of a future that has resolved on construction: straight to the ready-list. */
    method AddResolved(future: FutureId, hasCallback: bool) returns (r: Reg)
      requires Valid()
      modifies this, Registered
      ensures Valid() && fresh(r) && Is(r, future, hasCallback)
      ensures Registered == [r] + old(Registered) && Ready == old(Ready) + [r] && fd == old(fd) + 1
    {
      hide Registers, Chains, NoDup;
      r := RegCreate(future, hasCallback);
      var won := Enqueue(r);
    }

    /** reactor_splice: take the whole ready-list. */
    method Splice() returns (head: Reg?, ghost batch: seq<Reg>)
      requires ReadyOk()
      modifies this`readyHead, this`readyTail, this`Ready
      ensures ReadyOk() && Ready == [] && batch == old(Ready) && Chains(batch, head)
    {
      head, batch := readyHead, Ready;
      readyHead, readyTail, Ready := null, null, [];
    }

    /** reactor_requeue: put an unconsumed remainder back in front and signal. */
    method Requeue(head: Reg, ghost batch: seq<Reg>)
      requires ReadyOk() && Chains(batch, head) && batch != [] && forall r :: r in batch ==> r !in Ready
      modifies this`readyHead, this`readyTail, this`Ready, this`fd, (set x | x in batch)`nextReady
      ensures ReadyOk() && Ready == batch + old(Ready) && fd == old(fd) + 1
    {
      var tail := head;
      ghost var k := 0;
      while tail.nextReady != null
        invariant 0 <= k < |batch| && tail == batch[k]
        decreases |batch| - k
      {
        tail := tail.nextReady;
        k := k + 1;
      }
      assert k == |batch| - 1;
      tail.nextReady := readyHead;
      ChainsJoined(batch, Ready, readyHead);
      readyHead := head;
      if readyTail == null {
        readyTail := tail;
      }
      Ready := batch + Ready;
      fd := fd + 1;
    }

    /**
     * reactor_consume: dispose of records from the front of `batch` until it is used up,
     * `max` (0 = no limit) are taken, or a callback throws. `k` counts them.
     */
    method Consume(head: Reg?, ghost batch: seq<Reg>, discard: bool, max: nat, throws: FutureId -> bool)
      returns (rest: Reg?, out: seq<FutureId>, called: seq<FutureId>, thrown: bool, ghost k: nat)
      requires RegisteredOk() && Chains(batch, head) && forall r :: r in batch ==> r in Registered
      modifies this`registered, this`pending, this`Registered, this`refcount, (set x | x in Registered)`refcount,
        (set x | x in Registered)`prevReg, (set x | x in Registered)`nextReg
      ensures RegisteredOk() && k <= |batch| && |Registered| == old(|Registered|) - k
      ensures Left(old(Registered), Registered, batch, k)
      ensures rest == At(batch, k)
      ensures out == (if discard then [] else Collected(batch[..k]))
      ensures called == (if discard then [] else Called(batch[..k]))
      ensures StopsAt(batch, k, discard, max, throws, thrown)
      ensures thrown <==> !discard && exists i :: 0 <= i < k && batch[i].hasCallback && throws(batch[i].future)
      ensures forall i :: 0 <= i < k - 1 && batch[i].hasCallback && !discard ==> !throws(batch[i].future)
      ensures !thrown ==> k == if max != 0 && max < |batch| then max else |batch|
    {
      hide RegisteredOk, NoDup, Left, Remove, Collected, Called;
      rest, out, called, thrown, k := head, [], [], false, 0;
      var taken := 0;
      LeftStart(Registered, batch);
      NothingDispatched(batch);
      while rest != null && (max == 0 || taken < max) && !thrown
        invariant 0 <= k <= |batch| && taken == k && (max != 0 ==> k <= max)
        invariant RegisteredOk() && |Registered| == old(|Registered|) - k
        invariant Left(old(Registered), Registered, batch, k)
        invariant Chains(batch, head) && rest == At(batch, k)
        invariant out == (if discard then [] else Collected(batch[..k]))
        invariant called == (if discard then [] else Called(batch[..k]))
        invariant forall i :: 0 <= i < k && !(i == k - 1 && thrown) ==> !Throws(batch[i], discard, throws)
        invariant thrown ==> k > 0 && Throws(batch[k - 1], discard, throws)
        decreases |batch| - k, !thrown
      {
        var reg := rest;
        rest := rest.nextReady;
        ghost var before := Registered;
        LeftHas(old(Registered), Registered, batch, k);
        Dispose(reg);
        LeftNext(old(Registered), before, Registered, batch, k);
        called := called + (if !discard && reg.hasCallback then [reg.future] else []);
        out := out + (if !discard && !reg.hasCallback then [reg.future] else []);
        thrown := Throws(reg, discard, throws);
        DispatchedNext(batch, k);
        k := k + 1;
        taken := taken + 1;
      }
    }

    /** reactor_reclaim, up to its requeue: re-register collected futures as one ready chain. */
    method ReRegister(out: seq<FutureId>) returns (head: Reg?, ghost chain: seq<Reg>)
      requires RegisteredOk()
      modifies this`refcount, this`registered, this`pending, this`Registered, (set x | x in Registered)`prevReg
      ensures RegisteredOk() && Chains(chain, head) && Futures(chain) == out
      ensures forall r :: r in chain ==> fresh(r) && r in Registered && r.enqueued && !r.hasCallback
      ensures forall r :: r in old(Registered) ==> r in Registered
      ensures |Registered| == old(|Registered|) + |out|
    {
      hide RegisteredOk;
      head, chain := null, [];
      var tail: Reg? := null;
      for i := 0 to |out|
        invariant RegisteredOk() && |Registered| == old(|Registered|) + i
        invariant Chains(chain, head) && tail == At(chain, |chain| - 1) && Futures(chain) == out[..i]
        invariant forall r :: r in chain ==> fresh(r) && r in Registered && r.enqueued && !r.hasCallback
        invariant forall r :: r in old(Registered) ==> r in Registered
        invariant forall r :: r in Registered ==> r in old(Registered) || fresh(r)
      {
        var reg := RegCreate(out[i], false);
        reg.enqueued := true;
        assert tail != null ==> tail in chain;
        if tail != null {
          tail.nextReady := reg;
        } else {
          head := reg;
        }
        tail := reg;
        ChainAppended(chain, reg, head);
        chain := chain + [reg];
      }
    }

    /** reactor_reclaim: collected futures go back in front of the ready-list. */
    method Reclaim(out: seq<FutureId>)
      requires Valid()
      modifies this`refcount, this`registered, this`pending, this`Registered, (set x | x in Registered)`prevReg,
        this`readyHead, this`readyTail, this`Ready, this`fd
      ensures Valid() && Futures(Ready) == out + Futures(old(Ready))
      ensures |Registered| == old(|Registered|) + |out|
      ensures fd == old(fd) + (if out == [] then 0 else 1)
    {
      var head, chain := ReRegister(out);
      assert |Futures(chain)| == |chain|;
      if head != null {
        Requeue(head, chain);
      }
    }

    /** poll() up to the point where it looks for an exception. */
    method TakeBatch(limit: nat, throws: FutureId -> bool)
      returns (out: seq<FutureId>, called: seq<FutureId>, thrown: bool, ghost k: nat)
      requires Valid()
      modifies this, Registered
      ensures Valid() && k <= |old(Ready)| && Ready == old(Ready)[k..]
      ensures StopsAt(old(Ready), k, false, limit, throws, thrown)
      ensures out == Collected(old(Ready)[..k]) && called == Called(old(Ready)[..k])
      ensures |Registered| == old(|Registered|) - k && forall r :: r in Registered ==> r in old(Registered)
      ensures fd == if Ready == [] then 0 else 1
    {
      hide RegisteredOk, StopsAt, Collected, Called, Left, NoDup;
      fd := 0;
      var head, batch := Splice();
      var rest: Reg?;
      rest, out, called, thrown, k := Consume(head, batch, false, limit, throws);
      LeftRest(old(Registered), Registered, batch, k);
      if rest != null {
        ChainTail(batch, k, head);
        Requeue(rest, batch[k..]);
      }
    }

    /**
     * poll() with non-re-entrant callbacks and no arrivals meanwhile: `k` records are
     * taken off the front. A throwing callback makes poll() return nothing, and puts what
     * it had collected back in front of what it had not reached.
     */
    method Poll(max: Option<int>, throws: FutureId -> bool)
      returns (accepted: bool, result: seq<FutureId>, called: seq<FutureId>, thrown: bool, ghost k: nat)
      requires Valid()
      modifies this, Registered
      ensures Valid() && (accepted <==> max.None? || max.value >= 1)
      ensures !accepted ==> k == 0 && result == called == [] && Ready == old(Ready) && Registered == old(Registered) && fd == old(fd)
      ensures accepted ==> k <= |old(Ready)| && StopsAt(old(Ready), k, false, Limit(max), throws, thrown)
      ensures accepted ==> (thrown <==> exists i :: 0 <= i < k && old(Ready)[i].hasCallback && throws(old(Ready)[i].future))
      ensures forall i :: 0 <= i < k - 1 && old(Ready)[i].hasCallback ==> !throws(old(Ready)[i].future)
      ensures max.None? && !thrown ==> k == |old(Ready)|
      ensures accepted && max.Some? && max.value < 0x1_0000_0000 && !thrown ==>
                k == if max.value < |old(Ready)| then max.value else |old(Ready)|
      ensures accepted ==> called == Called(old(Ready)[..k])
      ensures accepted ==> result == (if thrown then [] else Collected(old(Ready)[..k]))
      ensures accepted ==> Futures(Ready) == (if thrown then Collected(old(Ready)[..k]) else []) + Futures(old(Ready)[k..])
      ensures |Registered| == old(|Registered|) - k + (if thrown then |Collected(old(Ready)[..k])| else 0)
      ensures accepted && Ready != [] ==> fd > 0
      ensures accepted && !thrown && Ready == [] ==> fd == 0
    {
      hide Valid, StopsAt, Collected, Called, Limit;
      if max.Some? && max.value < 1 {
        return false, [], [], false, 0;
      }
      accepted := true;
      result, called, thrown, k := TakeBatch(Limit(max), throws);
      StopsMeans(old(Ready), k, Limit(max), throws, thrown);
      LimitMeans(max);
      if thrown {
        if result != [] {
          Reclaim(result);
        }
        result := [];
      }
    }
  }

  /** The limit poll() passes on, cast to 32 bits; 0 for none. */
  function Limit(max: Option<int>): nat {
    if max.Some? && max.value >= 1 then ReactorModel.LimitOf(Some(max.value)) else 0
  }

  lemma ChainTail(rs: seq<Reg>, k: nat, head: Reg?)
    requires Chains(rs, head) && k <= |rs|
    ensures Chains(rs[k..], At(rs, k))
  {
    var ns := rs[k..];
    assert NoDup(ns) by {
      assert rs == rs[..k] + ns;
      NoDupConcat(rs[..k], ns);
    }
    hide NoDup;
    forall i | 0 <= i < |ns| ensures ns[i].nextReady == At(ns, i + 1) {
      assert ns[i] == rs[k + i] && rs[k + i].nextReady == At(rs, k + i + 1);
    }
  }

  /** `now` is `was` without the first `k` records of `batch`; the others are still listed. */
  ghost predicate Left(was: seq<Reg>, now: seq<Reg>, batch: seq<Reg>, k: nat)
    requires k <= |batch|
  {
    && (forall r :: r in now ==> r in was && r !in batch[..k])
    && (forall r :: r in was ==> r in now || r in batch[..k])
    && (forall i :: k <= i < |batch| ==> batch[i] in now)
  }

  lemma LeftStart(was: seq<Reg>, batch: seq<Reg>)
    requires forall r :: r in batch ==> r in was
    ensures Left(was, was, batch, 0)
  {
  }

  lemma LeftHas(was: seq<Reg>, now: seq<Reg>, batch: seq<Reg>, k: nat)
    requires k < |batch| && Left(was, now, batch, k)
    ensures batch[k] in now
    ensures forall r :: r in now ==> r in was
  {
  }

  lemma LeftRest(was: seq<Reg>, now: seq<Reg>, batch: seq<Reg>, k: nat)
    requires k <= |batch| && Left(was, now, batch, k)
    ensures forall r :: r in batch[k..] ==> r in now
    ensures forall r :: r in now ==> r in was
  {
  }

  lemma LeftNext(was: seq<Reg>, before: seq<Reg>, after: seq<Reg>, batch: seq<Reg>, k: nat)
    requires NoDup(batch) && k < |batch| && Left(was, before, batch, k)
    requires forall x :: x in after <==> x in before && x != batch[k]
    ensures Left(was, after, batch, k + 1)
  {
    assert batch[..k + 1] == batch[..k] + [batch[k]];
  }

  /** Futures without a callback, in order. */
  function Collected(rs: seq<Reg>): seq<FutureId> {
    if rs == [] then []
    else Collected(rs[..|rs| - 1]) + (if rs[|rs| - 1].hasCallback then [] else [rs[|rs| - 1].future])
  }

  /** Futures with a callback, in order. */
  function Called(rs: seq<Reg>): seq<FutureId> {
    if rs == [] then []
    else Called(rs[..|rs| - 1]) + (if rs[|rs| - 1].hasCallback then [rs[|rs| - 1].future] else [])
  }

  lemma NothingDispatched(batch: seq<Reg>)
    ensures Collected(batch[..0]) == [] && Called(batch[..0]) == []
  {
  }

  lemma DispatchedNext(batch: seq<Reg>, k: nat)
    requires k < |batch|
    ensures Collected(batch[..k + 1]) == Collected(batch[..k]) + (if batch[k].hasCallback then [] else [batch[k].future])
    ensures Called(batch[..k + 1]) == Called(batch[..k]) + (if batch[k].hasCallback then [batch[k].future] else [])
  {
    assert batch[..k + 1][..k] == batch[..k];
  }

  predicate Throws(r: Reg, discard: bool, throws: FutureId -> bool) {
    !discard && r.hasCallback && throws(r.future)
  }

  /** Consuming stops after the first `k` records, and why. */
  ghost predicate StopsAt(batch: seq<Reg>, k: nat, discard: bool, max: nat, throws: FutureId -> bool, thrown: bool)
    requires k <= |batch|
  {
    && (max != 0 ==> k <= max)
    && (forall i :: 0 <= i < k && !(i == k - 1 && thrown) ==> !Throws(batch[i], discard, throws))
    && (thrown ==> k > 0 && Throws(batch[k - 1], discard, throws))
    && (thrown || k == |batch| || (max != 0 && k == max))
  }

  lemma StopsMeans(batch: seq<Reg>, k: nat, max: nat, throws: FutureId -> bool, thrown: bool)
    requires k <= |batch| && StopsAt(batch, k, false, max, throws, thrown)
    ensures thrown <==> exists i :: 0 <= i < k && batch[i].hasCallback && throws(batch[i].future)
    ensures forall i :: 0 <= i < k - 1 && batch[i].hasCallback ==> !throws(batch[i].future)
    ensures !thrown ==> k == if max != 0 && max < |batch| then max else |batch|
  {
    assert forall i :: 0 <= i < k ==> (Throws(batch[i], false, throws) <==> batch[i].hasCallback && throws(batch[i].future));
  }

  lemma LimitMeans(max: Option<int>)
    ensures max.None? ==> Limit(max) == 0
    ensures max.Some? && 1 <= max.value < 0x1_0000_0000 ==> Limit(max) == max.value
  {
  }

  /** What is called and what is collected are read off a list record by record, in order. */
  lemma {:induction false} DispatchSplits(a: seq<Reg>, b: seq<Reg>)
    ensures Collected(a + b) == Collected(a) + Collected(b) && Called(a + b) == Called(a) + Called(b)
    decreases |b|
  {
    hide Collected, Called;
    if b == [] {
      assert a + b == a;
      NothingDispatched(b);
      assert b[..0] == b;
    } else {
      var n, all := |b| - 1, a + b;
      DispatchSplits(a, b[..n]);
      DispatchedNext(b, n);
      DispatchedNext(all, |a| + n);
      assert b[..n + 1] == b && all[..|a| + n + 1] == all && all[..|a| + n] == a + b[..n];
    }
  }

  lemma DispatchOne(r: Reg)
    ensures Collected([r]) == (if r.hasCallback then [] else [r.future])
    ensures Called([r]) == (if r.hasCallback then [r.future] else [])
  {
    NothingDispatched([r]);
    DispatchedNext([r], 0);
    assert [r][..1] == [r];
  }

  lemma ChainAppended(rs: seq<Reg>, r: Reg, head: Reg?)
    requires NoDup(rs) && r !in rs && r.nextReady == null && head == At(rs + [r], 0)
    requires forall i {:trigger rs[i].nextReady} :: 0 <= i < |rs| - 1 ==> rs[i].nextReady == rs[i + 1]
    requires rs != [] ==> rs[|rs| - 1].nextReady == r
    ensures Chains(rs + [r], head)
  {
    var ns := rs + [r];
    assert NoDup(ns) by { assert NoDup([r]); NoDupConcat(rs, [r]); }
    hide NoDup;
    forall i | 0 <= i < |ns| ensures ns[i].nextReady == At(ns, i + 1) {
      if i < |rs| { assert ns[i] == rs[i]; }
      if i < |rs| - 1 { assert rs[i].nextReady == rs[i + 1]; }
    }
  }

  lemma ChainsJoined(a: seq<Reg>, b: seq<Reg>, bHead: Reg?)
    requires NoDup(a) && a != [] && Chains(b, bHead) && forall r :: r in a ==> r !in b
    requires forall i {:trigger a[i].nextReady} :: 0 <= i < |a| - 1 ==> a[i].nextReady == a[i + 1]
    requires a[|a| - 1].nextReady == bHead
    ensures Chains(a + b, a[0])
  {
    var ns := a + b;
    assert NoDup(ns) by { NoDupConcat(a, b); }
    hide NoDup;
    forall i | 0 <= i < |ns| ensures ns[i].nextReady == At(ns, i + 1) {
      if i < |a| - 1 {
        assert ns[i] == a[i] && a[i].nextReady == a[i + 1];
      } else if i >= |a| {
        assert ns[i] == b[i - |a|] && b[i - |a|].nextReady == At(b, i - |a| + 1);
      } else {
        assert ns[i] == a[|a| - 1];
      }
    }
  }

  /** Two ready futures, the second without a callback. */
  method ReadyPair(f: FutureId, callback: bool, g: FutureId) returns (reactor: Reactor)
    ensures fresh(reactor) && reactor.Valid() && fresh(set r | r in reactor.Registered)
    ensures |reactor.Ready| == 2 && Is(reactor.Ready[0], f, callback) && Is(reactor.Ready[1], g, false)
  {
    hide Reactor.Valid;
    reactor := new Reactor();
    var a := reactor.AddResolved(f, callback);
    var b := reactor.AddResolved(g, false);
  }

  predicate Is(r: Reg, f: FutureId, callback: bool) { r.future == f && r.hasCallback == callback }

  /** A limit of 2^32 + 1 is cast to one: of two ready records one is taken. */
  method CastTakesOne() returns (result: seq<FutureId>, reactor: Reactor)
    ensures result == [7] && fresh(reactor) && reactor.Valid() && Futures(reactor.Ready) == [8]
  {
    hide Reactor.Valid;
    reactor := ReadyPair(7, false, 8);
    ghost var ready := reactor.Ready;
    var accepted, taken, called, thrown, k := reactor.Poll(Some(0x1_0000_0001), _ => false);
    result := taken;
    assert k == 1 && !thrown;
    assert ready[..1] == [ready[0]] && ready[..1][..0] == [] && ready[1..] == [ready[1]];
    assert Collected([ready[0]]) == Collected([ready[0]][..0]) + [7];
  }

  /** A callback that throws: the future behind it is not handed out and stays ready. */
  method ThrowKeepsTheRest() returns (result: seq<FutureId>, thrown: bool, reactor: Reactor)
    ensures result == [] && thrown && fresh(reactor) && reactor.Valid() && Futures(reactor.Ready) == [8]
  {
    hide Reactor.Valid;
    reactor := ReadyPair(7, true, 8);
    ghost var ready := reactor.Ready;
    var accepted, taken, called, stopped, k := reactor.Poll(None, f => f == 7);
    result, thrown := taken, stopped;
    assert ready[0].hasCallback;
    DispatchOne(ready[0]);
    assert ready[..1] == [ready[0]] && ready[1..] == [ready[1]];
  }
}

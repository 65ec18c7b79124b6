/**
 * Result paging of src/Database/Rows.c and src/FutureRows.c: one executed statement, the
 * Rows and FutureRows objects that come out of it, and the references to driver results
 * that move between them.
 *
 * Environment: the server's answer is the page after the paging state the statement holds
 * when it is executed; a request may fail; the engine frees an object only when no other
 * object refers to it. `deterministic` says that decoding one page always ends the same way.
 */
module Paging {
  import opened Sequences

  type Row = nat
  type RowsId = nat
  type FutureId = nat
  type ValueId = nat
  type Ref = nat

  /** The field future_next_page. */
  datatype NextPage = Undef | PendingRows(f: FutureId) | ReadyValue(v: ValueId)

  /** A Rows object. `page` is the model's own label for the page it shows. */
  datatype RowsObject = RowsObject(
    page: nat,
    rows: seq<Row>,
    statement: bool,
    result: Option<Ref>,
    nextResult: Option<Ref>,
    nextRows: Option<seq<Row>>,
    futureNextPage: NextPage)

  /** A FutureRows object; `page` is the page its driver future answers with. */
  datatype FutureObject = FutureObject(page: nat, result: Option<Ref>, rows: Option<seq<Row>>)

  datatype ValueObject = ValueObject(page: nat, value: Option<RowsId>)

  /** The fields that can own a reference to a driver result. */
  datatype Owner = ResultOf(r: RowsId) | NextResultOf(r: RowsId) | FutureResultOf(f: FutureId)

  datatype Problem = RequestFailed | DecodeFailed | UnexpectedFuture

  datatype Answer = Page(r: RowsId) | NoPage | Threw(problem: Problem)

  // ---- the invariant -------------------------------------------------------

  function Holds(rows: map<RowsId, RowsObject>, futures: map<FutureId, FutureObject>, o: Owner): Option<Ref> {
    match o
    case ResultOf(r) => if r in rows then rows[r].result else None
    case NextResultOf(r) => if r in rows then rows[r].nextResult else None
    case FutureResultOf(f) => if f in futures then futures[f].result else None
  }

  predicate RefTo(refs: map<Ref, nat>, x: Ref, page: nat) { x in refs && refs[x] == page }

  /** What a Rows object for one page may hold. */
  predicate RowsOk(o: RowsObject, content: seq<seq<Row>>, refs: map<Ref, nat>,
                   futures: map<FutureId, FutureObject>, values: map<ValueId, ValueObject>)
  {
    && o.page < |content| && o.rows == content[o.page]
    && (o.result.Some? <==> o.page + 1 < |content|)
    && (o.statement <==> o.page + 1 < |content|)
    && (o.result.Some? ==> RefTo(refs, o.result.value, o.page))
    && (o.nextResult.Some? ==> o.page + 1 < |content| && RefTo(refs, o.nextResult.value, o.page + 1))
    && (o.nextRows.Some? ==> o.page + 1 < |content| && o.nextRows.value == content[o.page + 1])
    && match o.futureNextPage
       case Undef => true
       case PendingRows(f) => o.page + 1 < |content| && f in futures && futures[f].page == o.page + 1
       case ReadyValue(v) => o.page + 1 < |content| && v in values && values[v].page == o.page + 1
  }

  predicate FutureOk(o: FutureObject, content: seq<seq<Row>>, refs: map<Ref, nat>) {
    && o.page < |content|
    && (o.result.Some? ==> RefTo(refs, o.result.value, o.page))
    && (o.rows.Some? ==> o.rows.value == content[o.page])
  }

  predicate ValueOk(o: ValueObject, rows: map<RowsId, RowsObject>) {
    o.value.Some? ==> o.value.value in rows && rows[o.value.value].page == o.page
  }

  /** Every object shows and leads to the pages its label says. */
  predicate PagesOk(content: seq<seq<Row>>, refs: map<Ref, nat>, rows: map<RowsId, RowsObject>,
                    futures: map<FutureId, FutureObject>, values: map<ValueId, ValueObject>)
  {
    && (forall r :: r in rows ==> RowsOk(rows[r], content, refs, futures, values))
    && (forall f :: f in futures ==> FutureOk(futures[f], content, refs))
    && (forall v :: v in values ==> ValueOk(values[v], rows))
  }

  /** Every live reference has one owner, and every owner's reference is live. */
  ghost predicate OwnedOk(refs: map<Ref, nat>, rows: map<RowsId, RowsObject>, futures: map<FutureId, FutureObject>,
                          owner: map<Ref, Owner>)
  {
    && owner.Keys == refs.Keys
    && (forall x :: x in owner ==> Holds(rows, futures, owner[x]) == Some(x))
    && (forall o: Owner :: Holds(rows, futures, o).Some? ==>
          Holds(rows, futures, o).value in owner && owner[Holds(rows, futures, o).value] == o)
  }

  function WithStatement(rows: map<RowsId, RowsObject>): set<RowsId> { set r | r in rows && rows[r].statement }

  /** The statement is counted once for each object that holds it. */
  predicate StatementOk(rows: map<RowsId, RowsObject>, futures: map<FutureId, FutureObject>, count: nat) {
    count == |WithStatement(rows)| + |futures|
  }

  /** A page left undecoded in next_result cannot be decoded, or nothing follows it. */
  predicate Stuck(o: RowsObject, content: seq<seq<Row>>, decodable: seq<bool>) {
    o.nextResult.Some? ==>
      o.page + 2 == |content| || (o.page + 1 < |decodable| && !decodable[o.page + 1])
  }

  /** A FutureValue stands in future_next_page only beside a next_result. */
  predicate Backed(o: RowsObject) { o.futureNextPage.ReadyValue? ==> o.nextResult.Some? }

  /** Rows decoded once can be decoded. */
  predicate Decoded(o: RowsObject, decodable: seq<bool>) {
    o.nextRows.Some? ==> o.page + 1 < |decodable| && decodable[o.page + 1]
  }

  predicate Settled(o: RowsObject, content: seq<seq<Row>>, decodable: seq<bool>) {
    Stuck(o, content, decodable) && Backed(o) && Decoded(o, decodable)
  }

  predicate SettledOk(rows: map<RowsId, RowsObject>, content: seq<seq<Row>>, decodable: seq<bool>) {
    forall r :: r in rows ==> Settled(rows[r], content, decodable)
  }

  /** All of it at one moment. */
  datatype World = World(
    content: seq<seq<Row>>,    // what the server holds, page by page
    decodable: seq<bool>,
    deterministic: bool,
    rows: map<RowsId, RowsObject>,
    futures: map<FutureId, FutureObject>,
    values: map<ValueId, ValueObject>,
    statementRefs: nat,
    refs: map<Ref, nat>,       // live references to driver results, and their pages
    owner: map<Ref, Owner>,
    freed: set<Ref>,
    nextRef: nat,
    nextObject: nat)

  predicate FreshOk(w: World) {
    && (forall x :: x in w.refs ==> x < w.nextRef)
    && (forall x :: x in w.freed ==> x < w.nextRef)
    && (forall x :: x in w.refs ==> x !in w.freed)
    && (forall r :: r in w.rows ==> r < w.nextObject)
    && (forall f :: f in w.futures ==> f < w.nextObject)
    && (forall v :: v in w.values ==> v < w.nextObject)
  }

  ghost predicate Core(w: World) {
    && |w.decodable| == |w.content|
    && PagesOk(w.content, w.refs, w.rows, w.futures, w.values)
    && OwnedOk(w.refs, w.rows, w.futures, w.owner)
    && StatementOk(w.rows, w.futures, w.statementRefs)
    && FreshOk(w)
  }

  ghost predicate WorldOk(w: World) {
    Core(w) && (w.deterministic ==> SettledOk(w.rows, w.content, w.decodable))
  }

  // ---- single updates ------------------------------------------------------

  /** A new reference to the result of `page`, owned by next_result of `r`. */
  function AcquireNext(w: World, r: RowsId, page: nat): World
    requires r in w.rows
  {
    var x := w.nextRef;
    w.(nextRef := x + 1, refs := w.refs[x := page], owner := w.owner[x := NextResultOf(r)],
       rows := w.rows[r := w.rows[r].(nextResult := Some(x))])
  }

  function AcquireFuture(w: World, f: FutureId): World
    requires f in w.futures
  {
    var x := w.nextRef;
    w.(nextRef := x + 1, refs := w.refs[x := w.futures[f].page], owner := w.owner[x := FutureResultOf(f)],
       futures := w.futures[f := w.futures[f].(result := Some(x))])
  }

  /** The future's reference moves to next_result of `r`. */
  function MoveToNext(w: World, f: FutureId, r: RowsId): World
    requires f in w.futures && w.futures[f].result.Some? && r in w.rows
  {
    var x := w.futures[f].result.value;
    w.(owner := w.owner[x := NextResultOf(r)],
       futures := w.futures[f := w.futures[f].(result := None)],
       rows := w.rows[r := w.rows[r].(nextResult := Some(x))])
  }

  function NewRows(page: nat, content: seq<Row>): RowsObject {
    RowsObject(page, content, false, None, None, None, Undef)
  }

  /** A Rows object for the page in next_result of `r`, without its result. */
  function BirthLast(w: World, page: nat, content: seq<Row>): World {
    w.(rows := w.rows[w.nextObject := NewRows(page, content)], nextObject := w.nextObject + 1)
  }

  /** The same where pages follow: it takes the reference, and shares the statement. */
  function BirthFromNext(w: World, r: RowsId, page: nat, content: seq<Row>): World
    requires r in w.rows && w.rows[r].nextResult.Some?
  {
    var x, id := w.rows[r].nextResult.value, w.nextObject;
    w.(rows := w.rows[r := w.rows[r].(nextResult := None)][id := NewRows(page, content).(statement := true, result := Some(x))],
       owner := w.owner[x := ResultOf(id)], statementRefs := w.statementRefs + 1, nextObject := id + 1)
  }

  function BirthFromFuture(w: World, f: FutureId, page: nat, content: seq<Row>): World
    requires f in w.futures && w.futures[f].result.Some?
  {
    var x, id := w.futures[f].result.value, w.nextObject;
    w.(rows := w.rows[id := NewRows(page, content).(statement := true, result := Some(x))],
       futures := w.futures[f := w.futures[f].(result := None)],
       owner := w.owner[x := ResultOf(id)], statementRefs := w.statementRefs + 1, nextObject := id + 1)
  }

  // ---- what an update must keep --------------------------------------------

  /** Nothing `was` refers to is lost or relabelled in `now`. */
  predicate Extends(was: World, now: World) {
    && now.content == was.content
    && (forall x :: x in was.refs ==> x in now.refs && now.refs[x] == was.refs[x])
    && (forall f :: f in was.futures ==> f in now.futures && now.futures[f].page == was.futures[f].page)
    && (forall v :: v in was.values ==> v in now.values && now.values[v].page == was.values[v].page)
    && (forall r :: r in was.rows ==> r in now.rows && now.rows[r].page == was.rows[r].page)
  }

  predicate NewObjectsOk(was: World, now: World) {
    && (forall r :: r in now.rows && !(r in was.rows && was.rows[r] == now.rows[r]) ==>
          RowsOk(now.rows[r], now.content, now.refs, now.futures, now.values))
    && (forall f :: f in now.futures && !(f in was.futures && was.futures[f] == now.futures[f]) ==>
          FutureOk(now.futures[f], now.content, now.refs))
    && (forall v :: v in now.values && !(v in was.values && was.values[v] == now.values[v]) ==>
          ValueOk(now.values[v], now.rows))
  }

  predicate Pages(w: World) { PagesOk(w.content, w.refs, w.rows, w.futures, w.values) }

  lemma PagesAfter(was: World, now: World)
    requires Pages(was) && Extends(was, now) && NewObjectsOk(was, now)
    ensures Pages(now)
  {
    forall r | r in now.rows ensures RowsOk(now.rows[r], now.content, now.refs, now.futures, now.values) {
      if r in was.rows && was.rows[r] == now.rows[r] {
        assert RowsOk(was.rows[r], was.content, was.refs, was.futures, was.values);
      }
    }
    forall v | v in now.values ensures ValueOk(now.values[v], now.rows) {
      if v in was.values && was.values[v] == now.values[v] {
        assert ValueOk(was.values[v], was.rows);
      }
    }
  }

  function HeldBy(w: World, o: Owner): Option<Ref> { Holds(w.rows, w.futures, o) }

  ghost predicate Owned(w: World) { OwnedOk(w.refs, w.rows, w.futures, w.owner) }

  ghost predicate OthersHold(was: World, now: World, changed: set<Owner>) {
    forall o: Owner :: o !in changed ==> Holds(now.rows, now.futures, o) == Holds(was.rows, was.futures, o)
  }

  lemma OwnedSame(was: World, now: World)
    requires Owned(was) && OthersHold(was, now, {}) && now.refs == was.refs && now.owner == was.owner
    ensures Owned(now)
  {
    hide Holds;
  }

  lemma OwnedAcquire(was: World, now: World, o: Owner, page: nat)
    requires Owned(was) && was.nextRef !in was.refs && HeldBy(was, o).None? && HeldBy(now, o) == Some(was.nextRef)
    requires OthersHold(was, now, {o})
    requires now.refs == was.refs[was.nextRef := page] && now.owner == was.owner[was.nextRef := o]
    ensures Owned(now)
  {
    hide Holds;
  }

  lemma OwnedMove(was: World, now: World, from: Owner, to: Owner)
    requires Owned(was) && from != to && HeldBy(was, from).Some? && HeldBy(was, to).None?
    requires HeldBy(now, from).None? && HeldBy(now, to) == HeldBy(was, from) && OthersHold(was, now, {from, to})
    requires now.refs == was.refs && now.owner == was.owner[HeldBy(was, from).value := to]
    ensures Owned(now)
  {
    hide Holds;
  }

  lemma OwnedRelease(was: World, now: World, o: Owner)
    requires Owned(was) && HeldBy(was, o).Some? && HeldBy(now, o).None? && OthersHold(was, now, {o})
    requires now.refs == was.refs - {HeldBy(was, o).value} && now.owner == was.owner - {HeldBy(was, o).value}
    ensures Owned(now)
  {
    hide Holds;
  }

  lemma StatementsAfter(rows: map<RowsId, RowsObject>, r: RowsId, o: RowsObject)
    ensures |WithStatement(rows[r := o])| ==
            |WithStatement(rows)| + (if o.statement then 1 else 0) - (if r in rows && rows[r].statement then 1 else 0)
  {
    var was, now := WithStatement(rows), WithStatement(rows[r := o]);
    if o.statement {
      assert now == was + {r};
    } else {
      assert now == was - {r};
    }
  }

  lemma PutRowsPages(was: World, now: World, r: RowsId)
    requires Pages(was) && Extends(was, now) && now.futures == was.futures && now.values == was.values
    requires r in now.rows && now.rows == was.rows[r := now.rows[r]]
    requires RowsOk(now.rows[r], now.content, now.refs, now.futures, now.values)
    ensures Pages(now)
  {
    hide RowsOk, FutureOk, ValueOk, PagesOk, Extends;
    PagesAfter(was, now);
  }

  lemma PutFuturePages(was: World, now: World, f: FutureId)
    requires Pages(was) && Extends(was, now) && now.rows == was.rows && now.values == was.values
    requires f in now.futures && now.futures == was.futures[f := now.futures[f]]
    requires FutureOk(now.futures[f], now.content, now.refs)
    ensures Pages(now)
  {
    hide RowsOk, FutureOk, ValueOk, PagesOk, Extends;
    PagesAfter(was, now);
  }

  lemma PutBothPages(was: World, now: World, f: FutureId, r: RowsId)
    requires Pages(was) && Extends(was, now) && now.values == was.values
    requires f in now.futures && now.futures == was.futures[f := now.futures[f]]
    requires FutureOk(now.futures[f], now.content, now.refs)
    requires r in now.rows && now.rows == was.rows[r := now.rows[r]]
    requires RowsOk(now.rows[r], now.content, now.refs, now.futures, now.values)
    ensures Pages(now)
  {
    hide RowsOk, FutureOk, ValueOk, PagesOk, Extends;
    PagesAfter(was, now);
  }

  /** One object's facts, out of the whole. */
  lemma RowsFacts(w: World, r: RowsId)
    requires Pages(w) && r in w.rows
    ensures RowsOk(w.rows[r], w.content, w.refs, w.futures, w.values)
  {
  }

  lemma FutureFacts(w: World, f: FutureId)
    requires Pages(w) && f in w.futures
    ensures FutureOk(w.futures[f], w.content, w.refs)
  {
  }

  // ---- they keep the invariant ---------------------------------------------

  lemma AcquireNextCore(w: World, r: RowsId)
    requires Core(w) && r in w.rows && w.rows[r].nextResult.None? && w.rows[r].page + 1 < |w.content|
    ensures Core(AcquireNext(w, r, w.rows[r].page + 1))
  {
    hide PagesOk, OwnedOk, WithStatement, NewObjectsOk, Extends, OthersHold;
    var t := AcquireNext(w, r, w.rows[r].page + 1);
    StatementsAfter(w.rows, r, t.rows[r]);
    assert Pages(t) by { AcquireNextPages(w, r); }
    assert OthersHold(w, t, {NextResultOf(r)}) by { NextChanges(w, t, r); }
    OwnedAcquire(w, t, NextResultOf(r), w.rows[r].page + 1);
  }

  lemma NextChanges(was: World, now: World, r: RowsId)
    requires r in was.rows && r in now.rows && now.rows == was.rows[r := was.rows[r].(nextResult := now.rows[r].nextResult)]
    requires now.futures == was.futures
    ensures OthersHold(was, now, {NextResultOf(r)})
  {
  }

  lemma AcquireNextPages(w: World, r: RowsId)
    requires Pages(w) && FreshOk(w) && r in w.rows && w.rows[r].nextResult.None? && w.rows[r].page + 1 < |w.content|
    ensures Pages(AcquireNext(w, r, w.rows[r].page + 1))
  {
    hide PagesOk;
    var t := AcquireNext(w, r, w.rows[r].page + 1);
    RowsFacts(w, r);
    PutRowsPages(w, t, r);
  }

  lemma FutureChanges(was: World, now: World, f: FutureId)
    requires f in was.futures && f in now.futures
    requires now.futures == was.futures[f := now.futures[f]] && now.rows == was.rows
    ensures OthersHold(was, now, {FutureResultOf(f)})
  {
  }

  lemma AcquireFutureCore(w: World, f: FutureId)
    requires Core(w) && f in w.futures && w.futures[f].result.None?
    ensures Core(AcquireFuture(w, f))
  {
    hide PagesOk, OwnedOk, WithStatement, OthersHold, Extends;
    var t := AcquireFuture(w, f);
    assert Pages(t) by { AcquireFuturePages(w, f); }
    FutureChanges(w, t, f);
    OwnedAcquire(w, t, FutureResultOf(f), w.futures[f].page);
  }

  lemma AcquireFuturePages(w: World, f: FutureId)
    requires Pages(w) && FreshOk(w) && f in w.futures && w.futures[f].result.None?
    ensures Pages(AcquireFuture(w, f))
  {
    hide PagesOk;
    FutureFacts(w, f);
    PutFuturePages(w, AcquireFuture(w, f), f);
  }

  lemma MoveToNextCore(w: World, f: FutureId, r: RowsId)
    requires Core(w) && f in w.futures && w.futures[f].result.Some? && r in w.rows && w.rows[r].nextResult.None?
    requires w.futures[f].page == w.rows[r].page + 1
    ensures Core(MoveToNext(w, f, r))
  {
    hide PagesOk, OwnedOk, WithStatement, OthersHold, Extends;
    var t := MoveToNext(w, f, r);
    StatementsAfter(w.rows, r, t.rows[r]);
    assert Pages(t) by { MoveToNextPages(w, f, r); }
    assert OthersHold(w, t, {FutureResultOf(f), NextResultOf(r)}) by { MoveChanges(w, f, r); }
    OwnedMove(w, t, FutureResultOf(f), NextResultOf(r));
  }

  lemma MoveChanges(w: World, f: FutureId, r: RowsId)
    requires f in w.futures && w.futures[f].result.Some? && r in w.rows
    ensures OthersHold(w, MoveToNext(w, f, r), {FutureResultOf(f), NextResultOf(r)})
  {
  }

  lemma MoveToNextPages(w: World, f: FutureId, r: RowsId)
    requires Pages(w) && f in w.futures && w.futures[f].result.Some? && r in w.rows
    requires w.futures[f].page == w.rows[r].page + 1
    ensures Pages(MoveToNext(w, f, r))
  {
    hide PagesOk;
    RowsFacts(w, r);
    FutureFacts(w, f);
    PutBothPages(w, MoveToNext(w, f, r), f, r);
  }

  lemma BirthLastCore(w: World, page: nat)
    requires Core(w) && page + 1 == |w.content|
    ensures Core(BirthLast(w, page, w.content[page]))
  {
    hide PagesOk, OwnedOk, WithStatement, OthersHold, Extends;
    var id, t := w.nextObject, BirthLast(w, page, w.content[page]);
    StatementsAfter(w.rows, id, t.rows[id]);
    assert Pages(t) by { hide Owned; BirthLastPages(w, page); }
    assert OthersHold(w, t, {}) by { BirthLastChanges(w, page); }
    OwnedSame(w, t);
  }

  lemma BirthLastPages(w: World, page: nat)
    requires Pages(w) && FreshOk(w) && page + 1 == |w.content|
    ensures Pages(BirthLast(w, page, w.content[page]))
  {
    hide PagesOk;
    PutRowsPages(w, BirthLast(w, page, w.content[page]), w.nextObject);
  }

  lemma BirthLastChanges(w: World, page: nat)
    requires FreshOk(w) && page + 1 == |w.content|
    ensures OthersHold(w, BirthLast(w, page, w.content[page]), {})
  {
  }

  lemma BirthFromNextCore(w: World, r: RowsId)
    requires Core(w) && r in w.rows && w.rows[r].nextResult.Some? && w.rows[r].page + 2 < |w.content|
    ensures Core(BirthFromNext(w, r, w.rows[r].page + 1, w.content[w.rows[r].page + 1]))
  {
    hide PagesOk, OwnedOk, WithStatement, OthersHold, Extends;
    var page, id := w.rows[r].page + 1, w.nextObject;
    var t := BirthFromNext(w, r, page, w.content[page]);
    StatementsAfter(w.rows, r, t.rows[r]);
    StatementsAfter(w.rows[r := t.rows[r]], id, t.rows[id]);
    assert Pages(t) by { hide Owned; BirthFromNextPages(w, r); }
    assert OthersHold(w, t, {NextResultOf(r), ResultOf(id)}) by { BirthFromNextChanges(w, r, page, w.content[page]); }
    OwnedMove(w, t, NextResultOf(r), ResultOf(id));
  }

  lemma BirthFromNextChanges(w: World, r: RowsId, page: nat, content: seq<Row>)
    requires FreshOk(w) && r in w.rows && w.rows[r].nextResult.Some?
    ensures OthersHold(w, BirthFromNext(w, r, page, content), {NextResultOf(r), ResultOf(w.nextObject)})
  {
  }

  lemma BirthFromNextPages(w: World, r: RowsId)
    requires Pages(w) && FreshOk(w) && r in w.rows && w.rows[r].nextResult.Some? && w.rows[r].page + 2 < |w.content|
    ensures Pages(BirthFromNext(w, r, w.rows[r].page + 1, w.content[w.rows[r].page + 1]))
  {
    hide PagesOk;
    var page, id := w.rows[r].page + 1, w.nextObject;
    var t := BirthFromNext(w, r, page, w.content[page]);
    var mid := w.(rows := w.rows[r := w.rows[r].(nextResult := None)]);
    RowsFacts(w, r);
    PutRowsPages(w, mid, r);
    PutRowsPages(mid, t, id);
  }

  lemma BirthFromFutureCore(w: World, f: FutureId)
    requires Core(w) && f in w.futures && w.futures[f].result.Some? && w.futures[f].page + 1 < |w.content|
    ensures Core(BirthFromFuture(w, f, w.futures[f].page, w.content[w.futures[f].page]))
  {
    hide PagesOk, OwnedOk, WithStatement, OthersHold, Extends;
    var page, id := w.futures[f].page, w.nextObject;
    var t := BirthFromFuture(w, f, page, w.content[page]);
    StatementsAfter(w.rows, id, t.rows[id]);
    assert Pages(t) by { hide Owned; BirthFromFuturePages(w, f); }
    assert OthersHold(w, t, {FutureResultOf(f), ResultOf(id)}) by { BirthFromFutureChanges(w, f, page, w.content[page]); }
    OwnedMove(w, t, FutureResultOf(f), ResultOf(id));
  }

  lemma BirthFromFutureChanges(w: World, f: FutureId, page: nat, content: seq<Row>)
    requires FreshOk(w) && f in w.futures && w.futures[f].result.Some?
    ensures OthersHold(w, BirthFromFuture(w, f, page, content), {FutureResultOf(f), ResultOf(w.nextObject)})
  {
  }

  lemma BirthFromFuturePages(w: World, f: FutureId)
    requires Pages(w) && FreshOk(w) && f in w.futures && w.futures[f].result.Some? && w.futures[f].page + 1 < |w.content|
    ensures Pages(BirthFromFuture(w, f, w.futures[f].page, w.content[w.futures[f].page]))
  {
    hide PagesOk;
    FutureFacts(w, f);
    PutBothPages(w, BirthFromFuture(w, f, w.futures[f].page, w.content[w.futures[f].page]), f, w.nextObject);
  }

  // Decoded rows, cached.

  function CacheNext(w: World, r: RowsId, content: seq<Row>): World
    requires r in w.rows
  {
    w.(rows := w.rows[r := w.rows[r].(nextRows := Some(content))])
  }

  lemma CacheNextCore(w: World, r: RowsId)
    requires Core(w) && r in w.rows && w.rows[r].page + 1 < |w.content|
    ensures Core(CacheNext(w, r, w.content[w.rows[r].page + 1]))
  {
    hide PagesOk, OwnedOk, WithStatement, OthersHold, Extends;
    var t := CacheNext(w, r, w.content[w.rows[r].page + 1]);
    StatementsAfter(w.rows, r, t.rows[r]);
    assert Pages(t) by { hide Owned; CacheNextPages(w, r); }
    assert OthersHold(w, t, {}) by { SameRefs(w, t, r); }
    OwnedSame(w, t);
  }

  lemma SameRefs(was: World, now: World, r: RowsId)
    requires r in was.rows && r in now.rows && now.rows == was.rows[r := now.rows[r]] && now.futures == was.futures
    requires now.rows[r].result == was.rows[r].result && now.rows[r].nextResult == was.rows[r].nextResult
    ensures OthersHold(was, now, {})
  {
  }

  lemma CacheNextPages(w: World, r: RowsId)
    requires Pages(w) && r in w.rows && w.rows[r].page + 1 < |w.content|
    ensures Pages(CacheNext(w, r, w.content[w.rows[r].page + 1]))
  {
    hide PagesOk;
    RowsFacts(w, r);
    PutRowsPages(w, CacheNext(w, r, w.content[w.rows[r].page + 1]), r);
  }

  function CacheFuture(w: World, f: FutureId, content: seq<Row>): World
    requires f in w.futures
  {
    w.(futures := w.futures[f := w.futures[f].(rows := Some(content))])
  }

  lemma CacheFutureCore(w: World, f: FutureId)
    requires Core(w) && f in w.futures && w.futures[f].page < |w.content|
    ensures Core(CacheFuture(w, f, w.content[w.futures[f].page]))
  {
    hide PagesOk, OwnedOk, WithStatement, OthersHold, Extends;
    var t := CacheFuture(w, f, w.content[w.futures[f].page]);
    assert Pages(t) by {
      hide Owned;
      FutureFacts(w, f);
      CacheFutureExtends(w, f);
      PutFuturePages(w, t, f);
    }
    assert OthersHold(w, t, {}) by { CacheFutureExtends(w, f); }
    OwnedSame(w, t);
  }

  lemma CacheFutureExtends(w: World, f: FutureId)
    requires f in w.futures && w.futures[f].page < |w.content|
    ensures Extends(w, CacheFuture(w, f, w.content[w.futures[f].page]))
    ensures OthersHold(w, CacheFuture(w, f, w.content[w.futures[f].page]), {})
  {
  }

  // New futures.

  function StartFuture(w: World, r: RowsId, page: nat): World
    requires r in w.rows
  {
    var f := w.nextObject;
    w.(futures := w.futures[f := FutureObject(page, None, None)], nextObject := f + 1, statementRefs := w.statementRefs + 1,
       rows := w.rows[r := w.rows[r].(futureNextPage := PendingRows(f))])
  }

  lemma StartFutureCore(w: World, r: RowsId)
    requires Core(w) && r in w.rows && w.rows[r].page + 1 < |w.content|
    ensures Core(StartFuture(w, r, w.rows[r].page + 1))
  {
    hide PagesOk, OwnedOk, WithStatement, OthersHold, Extends;
    var t := StartFuture(w, r, w.rows[r].page + 1);
    StatementsAfter(w.rows, r, t.rows[r]);
    assert Pages(t) by { hide Owned; StartFuturePages(w, r); }
    assert OthersHold(w, t, {}) by { StartFutureChanges(w, r, w.rows[r].page + 1); }
    OwnedSame(w, t);
  }

  lemma StartFutureChanges(w: World, r: RowsId, page: nat)
    requires FreshOk(w) && r in w.rows
    ensures OthersHold(w, StartFuture(w, r, page), {})
  {
  }

  lemma StartFuturePages(w: World, r: RowsId)
    requires Pages(w) && FreshOk(w) && r in w.rows && w.rows[r].page + 1 < |w.content|
    ensures Pages(StartFuture(w, r, w.rows[r].page + 1))
  {
    hide PagesOk;
    RowsFacts(w, r);
    PutBothPages(w, StartFuture(w, r, w.rows[r].page + 1), w.nextObject, r);
  }

  function StartValue(w: World, r: RowsId): World
    requires r in w.rows
  {
    var v := w.nextObject;
    w.(values := w.values[v := ValueObject(w.rows[r].page + 1, None)], nextObject := v + 1,
       rows := w.rows[r := w.rows[r].(futureNextPage := ReadyValue(v))])
  }

  lemma StartValueCore(w: World, r: RowsId)
    requires Core(w) && r in w.rows && w.rows[r].page + 1 < |w.content|
    ensures Core(StartValue(w, r))
  {
    hide PagesOk, OwnedOk, WithStatement, OthersHold, Extends;
    var t := StartValue(w, r);
    StatementsAfter(w.rows, r, t.rows[r]);
    assert Pages(t) by { hide Owned; StartValuePages(w, r); }
    assert OthersHold(w, t, {}) by { SameRefs(w, t, r); }
    OwnedSame(w, t);
  }

  lemma StartValuePages(w: World, r: RowsId)
    requires Pages(w) && FreshOk(w) && r in w.rows && w.rows[r].page + 1 < |w.content|
    ensures Pages(StartValue(w, r))
  {
    hide PagesOk;
    RowsFacts(w, r);
    PutValuePages(w, StartValue(w, r), w.nextObject, r);
  }

  lemma PutValuePages(was: World, now: World, v: ValueId, r: RowsId)
    requires Pages(was) && Extends(was, now) && now.futures == was.futures
    requires v in now.values && now.values == was.values[v := now.values[v]] && ValueOk(now.values[v], now.rows)
    requires r in now.rows && now.rows == was.rows[r := now.rows[r]]
    requires RowsOk(now.rows[r], now.content, now.refs, now.futures, now.values)
    ensures Pages(now)
  {
    hide RowsOk, FutureOk, ValueOk, PagesOk, Extends;
    PagesAfter(was, now);
  }

  function SetValue(w: World, v: ValueId, made: RowsId): World
    requires v in w.values
  {
    w.(values := w.values[v := w.values[v].(value := Some(made))])
  }

  lemma SetValueCore(w: World, v: ValueId, made: RowsId)
    requires Core(w) && v in w.values && made in w.rows && w.rows[made].page == w.values[v].page
    ensures Core(SetValue(w, v, made))
  {
    hide PagesOk, OwnedOk, WithStatement, OthersHold, Extends;
    var t := SetValue(w, v, made);
    assert Pages(t) by {
      hide Owned;
      RowsFacts(w, made);
      assert Extends(w, t) by { SetValueExtends(w, v, made); }
      RowsFactsExtend(w, t, made);
      PutValuePages(w, t, v, made);
    }
    assert OthersHold(w, t, {}) by { SetValueExtends(w, v, made); }
    OwnedSame(w, t);
  }

  lemma RowsFactsExtend(was: World, now: World, r: RowsId)
    requires Extends(was, now) && r in was.rows && RowsOk(was.rows[r], was.content, was.refs, was.futures, was.values)
    ensures RowsOk(was.rows[r], now.content, now.refs, now.futures, now.values)
  {
  }

  lemma SetValueExtends(w: World, v: ValueId, made: RowsId)
    requires v in w.values
    ensures Extends(w, SetValue(w, v, made)) && OthersHold(w, SetValue(w, v, made), {})
  {
  }

  // ---- rows_create ---------------------------------------------------------

  /** The world once a Rows object was made for the result in next_result of `r`. */
  function Created(w: World, r: RowsId): World
    requires r in w.rows && w.rows[r].nextResult.Some? && w.rows[r].nextResult.value in w.refs
    requires w.rows[r].nextRows.None? ==> w.refs[w.rows[r].nextResult.value] < |w.content|
  {
    var page := w.refs[w.rows[r].nextResult.value];
    var c := if w.rows[r].nextRows.None? then CacheNext(w, r, w.content[page]) else w;
    if page + 1 < |w.content| then BirthFromNext(c, r, page, c.rows[r].nextRows.value)
    else BirthLast(c, page, c.rows[r].nextRows.value)
  }

  /** `r` may be the one object whose next_result was just filled. */
  predicate AlmostSettled(w: World, r: RowsId) {
    w.deterministic ==>
      && r in w.rows
      && SettledOk(w.rows - {r}, w.content, w.decodable)
      && Decoded(w.rows[r], w.decodable)
      && (w.rows[r].futureNextPage.ReadyValue? ==> Stuck(w.rows[r], w.content, w.decodable))
  }

  lemma CreatedCore(w: World, r: RowsId)
    requires Core(w) && r in w.rows && w.rows[r].nextResult.Some?
    ensures w.rows[r].page + 1 < |w.content| && RefTo(w.refs, w.rows[r].nextResult.value, w.rows[r].page + 1)
    ensures w.rows[r].nextRows.Some? ==> w.rows[r].nextRows.value == w.content[w.rows[r].page + 1]
    ensures Core(Created(w, r)) && w.nextObject !in w.rows
  {
    hide PagesOk, OwnedOk, StatementOk;
    RowsFacts(w, r);
    var page := w.rows[r].page + 1;
    var c := if w.rows[r].nextRows.None? then CacheNext(w, r, w.content[page]) else w;
    if w.rows[r].nextRows.None? {
      CacheNextCore(w, r);
    }
    hide FreshOk;
    if page + 1 < |w.content| {
      BirthFromNextCore(c, r);
    } else {
      BirthLastCore(c, page);
    }
  }

  /** From `w` to `t` only the object `r`, which keeps its page and futures, and the new `id` differ. */
  predicate MadeFrom(w: World, t: World, r: RowsId, id: RowsId) {
    && t.content == w.content && t.refs == w.refs && t.futures == w.futures && t.values == w.values
    && t.decodable == w.decodable && t.deterministic == w.deterministic
    && r in w.rows && r in t.rows && id in t.rows && r != id
    && t.rows == w.rows[r := t.rows[r]][id := t.rows[id]]
    && t.rows[r] == w.rows[r].(nextRows := t.rows[r].nextRows, nextResult := t.rows[r].nextResult)
    && t.rows[id].page == w.rows[r].page + 1 && t.rows[id].nextResult.None? && t.rows[id].nextRows.None?
    && t.rows[id].futureNextPage.Undef?
  }

  lemma CreatedShape(w: World, r: RowsId)
    requires r in w.rows && w.rows[r].nextResult.Some? && w.rows[r].page + 1 < |w.content| && w.nextObject !in w.rows
    requires RefTo(w.refs, w.rows[r].nextResult.value, w.rows[r].page + 1)
    ensures MadeFrom(w, Created(w, r), r, w.nextObject)
    ensures Created(w, r).rows[r].nextResult == if w.rows[r].page + 2 < |w.content| then None else w.rows[r].nextResult
  {
    hide MadeFrom, BirthFromNext, BirthLast;
    var page := w.rows[r].page + 1;
    var c := if w.rows[r].nextRows.None? then CacheNext(w, r, w.content[page]) else w;
    BirthShape(c, r, c.rows[r].nextRows.value);
    if w.rows[r].nextRows.None? {
      MadeFromCached(w, r, w.content[page], Created(w, r), w.nextObject);
    }
  }

  lemma BirthShape(w: World, r: RowsId, decoded: seq<Row>)
    requires r in w.rows && w.rows[r].nextResult.Some? && w.nextObject !in w.rows
    ensures var page := w.rows[r].page + 1;
            var t := if page + 1 < |w.content| then BirthFromNext(w, r, page, decoded) else BirthLast(w, page, decoded);
            MadeFrom(w, t, r, w.nextObject) &&
            t.rows[r].nextResult == if page + 1 < |w.content| then None else w.rows[r].nextResult
  {
  }

  lemma MadeFromCached(w: World, r: RowsId, decoded: seq<Row>, t: World, id: RowsId)
    requires r in w.rows && MadeFrom(CacheNext(w, r, decoded), t, r, id)
    ensures MadeFrom(w, t, r, id)
  {
  }

  lemma CreatedSettled(w: World, r: RowsId)
    requires Core(w) && r in w.rows && w.rows[r].nextResult.Some? && w.rows[r].page + 1 < |w.content|
    requires RefTo(w.refs, w.rows[r].nextResult.value, w.rows[r].page + 1)
    requires AlmostSettled(w, r) && (w.deterministic ==> w.decodable[w.rows[r].page + 1]) && w.nextObject !in w.rows
    ensures w.nextObject in Created(w, r).rows && Created(w, r).rows[w.nextObject].page == w.rows[r].page + 1
    ensures Extends(w, Created(w, r)) && (Created(w, r).deterministic ==> SettledOk(Created(w, r).rows, w.content, w.decodable))
    ensures Created(w, r).decodable == w.decodable
  {
    hide PagesOk, OwnedOk, StatementOk, FreshOk, Created;
    CreatedShape(w, r);
    var t := Created(w, r);
    forall k | k in t.rows && w.deterministic ensures Settled(t.rows[k], w.content, w.decodable) {
      assert k != r && k != w.nextObject ==> k in w.rows - {r} && t.rows[k] == w.rows[k];
    }
  }

  lemma CreatedOk(w: World, r: RowsId)
    requires Core(w) && r in w.rows && w.rows[r].nextResult.Some? && AlmostSettled(w, r)
    requires w.deterministic && w.rows[r].page + 1 < |w.decodable| ==> w.decodable[w.rows[r].page + 1]
    ensures RefTo(w.refs, w.rows[r].nextResult.value, w.rows[r].page + 1) && w.rows[r].page + 1 < |w.content|
    ensures WorldOk(Created(w, r)) && Extends(w, Created(w, r)) && w.nextObject !in w.rows
    ensures w.nextObject in Created(w, r).rows && Created(w, r).rows[w.nextObject].page == w.rows[r].page + 1
    ensures r in Created(w, r).rows && Created(w, r).rows[r].futureNextPage == w.rows[r].futureNextPage
    ensures Created(w, r).rows[r].nextResult == if w.rows[r].page + 2 < |w.content| then None else w.rows[r].nextResult
  {
    hide PagesOk, OwnedOk, StatementOk, FreshOk, Created, SettledOk;
    CreatedCore(w, r);
    CreatedShape(w, r);
    CreatedSettled(w, r);
  }

  lemma FailedOk(w: World, r: RowsId)
    requires Core(w) && r in w.rows && AlmostSettled(w, r) && w.rows[r].page + 1 < |w.decodable|
    requires w.rows[r].nextResult.Some? && (w.deterministic ==> !w.decodable[w.rows[r].page + 1])
    ensures WorldOk(w) && Extends(w, w)
  {
    hide PagesOk, OwnedOk, StatementOk;
    forall k | k in w.rows && w.deterministic ensures Settled(w.rows[k], w.content, w.decodable) {
      assert k != r ==> k in w.rows - {r};
    }
  }

  lemma NextFacts(w: World, r: RowsId)
    requires Core(w) && r in w.rows && w.rows[r].nextResult.Some?
    ensures |w.decodable| == |w.content| && w.rows[r].page + 1 < |w.content|
    ensures RefTo(w.refs, w.rows[r].nextResult.value, w.rows[r].page + 1)
    ensures AlmostSettled(w, r) && w.deterministic && w.rows[r].nextRows.Some? ==> w.decodable[w.rows[r].page + 1]
  {
    hide OwnedOk, StatementOk, FreshOk;
    RowsFacts(w, r);
  }

  // ---- freeing -------------------------------------------------------------

  /** A reference leaves its owner for good. */
  function Release(w: World, x: Option<Ref>): World {
    w.(refs := w.refs - AsSet(x), owner := w.owner - AsSet(x), freed := w.freed + AsSet(x))
  }

  function AsSet(x: Option<Ref>): set<Ref> { if x.None? then {} else {x.value} }

  /** The engine destroys a Rows object: both results, then its share of the statement. */
  function FreeRows(w: World, r: RowsId): World
    requires r in w.rows && (w.rows[r].statement ==> w.statementRefs > 0)
  {
    var o := w.rows[r];
    var t := Release(Release(w, o.result), o.nextResult);
    t.(rows := w.rows - {r}, statementRefs := if o.statement then w.statementRefs - 1 else w.statementRefs)
  }

  function FreeFuture(w: World, f: FutureId): World
    requires f in w.futures && w.statementRefs > 0
  {
    Release(w, w.futures[f].result).(futures := w.futures - {f}, statementRefs := w.statementRefs - 1)
  }

  function FreeValue(w: World, v: ValueId): World { w.(values := w.values - {v}) }

  predicate Unreferenced(w: World, r: RowsId) { forall v :: v in w.values ==> w.values[v].value != Some(r) }

  predicate NotPending(w: World, f: FutureId) { forall r :: r in w.rows ==> w.rows[r].futureNextPage != PendingRows(f) }

  predicate NotReady(w: World, v: ValueId) { forall r :: r in w.rows ==> w.rows[r].futureNextPage != ReadyValue(v) }

  lemma StatementHeld(w: World, r: RowsId)
    requires Core(w) && r in w.rows && w.rows[r].statement
    ensures w.statementRefs > 0
  {
    hide PagesOk, OwnedOk, FreshOk;
    assert r in WithStatement(w.rows);
  }

  lemma StatementHeldByFuture(w: World, f: FutureId)
    requires Core(w) && f in w.futures
    ensures w.statementRefs > 0
  {
    hide PagesOk, OwnedOk, FreshOk, WithStatement;
    assert f in w.futures.Keys;
  }

  /** An owner other than those freed keeps a live reference. */
  lemma OthersLive(w: World, o: Owner, gone: set<Owner>)
    requires Owned(w) && HeldBy(w, o).Some? && o !in gone
    ensures HeldBy(w, o).value in w.refs && forall g :: g in gone ==> HeldBy(w, g) != HeldBy(w, o)
  {
    hide Holds;
  }

  /** Whatever happens to references of the owners in `gone`, the others' stay. */
  predicate OnlyDrops(w: World, t: World, gone: set<Owner>) {
    && t.content == w.content
    && (forall x :: x in t.refs ==> x in w.refs && t.refs[x] == w.refs[x])
    && (forall x :: x in w.refs && x !in t.refs ==> exists g :: g in gone && HeldBy(w, g) == Some(x))
  }

  lemma StillThere(w: World, t: World, o: Owner, gone: set<Owner>)
    requires Owned(w) && OnlyDrops(w, t, gone) && o !in gone && HeldBy(w, o).Some?
    ensures HeldBy(w, o).value in t.refs && t.refs[HeldBy(w, o).value] == w.refs[HeldBy(w, o).value]
  {
    OthersLive(w, o, gone);
    hide HeldBy, Owned;
  }

  lemma RowsSurvive(w: World, t: World, k: RowsId, gone: set<Owner>)
    requires Owned(w) && Pages(w) && OnlyDrops(w, t, gone) && k in w.rows && ResultOf(k) !in gone && NextResultOf(k) !in gone
    requires w.rows[k].futureNextPage.PendingRows? ==>
               w.rows[k].futureNextPage.f in t.futures && t.futures[w.rows[k].futureNextPage.f] == w.futures[w.rows[k].futureNextPage.f]
    requires t.values == w.values
    ensures RowsOk(w.rows[k], t.content, t.refs, t.futures, t.values)
  {
    RowsFacts(w, k);
    hide PagesOk, OwnedOk, OnlyDrops;
    assert t.content == w.content by { DropsContent(w, t, gone); }
    if w.rows[k].result.Some? { StillThere(w, t, ResultOf(k), gone); }
    if w.rows[k].nextResult.Some? { StillThere(w, t, NextResultOf(k), gone); }
  }

  lemma DropsContent(w: World, t: World, gone: set<Owner>)
    requires OnlyDrops(w, t, gone)
    ensures t.content == w.content
  {
  }

  lemma FutureSurvives(w: World, t: World, f: FutureId, gone: set<Owner>)
    requires Owned(w) && Pages(w) && OnlyDrops(w, t, gone) && f in w.futures && FutureResultOf(f) !in gone
    ensures FutureOk(w.futures[f], t.content, t.refs)
  {
    FutureFacts(w, f);
    hide PagesOk, OwnedOk, OnlyDrops;
    DropsContent(w, t, gone);
    if w.futures[f].result.Some? { StillThere(w, t, FutureResultOf(f), gone); }
  }

  lemma FreeRowsDrops(w: World, r: RowsId)
    requires r in w.rows && (w.rows[r].statement ==> w.statementRefs > 0)
    ensures OnlyDrops(w, FreeRows(w, r), {ResultOf(r), NextResultOf(r)})
  {
    assert HeldBy(w, ResultOf(r)) == w.rows[r].result && HeldBy(w, NextResultOf(r)) == w.rows[r].nextResult;
  }

  lemma FreeRowsPages(w: World, r: RowsId)
    requires Core(w) && r in w.rows && Unreferenced(w, r) && (w.rows[r].statement ==> w.statementRefs > 0)
    ensures Pages(FreeRows(w, r))
  {
    hide PagesOk, OwnedOk, StatementOk, FreshOk, OnlyDrops, RowsOk, FutureOk, Release;
    var t, gone := FreeRows(w, r), {ResultOf(r), NextResultOf(r)};
    FreeRowsDrops(w, r);
    FreeRowsKeeps(w, r);
    forall k | k in t.rows ensures RowsOk(t.rows[k], t.content, t.refs, t.futures, t.values) {
      if w.rows[k].futureNextPage.PendingRows? { PendingKnown(w, k); }
      RowsSurvive(w, t, k, gone);
    }
    forall f | f in t.futures ensures FutureOk(t.futures[f], t.content, t.refs) {
      FutureSurvives(w, t, f, gone);
    }
    forall v | v in t.values ensures ValueOk(t.values[v], t.rows) {
      ValueFacts(w, v);
    }
    MakePages(t);
  }

  lemma FreeRowsKeeps(w: World, r: RowsId)
    requires r in w.rows && (w.rows[r].statement ==> w.statementRefs > 0)
    ensures FreeRows(w, r).futures == w.futures && FreeRows(w, r).values == w.values
  {
  }

  lemma PendingKnown(w: World, k: RowsId)
    requires Pages(w) && k in w.rows && w.rows[k].futureNextPage.PendingRows?
    ensures w.rows[k].futureNextPage.f in w.futures
  {
    RowsFacts(w, k);
  }

  lemma ValueFacts(w: World, v: ValueId)
    requires Pages(w) && v in w.values
    ensures ValueOk(w.values[v], w.rows)
  {
  }

  lemma MakePages(w: World)
    requires forall r :: r in w.rows ==> RowsOk(w.rows[r], w.content, w.refs, w.futures, w.values)
    requires forall f :: f in w.futures ==> FutureOk(w.futures[f], w.content, w.refs)
    requires forall v :: v in w.values ==> ValueOk(w.values[v], w.rows)
    ensures Pages(w)
  {
  }

  /** Dropping the reference an owner holds, step by step. */
  lemma ReleaseOwned(was: World, now: World, o: Owner)
    requires Owned(was) && HeldBy(now, o).None? && OthersHold(was, now, {o})
    requires now.refs == Release(was, HeldBy(was, o)).refs && now.owner == Release(was, HeldBy(was, o)).owner
    ensures Owned(now)
  {
    hide Holds, OwnedOk;
    if HeldBy(was, o).Some? {
      OwnedRelease(was, now, o);
    } else {
      assert OthersHold(was, now, {}) by { NothingHeld(was, now, o); }
      OwnedSame(was, now);
    }
  }

  lemma NothingHeld(was: World, now: World, o: Owner)
    requires HeldBy(was, o).None? && HeldBy(now, o).None? && OthersHold(was, now, {o})
    ensures OthersHold(was, now, {})
  {
    hide Holds;
  }

  /** `w` with the first, then the second result of `r` dropped. */
  function Dropped(w: World, r: RowsId): World
    requires r in w.rows
  {
    Release(w, w.rows[r].result).(rows := w.rows[r := w.rows[r].(result := None)])
  }

  function DroppedBoth(w: World, r: RowsId): World
    requires r in w.rows
  {
    Release(Dropped(w, r), w.rows[r].nextResult).(rows := w.rows[r := w.rows[r].(result := None, nextResult := None)])
  }

  lemma DroppedChanges(w: World, r: RowsId)
    requires r in w.rows
    ensures OthersHold(w, Dropped(w, r), {ResultOf(r)}) && HeldBy(Dropped(w, r), ResultOf(r)).None?
  {
  }

  lemma DroppedBothChanges(w: World, r: RowsId)
    requires r in w.rows
    ensures OthersHold(Dropped(w, r), DroppedBoth(w, r), {NextResultOf(r)}) && HeldBy(DroppedBoth(w, r), NextResultOf(r)).None?
    ensures HeldBy(Dropped(w, r), NextResultOf(r)) == w.rows[r].nextResult
  {
  }

  lemma GoneChanges(w: World, r: RowsId)
    requires r in w.rows && (w.rows[r].statement ==> w.statementRefs > 0)
    ensures OthersHold(DroppedBoth(w, r), FreeRows(w, r), {})
    ensures FreeRows(w, r).refs == DroppedBoth(w, r).refs && FreeRows(w, r).owner == DroppedBoth(w, r).owner
  {
  }

  lemma FreeRowsOwned(w: World, r: RowsId)
    requires Owned(w) && r in w.rows && (w.rows[r].statement ==> w.statementRefs > 0)
    ensures Owned(FreeRows(w, r))
  {
    hide OwnedOk, OthersHold, FreeRows, Release, HeldBy;
    DroppedChanges(w, r);
    DroppedBothChanges(w, r);
    GoneChanges(w, r);
    assert HeldBy(w, ResultOf(r)) == w.rows[r].result by { ResultHeld(w, r); }
    ReleaseOwned(w, Dropped(w, r), ResultOf(r));
    ReleaseSame(Dropped(w, r), DroppedBoth(w, r), w.rows[r].nextResult);
    ReleaseOwned(Dropped(w, r), DroppedBoth(w, r), NextResultOf(r));
    OwnedSame(DroppedBoth(w, r), FreeRows(w, r));
  }

  lemma ResultHeld(w: World, r: RowsId)
    requires r in w.rows
    ensures HeldBy(w, ResultOf(r)) == w.rows[r].result
  {
  }

  lemma ReleaseSame(w: World, t: World, x: Option<Ref>)
    requires t == Release(w, x).(rows := t.rows)
    ensures t.refs == Release(w, x).refs && t.owner == Release(w, x).owner
  {
  }

  lemma FreeRowsCounts(w: World, r: RowsId)
    requires Core(w) && r in w.rows && (w.rows[r].statement ==> w.statementRefs > 0)
    ensures var t := FreeRows(w, r); StatementOk(t.rows, t.futures, t.statementRefs)
  {
    hide PagesOk, OwnedOk, FreshOk;
    assert WithStatement(w.rows - {r}) == WithStatement(w.rows) - {r};
  }

  lemma FreeRowsFresh(w: World, r: RowsId)
    requires Core(w) && r in w.rows && (w.rows[r].statement ==> w.statementRefs > 0)
    ensures FreshOk(FreeRows(w, r))
  {
    hide OwnedOk, StatementOk;
    RowsFacts(w, r);
  }

  lemma FreeRowsSettled(w: World, r: RowsId)
    requires WorldOk(w) && r in w.rows && (w.rows[r].statement ==> w.statementRefs > 0)
    ensures var t := FreeRows(w, r);
            t.content == w.content && t.decodable == w.decodable && t.deterministic == w.deterministic &&
            (t.deterministic ==> SettledOk(t.rows, t.content, t.decodable))
  {
    hide PagesOk, OwnedOk, StatementOk, FreshOk, Settled;
  }

  lemma FreeRowsOk(w: World, r: RowsId)
    requires WorldOk(w) && r in w.rows && Unreferenced(w, r) && (w.rows[r].statement ==> w.statementRefs > 0)
    ensures WorldOk(FreeRows(w, r))
  {
    hide PagesOk, OwnedOk, Unreferenced, FreeRows, StatementOk, FreshOk, SettledOk;
    FreeRowsPages(w, r);
    FreeRowsOwned(w, r);
    FreeRowsCounts(w, r);
    FreeRowsFresh(w, r);
    FreeRowsSettled(w, r);
  }

  lemma FreeFuturePages(w: World, f: FutureId)
    requires Core(w) && f in w.futures && NotPending(w, f) && w.statementRefs > 0
    ensures Pages(FreeFuture(w, f))
  {
    hide PagesOk, OwnedOk, StatementOk, FreshOk, OnlyDrops, RowsOk, FutureOk, Release;
    var t, gone := FreeFuture(w, f), {FutureResultOf(f)};
    FreeFutureDrops(w, f);
    forall k | k in t.rows ensures RowsOk(t.rows[k], t.content, t.refs, t.futures, t.values) {
      if w.rows[k].futureNextPage.PendingRows? { PendingKnown(w, k); }
      RowsSurvive(w, t, k, gone);
    }
    forall g | g in t.futures ensures FutureOk(t.futures[g], t.content, t.refs) {
      FutureSurvives(w, t, g, gone);
    }
    forall v | v in t.values ensures ValueOk(t.values[v], t.rows) {
      ValueFacts(w, v);
    }
    MakePages(t);
  }

  lemma FreeFutureDrops(w: World, f: FutureId)
    requires f in w.futures && w.statementRefs > 0
    ensures OnlyDrops(w, FreeFuture(w, f), {FutureResultOf(f)})
    ensures var t := FreeFuture(w, f); t.rows == w.rows && t.values == w.values && t.futures == w.futures - {f}
    ensures OthersHold(w, FreeFuture(w, f), {FutureResultOf(f)})
  {
    assert HeldBy(w, FutureResultOf(f)) == w.futures[f].result;
  }

  lemma FreeFutureRest(w: World, f: FutureId)
    requires Core(w) && f in w.futures && w.statementRefs > 0
    ensures var t := FreeFuture(w, f);
            && t.content == w.content && t.decodable == w.decodable && t.deterministic == w.deterministic && t.rows == w.rows
            && StatementOk(t.rows, t.futures, t.statementRefs)
  {
    hide PagesOk, OwnedOk, WithStatement, FreshOk;
    assert w.futures.Keys == (w.futures - {f}).Keys + {f};
    assert |(w.futures - {f}).Keys| == |w.futures - {f}| && |w.futures.Keys| == |w.futures|;
  }

  lemma FreeFutureFresh(w: World, f: FutureId)
    requires Core(w) && f in w.futures && w.statementRefs > 0
    ensures FreshOk(FreeFuture(w, f))
  {
    hide PagesOk, OwnedOk, StatementOk;
    FutureFacts(w, f);
  }

  lemma FreeFutureOk(w: World, f: FutureId)
    requires WorldOk(w) && f in w.futures && NotPending(w, f) && w.statementRefs > 0
    ensures WorldOk(FreeFuture(w, f))
  {
    hide PagesOk, OwnedOk, NotPending, OthersHold, OnlyDrops, StatementOk, FreshOk, SettledOk;
    FreeFuturePages(w, f);
    FreeFutureDrops(w, f);
    FreeFutureRest(w, f);
    FreeFutureFresh(w, f);
    ReleaseOwned(w, FreeFuture(w, f), FutureResultOf(f));
  }

  lemma FreeValueOk(w: World, v: ValueId)
    requires WorldOk(w) && NotReady(w, v)
    ensures WorldOk(FreeValue(w, v))
  {
  }
}

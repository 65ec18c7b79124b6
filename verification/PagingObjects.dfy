/**
 * The Rows and FutureRows objects of one executed statement, updated in place, and what
 * their methods answer.
 */
module PagingObjects {
  import opened Sequences
  import opened Paging

  class Execution {
    const content: seq<seq<Row>>
    const decodable: seq<bool>
    const deterministic: bool
    var rows: map<RowsId, RowsObject>
    var futures: map<FutureId, FutureObject>
    var values: map<ValueId, ValueObject>
    var statementRefs: nat
    var pagingState: Option<nat>  // the page whose state the statement carries
    var refs: map<Ref, nat>       // the driver's results
    ghost var owner: map<Ref, Owner>
    ghost var freed: set<Ref>
    var nextRef: nat
    var nextObject: nat

    ghost function Snap(): World
      reads this
    {
      World(content, decodable, deterministic, rows, futures, values, statementRefs, refs, owner, freed, nextRef, nextObject)
    }

    ghost predicate Valid()
      reads this
    {
      WorldOk(Snap()) && ValuesReady(values, decodable, deterministic)
    }

    /** `decode` is what decoding that page does, if that is determined. */
    ghost predicate Faithful(page: nat, decode: bool)
      reads this
    {
      deterministic && page < |decodable| ==> decode == decodable[page]
    }

    method DecodeNext(r: RowsId)
      requires r in rows && rows[r].nextResult.Some? && rows[r].nextResult.value in refs
      requires refs[rows[r].nextResult.value] < |content|
      modifies this`rows
      ensures Snap() == CacheNext(old(Snap()), r, content[refs[old(rows[r].nextResult.value)]])
    {
      rows := rows[r := rows[r].(nextRows := Some(content[refs[rows[r].nextResult.value]]))];
    }

    /** The new object takes the result over only if pages follow it. */
    method Adopt(r: RowsId) returns (id: RowsId)
      requires r in rows && rows[r].nextRows.Some? && rows[r].nextResult.Some? && rows[r].nextResult.value in refs
      modifies this`rows, this`statementRefs, this`owner, this`nextObject
      ensures id == old(nextObject)
      ensures var page, decoded := refs[old(rows[r].nextResult.value)], old(rows[r].nextRows.value);
              Snap() == if page + 1 < |content| then BirthFromNext(old(Snap()), r, page, decoded)
                        else BirthLast(old(Snap()), page, decoded)
    {
      var x := rows[r].nextResult.value;
      var o := NewRows(refs[x], rows[r].nextRows.value);
      id := nextObject;
      nextObject := id + 1;
      if refs[x] + 1 < |content| {
        statementRefs := statementRefs + 1;
        rows := rows[r := rows[r].(nextResult := None)][id := o.(statement := true, result := Some(x))];
        owner := owner[x := ResultOf(id)];
      } else {
        rows := rows[id := o];
      }
    }

    /** A Rows object for the result in next_result of `r`. None if decoding throws. */
    method RowsCreate(r: RowsId, decode: bool) returns (made: Option<RowsId>)
      requires Core(Snap()) && r in rows && rows[r].nextResult.Some? && AlmostSettled(Snap(), r)
      requires Faithful(rows[r].page + 1, decode)
      modifies this`rows, this`statementRefs, this`owner, this`nextObject
      ensures WorldOk(Snap()) && Extends(old(Snap()), Snap())
      ensures made.None? <==> old(rows[r].nextRows).None? && !decode
      ensures made.None? ==> Snap() == old(Snap())
      ensures made.Some? ==> made.value in rows && made.value !in old(rows) && rows[made.value].page == old(rows[r].page) + 1
      ensures r in rows && rows[r].futureNextPage == old(rows[r].futureNextPage)
      ensures made.Some? && old(rows[r].page) + 2 < |content| ==> rows[r].nextResult.None?
      ensures values == old(values)
    {
      hide Core, Extends, AlmostSettled, WorldOk, BirthFromNext, BirthLast;
      ghost var was := Snap();
      NextFacts(was, r);
      if rows[r].nextRows.None? {
        if !decode {
          FailedOk(was, r);
          return None;
        }
        DecodeNext(r);
      }
      var id := Adopt(r);
      assert Snap() == Created(was, r);
      CreatedOk(was, r);
      made := Some(id);
    }

    // ---- the two ways to get the next page's result ------------------------

    /** Ask the server for the page after that of `r`. */
    method FetchNext(r: RowsId, reply: bool) returns (ok: bool)
      requires r in rows && rows[r].result.Some? && rows[r].result.value in refs
      modifies this`pagingState, this`rows, this`refs, this`owner, this`nextRef
      ensures ok == reply && pagingState == Some(old(refs[rows[r].result.value]))
      ensures Snap() == if ok then AcquireNext(old(Snap()), r, old(refs[rows[r].result.value]) + 1) else old(Snap())
    {
      pagingState := Some(refs[rows[r].result.value]);
      if !reply {
        return false;
      }
      var x := nextRef;
      nextRef := x + 1;
      refs := refs[x := pagingState.value + 1];
      owner := owner[x := NextResultOf(r)];
      rows := rows[r := rows[r].(nextResult := Some(x))];
      ok := true;
    }

    /** The result of a driver future is taken once and kept until it is moved out. */
    method FutureGetResult(f: FutureId, reply: bool) returns (ok: bool)
      requires f in futures
      modifies this`futures, this`refs, this`owner, this`nextRef
      ensures ok <==> old(futures[f].result).Some? || reply
      ensures f in futures && futures[f].rows == old(futures[f].rows)
      ensures Snap() == if ok && old(futures[f].result).None? then AcquireFuture(old(Snap()), f) else old(Snap())
    {
      if futures[f].result.None? {
        if !reply {
          return false;
        }
        var x := nextRef;
        nextRef := x + 1;
        refs := refs[x := futures[f].page];
        owner := owner[x := FutureResultOf(f)];
        futures := futures[f := futures[f].(result := Some(x))];
      }
      ok := true;
    }

    method TakeFromFuture(f: FutureId, r: RowsId)
      requires f in futures && futures[f].result.Some? && r in rows
      modifies this`futures, this`rows, this`owner
      ensures Snap() == MoveToNext(old(Snap()), f, r)
    {
      var x := futures[f].result.value;
      rows := rows[r := rows[r].(nextResult := Some(x))];
      futures := futures[f := futures[f].(result := None)];
      owner := owner[x := NextResultOf(r)];
    }

    // ---- the methods of Rows -----------------------------------------------

    method IsLastPage(r: RowsId) returns (last: bool)
      requires Valid() && r in rows
      ensures last <==> rows[r].page + 1 == |content|
    {
      hide Owned, OwnedOk, StatementOk, FreshOk;
      RowsFacts(Snap(), r);
      last := rows[r].result.None? && rows[r].nextRows.None? && rows[r].futureNextPage.Undef?;
    }

    /** Whatever was asked before, the next page of page i is page i + 1. */
    method NextPage(r: RowsId, reply: bool, decode: bool) returns (answer: Answer)
      requires Valid() && r in rows && Faithful(rows[r].page + 1, decode)
      modifies this
      ensures Valid() && Extends(old(Snap()), Snap())
      ensures answer.Page? ==> answer.r in rows && answer.r !in old(rows) && rows[answer.r].page == old(rows[r].page) + 1
      ensures answer.Page? ==> rows[answer.r].page < |content| && rows[answer.r].rows == content[rows[answer.r].page]
      ensures answer.NoPage? <==> old(rows[r].page) + 1 == |content|
      ensures answer == Threw(UnexpectedFuture) <==>
                old(rows[r].nextResult).None? && old(rows[r].futureNextPage).ReadyValue?
      ensures deterministic ==> answer != Threw(UnexpectedFuture)
      ensures answer == Threw(RequestFailed) <==> !reply && MustAsk(old(Snap()), r)
      ensures answer == Threw(DecodeFailed) <==>
                !decode && old(rows[r].nextRows).None? && (old(rows[r].nextResult).Some? || Obtainable(old(Snap()), r, reply))
      ensures answer == Threw(DecodeFailed) ==> r in rows && rows[r].nextResult.Some?
      ensures answer == Threw(DecodeFailed) ==> rows[r].futureNextPage == old(rows[r].futureNextPage)
      ensures deterministic && reply && decode && old(rows[r].page) + 1 < |content| ==> answer.Page?
    {
      hide Core, Extends, AlmostSettled, WorldOk;
      ghost var was := Snap();
      RowsKnown(was, r);
      if rows[r].nextResult.None? {
        var obtained := ObtainNext(r, reply);
        if obtained.Nothing? {
          return NoPage;
        }
        if obtained.Failed? {
          return Threw(obtained.problem);
        }
      }
      ghost var ready := Snap();
      var made := RowsCreate(r, decode);
      ExtendsTrans(was, ready, Snap());
      answer := if made.Some? then Page(made.value) else Threw(DecodeFailed);
      if made.Some? {
        RowsKnown(Snap(), made.value);
      }
    }

    /** Fill next_result of `r`, from the pending future if there is one, else from the server. */
    method ObtainNext(r: RowsId, reply: bool) returns (obtained: Obtained)
      requires Valid() && r in rows && rows[r].nextResult.None?
      modifies this
      ensures Extends(old(Snap()), Snap()) && rows.Keys == old(rows.Keys) && rows[r].page == old(rows[r].page)
      ensures rows[r].futureNextPage == old(rows[r].futureNextPage) && rows[r].nextRows == old(rows[r].nextRows)
      ensures values == old(values)
      ensures obtained.Have? ==> Core(Snap()) && AlmostSettled(Snap(), r) && rows[r].nextResult.Some?
      ensures !obtained.Have? ==> Valid()
      ensures obtained.Nothing? <==> rows[r].page + 1 == |content|
      ensures obtained == Failed(UnexpectedFuture) <==> rows[r].futureNextPage.ReadyValue?
      ensures obtained == Failed(RequestFailed) <==> !reply && MustAsk(old(Snap()), r)
      ensures obtained == Have <==> Obtainable(old(Snap()), r, reply)
    {
      hide Core, Extends, AlmostSettled, WorldOk, AcquireNext, AcquireFuture, MoveToNext;
      ghost var was := Snap();
      RowsKnown(was, r);
      if !rows[r].futureNextPage.Undef? {
        if !rows[r].futureNextPage.PendingRows? {
          return Failed(UnexpectedFuture);
        }
        var f := rows[r].futureNextPage.f;
        var ok := FutureGetResult(f, reply);
        FutureGot(was, f, r);
        if !ok {
          return Failed(RequestFailed);
        }
        ghost var got := Snap();
        TakeFromFuture(f, r);
        Taken(was, got, f, r);
      } else {
        if rows[r].result.None? {
          return Nothing;
        }
        var ok := FetchNext(r, reply);
        if !ok {
          return Failed(RequestFailed);
        }
        Fetched(was, r);
      }
      obtained := Have;
    }

    method StartFutureRows(r: RowsId, page: nat) returns (f: FutureId)
      requires r in rows
      modifies this`futures, this`rows, this`statementRefs, this`nextObject
      ensures f == old(nextObject) && Snap() == StartFuture(old(Snap()), r, page)
    {
      f := nextObject;
      nextObject := f + 1;
      rows := rows[r := rows[r].(futureNextPage := PendingRows(f))];
      statementRefs := statementRefs + 1;
      futures := futures[f := FutureObject(page, None, None)];
    }

    method StartFutureValue(r: RowsId) returns (v: ValueId)
      requires r in rows
      modifies this`values, this`rows, this`nextObject
      ensures v == old(nextObject) && Snap() == StartValue(old(Snap()), r)
      ensures values == old(values)[v := ValueObject(old(rows[r].page) + 1, None)]
    {
      v := nextObject;
      nextObject := v + 1;
      values := values[v := ValueObject(rows[r].page + 1, None)];
      rows := rows[r := rows[r].(futureNextPage := ReadyValue(v))];
    }

    /** A FutureValue for the result in next_result; it stays without a value if decoding throws. */
    method ReadyNow(r: RowsId, decode: bool) returns (answer: NextPage)
      requires Valid() && r in rows && rows[r].nextResult.Some? && Faithful(rows[r].page + 1, decode)
      modifies this
      ensures Valid() && Extends(old(Snap()), Snap()) && r in rows
      ensures answer.ReadyValue? && answer == rows[r].futureNextPage
      ensures answer.v in values && values[answer.v].page == old(rows[r].page) + 1 && ValueOk(values[answer.v], rows)
      ensures answer.v !in old(values) && (values[answer.v].value.Some? <==> decode || old(rows[r].nextRows).Some?)
      ensures decode && old(rows[r].page) + 2 < |content| ==> rows[r].nextResult.None?
    {
      hide Core, Extends, AlmostSettled, WorldOk, StartValue;
      ghost var was := Snap();
      RowsKnown(was, r);
      NumberIsNew(was);
      var v := StartFutureValue(r);
      ValueStarted(was, r);
      answer := ReadyValue(v);
      ghost var started := Snap();
      var made := RowsCreate(r, decode);
      ExtendsTrans(was, started, Snap());
      if made.Some? {
        ghost var created := Snap();
        values := values[v := values[v].(value := made)];
        ValueSet(was, created, v, made.value);
      }
      FutureValueKnown(Snap(), answer);
    }

    /** The future of the next page: the one already there, a ready one, or a new request. */
    method NextPageAsync(r: RowsId, decode: bool) returns (answer: NextPage)
      requires Valid() && r in rows && Faithful(rows[r].page + 1, decode)
      modifies this
      ensures Valid() && Extends(old(Snap()), Snap()) && r in rows
      ensures answer.PendingRows? ==> answer.f in futures && futures[answer.f].page == old(rows[r].page) + 1
      ensures answer.ReadyValue? ==> answer.v in values && values[answer.v].page == old(rows[r].page) + 1
      ensures answer.ReadyValue? ==> ValueOk(values[answer.v], rows)
      ensures answer.Undef? <==> old(rows[r].page) + 1 == |content|
      ensures answer == rows[r].futureNextPage
      ensures !old(rows[r].futureNextPage).Undef? ==>
                answer == old(rows[r].futureNextPage) && Snap() == old(Snap()) && pagingState == old(pagingState)
      ensures old(rows[r].futureNextPage).Undef? && old(rows[r].nextResult).Some? ==>
                answer.ReadyValue? && answer.v !in old(values) &&
                (values[answer.v].value.Some? <==> decode || old(rows[r].nextRows).Some?)
      ensures old(rows[r].futureNextPage).Undef? && old(rows[r].nextResult).Some? && decode && old(rows[r].page) + 2 < |content| ==>
                rows[r].nextResult.None?
      ensures old(rows[r].futureNextPage).Undef? && old(rows[r].nextResult).None? && old(rows[r].page) + 1 < |content| ==>
                answer.PendingRows? && answer.f !in old(futures) && pagingState == Some(old(rows[r].page))
    {
      hide Core, Extends, AlmostSettled, WorldOk, StartValue, StartFuture;
      ghost var was := Snap();
      RowsKnown(was, r);
      if !rows[r].futureNextPage.Undef? {
        answer := rows[r].futureNextPage;
        FutureValueKnown(was, answer);
        return;
      }
      if rows[r].nextResult.Some? {
        answer := ReadyNow(r, decode);
        return;
      }
      if rows[r].result.None? {
        return Undef;
      }
      pagingState := Some(refs[rows[r].result.value]);
      NumberIsNew(was);
      var f := StartFutureRows(r, pagingState.value + 1);
      FutureStarted(was, r);
      answer := PendingRows(f);
    }

    // ---- FutureRows --------------------------------------------------------

    method DecodeFuture(f: FutureId)
      requires f in futures && futures[f].result.Some? && futures[f].result.value in refs
      requires refs[futures[f].result.value] < |content|
      modifies this`futures
      ensures Snap() == CacheFuture(old(Snap()), f, content[refs[old(futures[f].result.value)]])
    {
      futures := futures[f := futures[f].(rows := Some(content[refs[futures[f].result.value]]))];
    }

    method AdoptFuture(f: FutureId) returns (id: RowsId)
      requires f in futures && futures[f].rows.Some? && futures[f].result.Some? && futures[f].result.value in refs
      modifies this`rows, this`futures, this`statementRefs, this`owner, this`nextObject
      ensures id == old(nextObject)
      ensures var page, decoded := refs[old(futures[f].result.value)], old(futures[f].rows.value);
              Snap() == if page + 1 < |content| then BirthFromFuture(old(Snap()), f, page, decoded)
                        else BirthLast(old(Snap()), page, decoded)
    {
      var x := futures[f].result.value;
      var o := NewRows(refs[x], futures[f].rows.value);
      id := nextObject;
      nextObject := id + 1;
      if refs[x] + 1 < |content| {
        statementRefs := statementRefs + 1;
        rows := rows[id := o.(statement := true, result := Some(x))];
        futures := futures[f := futures[f].(result := None)];
        owner := owner[x := ResultOf(id)];
      } else {
        rows := rows[id := o];
      }
    }

    /** However often it is called, get() answers with the page the future was asked for. */
    method FutureGet(f: FutureId, reply: bool, decode: bool) returns (answer: Answer)
      requires Valid() && f in futures
      modifies this
      ensures Valid() && Extends(old(Snap()), Snap())
      ensures answer.Page? ==> answer.r in rows && answer.r !in old(rows) && rows[answer.r].page == old(futures[f].page)
      ensures answer.Page? ==> rows[answer.r].page < |content| && rows[answer.r].rows == content[rows[answer.r].page]
      ensures answer == Threw(RequestFailed) <==> old(futures[f].result).None? && !reply
      ensures answer == Threw(DecodeFailed) <==>
                (old(futures[f].result).Some? || reply) && old(futures[f].rows).None? && !decode
      ensures answer.Page? || answer == Threw(RequestFailed) || answer == Threw(DecodeFailed)
    {
      hide Core, Extends, WorldOk, AcquireFuture, CacheFuture, BirthFromFuture, BirthLast;
      ghost var was := Snap();
      var ok := FutureGetResult(f, reply);
      FutureGot(was, f, 0);
      if !ok {
        return Threw(RequestFailed);
      }
      ghost var got := Snap();
      FutureKnown(got, f);
      GotPage(was, got, f);
      if futures[f].rows.None? {
        if !decode {
          return Threw(DecodeFailed);
        }
        DecodeFuture(f);
        FutureCached(got, f);
      }
      ghost var cached := Snap();
      FutureKnown(cached, f);
      var id := AdoptFuture(f);
      FutureBorn(cached, f);
      ExtendsTrans(was, got, cached);
      ExtendsTrans(was, cached, Snap());
      NotBefore(was, cached, id);
      RowsKnown(Snap(), id);
      answer := Page(id);
    }

    /** FutureValue::get(): the page that was decoded, or null if decoding it failed. */
    method ValueGet(v: ValueId) returns (value: Option<RowsId>)
      requires Valid() && v in values
      ensures value == values[v].value
      ensures value.Some? ==> value.value in rows && rows[value.value].page == values[v].page
      ensures value.Some? ==> values[v].page < |content| && rows[value.value].rows == content[values[v].page]
      ensures deterministic && values[v].page < |decodable| && decodable[values[v].page] ==> value.Some?
    {
      hide Core, Extends, WorldOk;
      FutureValueKnown(Snap(), ReadyValue(v));
      value := values[v].value;
      if value.Some? {
        RowsKnown(Snap(), value.value);
      }
    }

    // ---- the end of an object ----------------------------------------------

    method FreeResult(x: Option<Ref>)
      modifies this`refs, this`owner, this`freed
      ensures Snap() == Release(old(Snap()), x)
    {
      if x.Some? {
        refs := refs - {x.value};
        owner := owner - {x.value};
        freed := freed + {x.value};
      }
    }

    method RowsFree(r: RowsId)
      requires Valid() && r in rows && Unreferenced(Snap(), r)
      modifies this
      ensures Valid() && (old(rows[r].statement) ==> old(statementRefs) > 0) && Snap() == FreeRows(old(Snap()), r)
    {
      hide WorldOk, Unreferenced, Release;
      ghost var was := Snap();
      StatementKnown(was, r);
      FreeRowsOk(was, r);
      var o := rows[r];
      FreeResult(o.result);
      FreeResult(o.nextResult);
      if o.statement {
        statementRefs := statementRefs - 1;
      }
      rows := rows - {r};
    }

    method FutureFree(f: FutureId)
      requires Valid() && f in futures && NotPending(Snap(), f)
      modifies this
      ensures Valid() && old(statementRefs) > 0 && Snap() == FreeFuture(old(Snap()), f)
    {
      hide WorldOk, NotPending;
      ghost var was := Snap();
      StatementKnownToFuture(was, f);
      FreeFutureOk(was, f);
      statementRefs := statementRefs - 1;
      FreeResult(futures[f].result);
      futures := futures - {f};
    }

    method ValueFree(v: ValueId)
      requires Valid() && v in values && NotReady(Snap(), v)
      modifies this`values
      ensures Valid() && Snap() == FreeValue(old(Snap()), v)
    {
      hide WorldOk, NotReady;
      FreeValueOk(Snap(), v);
      values := values - {v};
    }

    // ---- executing the statement -------------------------------------------

    /**
     * execute(): the first page, which keeps result and statement only if pages follow. A
     * request or a decode that fails leaves no object, no reference and no statement.
     */
    constructor Execute(pages: seq<seq<Row>>, decodes: seq<bool>, determined: bool, reply: bool, decode: bool)
      requires |pages| > 0 && |decodes| == |pages| && (determined ==> decode == decodes[0])
      ensures Valid() && content == pages && decodable == decodes && deterministic == determined
      ensures var more := |pages| > 1;
        && rows == (if reply && decode then map[0 := FirstRows(pages)] else map[])
        && refs == (if reply && decode && more then map[0 := 0] else map[])
        && freed == (if reply && !(decode && more) then {0} else {})
        && statementRefs == (if reply && decode && more then 1 else 0)
      ensures futures == map[] && values == map[]
    {
      content, decodable, deterministic := pages, decodes, determined;
      futures, values, pagingState := map[], map[], None;
      nextRef, nextObject := if reply then 1 else 0, 1;
      rows, refs, owner, freed, statementRefs := map[], map[], map[], {}, 0;
      if reply {
        if decode {
          rows := map[0 := FirstRows(pages)];
        }
        if decode && |pages| > 1 {
          refs, owner, statementRefs := map[0 := 0], map[0 := ResultOf(0)], 1;
        } else {
          freed := {0};
        }
      }
      new;
      FirstPageOk(Snap(), reply && decode);
    }

    /** executeAsync(): a future of the first page holds the statement. */
    constructor ExecuteAsync(pages: seq<seq<Row>>, decodes: seq<bool>, determined: bool)
      requires |pages| > 0 && |decodes| == |pages|
      ensures Valid() && content == pages && decodable == decodes && deterministic == determined
      ensures rows == map[] && futures == map[0 := FutureObject(0, None, None)] && values == map[] && statementRefs == 1
    {
      content, decodable, deterministic := pages, decodes, determined;
      rows, values, pagingState, freed := map[], map[], None, {};
      futures := map[0 := FutureObject(0, None, None)];
      nextRef, nextObject := 0, 1;
      statementRefs, refs, owner := 1, map[], map[];
      new;
      FirstFutureOk(Snap());
    }

    // ---- walking -----------------------------------------------------------

    /** One page on. Without a next page there is none because the request or the decode failed. */
    method WalkOn(r: RowsId, async: bool, reply: bool) returns (next: Option<RowsId>)
      requires Valid() && r in rows && rows[r].page + 1 < |content| == |decodable| && deterministic
      modifies this
      ensures Valid() && (next.None? ==> !reply || !decodable[old(rows[r].page) + 1])
      ensures next.Some? ==> next.value in rows && rows[next.value].page == old(rows[r].page) + 1
      ensures next.Some? ==> rows[next.value].rows == content[rows[next.value].page]
    {
      hide Core, Extends, WorldOk;
      ghost var before := Snap();
      RowsKnown(before, r);
      var decode := decodable[rows[r].page + 1];
      var answer;
      if async {
        var future := NextPageAsync(r, decode);
        if future.ReadyValue? {
          next := ValueGet(future.v);
          return;
        }
        answer := FutureGet(future.f, reply, decode);
      } else {
        answer := NextPage(r, reply, decode);
      }
      next := if answer.Page? then Some(answer.r) else None;
    }

    /**
     * Page after page, each fetched synchronously or through a future: the pages up to the
     * first that is not answered or cannot be decoded, which is the whole result set if none is.
     */
    method Walk(first: RowsId, async: nat -> bool, reply: nat -> bool) returns (all: seq<Row>, n: nat)
      requires Valid() && first in rows && rows[first].page == 0 && deterministic
      modifies this
      ensures Valid() && 1 <= n <= |content| == |decodable| && all == Concat(content[..n])
      ensures n < |content| ==> !reply(n) || !decodable[n]
      ensures (forall i :: 1 <= i < |content| ==> reply(i) && decodable[i]) ==> all == Concat(content)
    {
      hide Core, Extends, WorldOk;
      var r := first;
      RowsKnown(Snap(), r);
      all, n := rows[r].rows, 1;
      assert content[..1] == [content[0]] && Concat([]) == [];
      assert Concat(content[..1]) == content[0] by { ConcatSnoc(content, 0); }
      assert content[..|content|] == content;
      var last := IsLastPage(r);
      while !last
        invariant Valid() && r in rows && rows[r].page + 1 == n <= |content|
        invariant all == Concat(content[..n])
        invariant last <==> n == |content|
        decreases |content| - n
      {
        var next := WalkOn(r, async(n), reply(n));
        if next.None? {
          return;
        }
        r := next.value;
        ConcatSnoc(content, n);
        all, n := all + rows[r].rows, n + 1;
        last := IsLastPage(r);
      }
    }
  }

  /** A page that can be decoded was, whenever a FutureValue was made for it. */
  predicate ValuesReady(values: map<ValueId, ValueObject>, decodable: seq<bool>, deterministic: bool) {
    deterministic ==>
      forall v :: v in values && values[v].page < |decodable| && decodable[values[v].page] ==> values[v].value.Some?
  }

  /** The Rows object execute() hands out. */
  function FirstRows(pages: seq<seq<Row>>): RowsObject
    requires |pages| > 0
  {
    if |pages| > 1 then NewRows(0, pages[0]).(statement := true, result := Some(0)) else NewRows(0, pages[0])
  }

  lemma TakenExtends(was: World, got: World, f: FutureId, r: RowsId)
    requires Extends(was, got) && f in got.futures && got.futures[f].result.Some? && r in got.rows
    ensures Extends(was, MoveToNext(got, f, r))
  {
  }

  lemma FutureValueKnown(w: World, n: NextPage)
    requires WorldOk(w) && (n.ReadyValue? ==> n.v in w.values)
    ensures n.ReadyValue? ==> ValueOk(w.values[n.v], w.rows)
  {
    hide OwnedOk, StatementOk, FreshOk, RowsOk, SettledOk;
  }

  lemma ValueStarted(w: World, r: RowsId)
    requires WorldOk(w) && r in w.rows && w.rows[r].nextResult.Some?
    ensures var t := StartValue(w, r);
            && Core(t) && AlmostSettled(t, r) && Extends(w, t)
            && r in t.rows && t.rows[r] == w.rows[r].(futureNextPage := ReadyValue(w.nextObject))
            && w.nextObject in t.values && t.values[w.nextObject].page == w.rows[r].page + 1
  {
    hide OwnedOk, StatementOk, PagesOk, Extends;
    RowsFacts(w, r);
    StartValueCore(w, r);
    StartedExtends(w, r, w.rows[r].page + 1);
    var t := StartValue(w, r);
    forall k | k in t.rows - {r} && w.deterministic ensures Settled(t.rows[k], t.content, t.decodable) {
      assert k in w.rows && t.rows[k] == w.rows[k];
    }
  }

  lemma StartedExtends(w: World, r: RowsId, page: nat)
    requires FreshOk(w) && r in w.rows
    ensures Extends(w, StartValue(w, r)) && Extends(w, StartFuture(w, r, page))
  {
  }

  lemma StartFutureKnown(w: World, r: RowsId)
    requires r in w.rows && RowsOk(w.rows[r], w.content, w.refs, w.futures, w.values) && w.rows[r].result.Some?
    ensures w.rows[r].page + 1 < |w.content| && RefTo(w.refs, w.rows[r].result.value, w.rows[r].page)
  {
  }

  lemma ValueSet(was: World, w: World, v: ValueId, made: RowsId)
    requires WorldOk(w) && Extends(was, w) && v in w.values && made in w.rows && w.rows[made].page == w.values[v].page
    ensures var t := SetValue(w, v, made); WorldOk(t) && Extends(was, t)
  {
    hide PagesOk, OwnedOk, StatementOk, SettledOk, FreshOk;
    SetValueCore(w, v, made);
  }

  lemma FutureStarted(w: World, r: RowsId)
    requires WorldOk(w) && r in w.rows && w.rows[r].nextResult.None? && w.rows[r].result.Some?
    ensures w.rows[r].result.value in w.refs && w.refs[w.rows[r].result.value] == w.rows[r].page
    ensures var t := StartFuture(w, r, w.rows[r].page + 1);
            && WorldOk(t) && Extends(w, t) && w.nextObject in t.futures && t.futures[w.nextObject].page == w.rows[r].page + 1
            && r in t.rows && t.rows[r].futureNextPage == PendingRows(w.nextObject)
  {
    hide OwnedOk, StatementOk, PagesOk, Extends, RowsOk;
    RowsKnown(w, r);
    StartFutureKnown(w, r);
    StartFutureCore(w, r);
    StartedExtends(w, r, w.rows[r].page + 1);
    var t := StartFuture(w, r, w.rows[r].page + 1);
    forall k | k in t.rows && w.deterministic ensures Settled(t.rows[k], t.content, t.decodable) {
      assert k in w.rows && Settled(w.rows[k], w.content, w.decodable);
    }
  }

  /** The page after that of `r` is not at hand: the server, or the future under way, has to answer. */
  predicate MustAsk(w: World, r: RowsId)
    requires r in w.rows
  {
    var o := w.rows[r];
    && o.nextResult.None? && o.page + 1 < |w.content|
    && (o.futureNextPage.Undef?
        || (o.futureNextPage.PendingRows? && o.futureNextPage.f in w.futures && w.futures[o.futureNextPage.f].result.None?))
  }

  predicate Obtainable(w: World, r: RowsId, reply: bool)
    requires r in w.rows
  {
    w.rows[r].page + 1 < |w.content| && !w.rows[r].futureNextPage.ReadyValue? && (MustAsk(w, r) ==> reply)
  }

  lemma NumberIsNew(w: World)
    requires WorldOk(w)
    ensures w.nextObject !in w.rows && w.nextObject !in w.futures && w.nextObject !in w.values
  {
    hide PagesOk, OwnedOk, StatementOk, SettledOk;
  }

  datatype Obtained = Have | Nothing | Failed(problem: Problem)

  lemma RowsKnown(w: World, r: RowsId)
    requires WorldOk(w) && r in w.rows
    ensures Core(w) && |w.decodable| == |w.content|
    ensures RowsOk(w.rows[r], w.content, w.refs, w.futures, w.values)
    ensures AlmostSettled(w, r) && Extends(w, w)
    ensures w.deterministic ==> Settled(w.rows[r], w.content, w.decodable)
  {
    hide OwnedOk, StatementOk, FreshOk;
    RowsFacts(w, r);
  }

  lemma ExtendsTrans(a: World, b: World, c: World)
    requires Extends(a, b) && Extends(b, c)
    ensures Extends(a, c)
  {
  }

  /** A filled next_result is all that separates `now` from a settled world. */
  lemma AlmostAfter(was: World, now: World, r: RowsId)
    requires WorldOk(was) && r in was.rows && was.rows[r].nextResult.None? && r in now.rows
    requires now.content == was.content && now.decodable == was.decodable && now.deterministic == was.deterministic
    requires now.rows == was.rows[r := was.rows[r].(nextResult := now.rows[r].nextResult)]
    ensures AlmostSettled(now, r)
  {
    hide Core;
    forall k | k in now.rows - {r} && now.deterministic ensures Settled(now.rows[k], now.content, now.decodable) {
      assert k in was.rows;
    }
  }

  lemma Fetched(w: World, r: RowsId)
    requires WorldOk(w) && r in w.rows && w.rows[r].nextResult.None? && w.rows[r].result.Some?
    ensures w.rows[r].result.value in w.refs && w.refs[w.rows[r].result.value] == w.rows[r].page
    ensures var t := AcquireNext(w, r, w.rows[r].page + 1);
            Core(t) && AlmostSettled(t, r) && Extends(w, t) && t.rows.Keys == w.rows.Keys &&
            t.rows[r] == w.rows[r].(nextResult := Some(w.nextRef))
  {
    hide OwnedOk, StatementOk, AlmostSettled, SettledOk, PagesOk, Extends;
    RowsFacts(w, r);
    AcquireNextCore(w, r);
    FetchedExtends(w, r);
    AlmostAfter(w, AcquireNext(w, r, w.rows[r].page + 1), r);
  }

  lemma FetchedExtends(w: World, r: RowsId)
    requires FreshOk(w) && r in w.rows
    ensures Extends(w, AcquireNext(w, r, w.rows[r].page + 1))
  {
  }

  lemma FutureGot(w: World, f: FutureId, r: RowsId)
    requires WorldOk(w) && f in w.futures
    ensures w.futures[f].result.None? ==>
              WorldOk(AcquireFuture(w, f)) && Extends(w, AcquireFuture(w, f)) && AcquireFuture(w, f).rows == w.rows &&
              f in AcquireFuture(w, f).futures && AcquireFuture(w, f).futures[f].result.Some?
    ensures Extends(w, w)
  {
    hide PagesOk, OwnedOk, StatementOk, SettledOk;
    if w.futures[f].result.None? {
      AcquireFutureCore(w, f);
    }
  }

  lemma Taken(was: World, got: World, f: FutureId, r: RowsId)
    requires WorldOk(got) && Extends(was, got) && got.rows == was.rows
    requires f in got.futures && got.futures[f].result.Some? && r in got.rows && got.rows[r].nextResult.None?
    requires got.rows[r].futureNextPage == PendingRows(f)
    ensures var t := MoveToNext(got, f, r);
            Core(t) && AlmostSettled(t, r) && Extends(was, t) && t.rows.Keys == was.rows.Keys &&
            t.rows[r] == was.rows[r].(nextResult := got.futures[f].result)
  {
    hide OwnedOk, StatementOk, FreshOk, AlmostSettled, SettledOk, PagesOk, Extends;
    RowsFacts(got, r);
    MoveToNextCore(got, f, r);
    TakenExtends(was, got, f, r);
    AlmostAfter(got, MoveToNext(got, f, r), r);
  }

  function Concat(pages: seq<seq<Row>>): seq<Row> {
    if pages == [] then [] else Concat(pages[..|pages| - 1]) + pages[|pages| - 1]
  }

  lemma {:induction false} ConcatSplits(a: seq<seq<Row>>, b: seq<seq<Row>>)
    ensures Concat(a + b) == Concat(a) + Concat(b)
    ensures forall page: seq<Row> :: Concat([page]) == page
    decreases |b|
  {
    if b == [] {
      assert a + b == a;
    } else {
      var n := |b| - 1;
      assert (a + b)[..|a + b| - 1] == a + b[..n];
      ConcatSplits(a, b[..n]);
    }
    forall page: seq<Row> ensures Concat([page]) == page {
      assert [page][..0] == [];
      assert Concat([]) + page == page;
    }
  }

  lemma ConcatSnoc(pages: seq<seq<Row>>, i: nat)
    requires i < |pages|
    ensures Concat(pages[..i + 1]) == Concat(pages[..i]) + pages[i]
  {
    assert pages[..i + 1][..i] == pages[..i];
  }

  lemma StatementKnown(w: World, r: RowsId)
    requires WorldOk(w) && r in w.rows
    ensures w.rows[r].statement ==> w.statementRefs > 0
  {
    hide PagesOk, OwnedOk, FreshOk, SettledOk, StatementOk;
    if w.rows[r].statement {
      StatementHeld(w, r);
    }
  }

  lemma StatementKnownToFuture(w: World, f: FutureId)
    requires WorldOk(w) && f in w.futures
    ensures w.statementRefs > 0
  {
    hide PagesOk, OwnedOk, FreshOk, SettledOk, StatementOk;
    StatementHeldByFuture(w, f);
  }

  lemma FutureKnown(w: World, f: FutureId)
    requires WorldOk(w) && f in w.futures
    ensures w.futures[f].page < |w.content| && (w.futures[f].result.Some? ==> RefTo(w.refs, w.futures[f].result.value, w.futures[f].page))
    ensures w.futures[f].rows.Some? ==> w.futures[f].rows.value == w.content[w.futures[f].page]
  {
    hide OwnedOk, StatementOk, FreshOk, SettledOk;
    FutureFacts(w, f);
  }

  lemma GotPage(was: World, got: World, f: FutureId)
    requires f in was.futures && Extends(was, got)
    ensures f in got.futures && got.futures[f].page == was.futures[f].page
  {
  }

  lemma FutureCached(w: World, f: FutureId)
    requires WorldOk(w) && f in w.futures && w.futures[f].page < |w.content|
    ensures var t := CacheFuture(w, f, w.content[w.futures[f].page]);
            WorldOk(t) && Extends(w, t) && f in t.futures && t.futures[f] == w.futures[f].(rows := Some(w.content[w.futures[f].page]))
  {
    hide PagesOk, OwnedOk, StatementOk, FreshOk, SettledOk, Extends;
    CacheFutureCore(w, f);
    CacheFutureExtends(w, f);
  }

  lemma FutureBorn(w: World, f: FutureId)
    requires WorldOk(w) && f in w.futures && w.futures[f].result.Some? && w.futures[f].page < |w.content|
    ensures var page := w.futures[f].page;
            var t := if page + 1 < |w.content| then BirthFromFuture(w, f, page, w.content[page]) else BirthLast(w, page, w.content[page]);
            WorldOk(t) && Extends(w, t) && w.nextObject in t.rows && t.rows[w.nextObject].page == page && w.nextObject !in w.rows
  {
    hide PagesOk, OwnedOk, StatementOk, Extends;
    var page := w.futures[f].page;
    if page + 1 < |w.content| {
      BirthFromFutureCore(w, f);
    } else {
      BirthLastCore(w, page);
    }
    FutureBornExtends(w, f);
    var t := if page + 1 < |w.content| then BirthFromFuture(w, f, page, w.content[page]) else BirthLast(w, page, w.content[page]);
    forall k | k in t.rows && w.deterministic ensures Settled(t.rows[k], t.content, t.decodable) {
      assert k != w.nextObject ==> k in w.rows && t.rows[k] == w.rows[k];
    }
  }

  lemma FutureBornExtends(w: World, f: FutureId)
    requires FreshOk(w) && f in w.futures && w.futures[f].result.Some? && w.futures[f].page < |w.content|
    ensures var page := w.futures[f].page;
            Extends(w, BirthFromFuture(w, f, page, w.content[page])) && Extends(w, BirthLast(w, page, w.content[page]))
  {
  }

  lemma NotBefore(was: World, now: World, id: RowsId)
    requires Extends(was, now) && id !in now.rows
    ensures id !in was.rows
  {
  }

  lemma SamePage(was: World, now: World, r: RowsId)
    requires Extends(was, now) && r in was.rows
    ensures r in now.rows && now.rows[r].page == was.rows[r].page
  {
  }

  predicate FirstPage(w: World, made: bool) {
    && |w.content| > 0 && w.futures == map[] && w.values == map[]
    && w.rows == (if made then map[0 := FirstRows(w.content)] else map[])
    && w.refs == (if made && |w.content| > 1 then map[0 := 0] else map[])
  }

  lemma FirstPageOk(w: World, made: bool)
    requires FirstPage(w, made) && |w.decodable| == |w.content| && w.nextObject == 1
    requires w.owner == if made && |w.content| > 1 then map[0 := ResultOf(0)] else map[]
    requires w.statementRefs == if made && |w.content| > 1 then 1 else 0
    requires forall x :: x in w.refs || x in w.freed ==> x < w.nextRef
    requires forall x :: x in w.refs ==> x !in w.freed
    ensures WorldOk(w)
  {
    hide OwnedOk, SettledOk, PagesOk;
    assert WithStatement(w.rows) == if made && |w.content| > 1 then {0} else {};
    assert PagesOk(w.content, w.refs, w.rows, w.futures, w.values) by { FirstPagePages(w, made); }
    assert OwnedOk(w.refs, w.rows, w.futures, w.owner) by { FirstPageOwned(w, made); }
    assert SettledOk(w.rows, w.content, w.decodable) by { FirstPageSettled(w); }
  }

  lemma FirstPagePages(w: World, made: bool)
    requires FirstPage(w, made)
    ensures PagesOk(w.content, w.refs, w.rows, w.futures, w.values)
  {
  }

  lemma FirstPageOwned(w: World, made: bool)
    requires FirstPage(w, made)
    requires w.owner == if made && |w.content| > 1 then map[0 := ResultOf(0)] else map[]
    ensures OwnedOk(w.refs, w.rows, w.futures, w.owner)
  {
    forall o: Owner | Holds(w.rows, w.futures, o).Some? ensures o == ResultOf(0) { }
  }

  lemma FirstPageSettled(w: World)
    requires |w.content| > 0
    requires forall r :: r in w.rows ==>
               w.rows[r].nextResult.None? && w.rows[r].nextRows.None? && w.rows[r].futureNextPage.Undef?
    ensures SettledOk(w.rows, w.content, w.decodable)
  {
  }

  lemma FirstFutureOk(w: World)
    requires |w.content| > 0 && |w.decodable| == |w.content| && w.rows == map[] && w.values == map[]
    requires w.futures == map[0 := FutureObject(0, None, None)] && w.statementRefs == 1 && w.refs == map[] && w.owner == map[]
    requires w.nextRef == 0 && w.nextObject == 1 && w.freed == {}
    ensures WorldOk(w)
  {
    hide OwnedOk;
    assert WithStatement(w.rows) == {};
    assert OwnedOk(w.refs, w.rows, w.futures, w.owner) by { NothingOwned(w); }
  }

  lemma NothingOwned(w: World)
    requires w.rows == map[] && w.futures == map[0 := FutureObject(0, None, None)] && w.refs == map[] && w.owner == map[]
    ensures OwnedOk(w.refs, w.rows, w.futures, w.owner)
  {
    assert forall o: Owner :: Holds(w.rows, w.futures, o).None?;
  }

  // ---- what the invariant means --------------------------------------------

  /** A reference to a driver result has one owner, and no owner's reference was freed. */
  lemma OneOwner(w: World, o: Owner, p: Owner)
    requires WorldOk(w) && HeldBy(w, o).Some?
    ensures HeldBy(w, o) == HeldBy(w, p) ==> o == p
    ensures HeldBy(w, o).value in w.refs && HeldBy(w, o).value !in w.freed
  {
    hide PagesOk, StatementOk, SettledOk, Holds;
  }

  /** The statement is freed exactly when no object holds it. */
  lemma StatementHeldIff(w: World)
    requires WorldOk(w)
    ensures w.statementRefs == |WithStatement(w.rows)| + |w.futures|
    ensures w.statementRefs == 0 <==> w.futures == map[] && forall r :: r in w.rows ==> !w.rows[r].statement
  {
    hide PagesOk, OwnedOk, SettledOk, FreshOk;
    if exists r :: r in w.rows && w.rows[r].statement {
      var r :| r in w.rows && w.rows[r].statement;
      assert r in WithStatement(w.rows);
    } else {
      assert WithStatement(w.rows) == {};
    }
  }

  /** With every Rows and FutureRows gone, nothing of the driver's is left. */
  lemma NothingLeaks(w: World)
    requires WorldOk(w) && w.rows == map[] && w.futures == map[]
    ensures w.refs == map[] && w.statementRefs == 0
  {
    hide PagesOk, SettledOk, FreshOk;
    assert WithStatement(w.rows) == {};
    assert w.refs.Keys == {};
  }

  /**
   * When decoding is not deterministic the unexpected future does appear: a decode that
   * fails once leaves next_result set, nextPageAsync() then stores a FutureValue and moves
   * the result away.
   */
  method UnexpectedFutureReached() returns (answer: Answer)
    ensures answer == Threw(UnexpectedFuture)
  {
    hide Core, WorldOk, Extends;
    var e := new Execution.Execute([[1], [2], [3]], [true, true, true], false, true, true);
    ghost var start := e.Snap();
    answer := e.NextPage(0, true, false);
    assert answer.Threw? && answer == Threw(answer.problem);
    assert answer.problem.DecodeFailed?;
    SamePage(start, e.Snap(), 0);
    var future := e.NextPageAsync(0, true);
    answer := e.NextPage(0, true, true);
  }
}

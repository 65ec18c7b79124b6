/** Sequence vocabulary shared by the list-shaped components. */
module Sequences {

  datatype Option<+T> = None | Some(value: T)

  ghost predicate NoDup<T>(s: seq<T>) {
    forall i, j :: 0 <= i < j < |s| ==> s[i] != s[j]
  }

  lemma HeadIsMember<T>(s: seq<T>)
    ensures s == [] || s[0] in s
  {
  }

  /** Drop the first occurrence of `x`. */
  function Remove<T(==)>(s: seq<T>, x: T): seq<T> {
    if s == [] then [] else if s[0] == x then s[1..] else [s[0]] + Remove(s[1..], x)
  }

  lemma {:induction false} RemoveMembers<T>(s: seq<T>, x: T)
    requires NoDup(s)
    ensures NoDup(Remove(s, x))
    ensures forall y :: y in Remove(s, x) <==> y in s && y != x
    ensures |Remove(s, x)| == if x in s then |s| - 1 else |s|
  {
    if s != [] {
      assert s == [s[0]] + s[1..];
      if s[0] != x {
        RemoveMembers(s[1..], x);
        assert s[0] !in s[1..];
      }
    }
  }

  lemma {:induction false} RemoveAt<T>(s: seq<T>, k: nat)
    requires NoDup(s) && k < |s|
    ensures Remove(s, s[k]) == s[..k] + s[k + 1..]
  {
    if k > 0 {
      assert s[0] != s[k];
      RemoveAt(s[1..], k - 1);
      assert s[1..][..k - 1] == s[1..k];
      assert s[1..][k..] == s[k + 1..];
    }
  }

  lemma NoDupConcat<T>(a: seq<T>, b: seq<T>)
    ensures NoDup(a + b) <==> NoDup(a) && NoDup(b) && forall x :: x in a ==> x !in b
  {
    if NoDup(a + b) {
      forall i, j | 0 <= i < j < |a| ensures a[i] != a[j] {
        assert (a + b)[i] == a[i] && (a + b)[j] == a[j];
      }
      forall i, j | 0 <= i < j < |b| ensures b[i] != b[j] {
        assert (a + b)[|a| + i] == b[i] && (a + b)[|a| + j] == b[j];
      }
      forall i, j | 0 <= i < |a| && 0 <= j < |b| ensures a[i] != b[j] {
        assert (a + b)[i] == a[i] && (a + b)[|a| + j] == b[j];
      }
    } else {
      var i, j :| 0 <= i < j < |a + b| && (a + b)[i] == (a + b)[j];
      if j < |a| {
        assert a[i] == a[j];
      } else if i < |a| {
        assert a[i] in a && b[j - |a|] in b;
      } else {
        assert b[i - |a|] == b[j - |a|];
      }
    }
  }

  /** The elements of `s` outside `gone`, in order. */
  function Without<T(==)>(s: seq<T>, gone: set<T>): seq<T> {
    if s == [] then []
    else (if s[0] in gone then [] else [s[0]]) + Without(s[1..], gone)
  }

  lemma {:induction false} WithoutMembers<T>(s: seq<T>, gone: set<T>)
    ensures forall x :: x in Without(s, gone) <==> x in s && x !in gone
    ensures NoDup(s) ==> NoDup(Without(s, gone))
  {
    if s != [] {
      assert s == [s[0]] + s[1..];
      WithoutMembers(s[1..], gone);
      var head := if s[0] in gone then [] else [s[0]];
      NoDupConcat([s[0]], s[1..]);
      NoDupConcat(head, Without(s[1..], gone));
    }
  }

  lemma {:induction false} WithoutAppend<T>(s: seq<T>, x: T, gone: set<T>)
    ensures Without(s + [x], gone) == Without(s, gone) + (if x in gone then [] else [x])
  {
    if s == [] {
      assert s + [x] == [x];
    } else {
      WithoutAppend(s[1..], x, gone);
      assert (s + [x])[1..] == s[1..] + [x];
    }
  }

  lemma {:induction false} WithoutTwice<T>(s: seq<T>, g1: set<T>, g2: set<T>)
    ensures Without(s, g1 + g2) == Without(Without(s, g1), g2)
  {
    if s != [] {
      WithoutTwice(s[1..], g1, g2);
      var rest := Without(s[1..], g1);
      if s[0] in g1 {
        assert Without(s, g1) == rest;
        assert Without(s, g1 + g2) == Without(s[1..], g1 + g2);
      } else {
        assert ([s[0]] + rest)[1..] == rest;
      }
    }
  }

  lemma {:induction false} WithoutConcat<T>(a: seq<T>, b: seq<T>, gone: set<T>)
    ensures Without(a + b, gone) == Without(a, gone) + Without(b, gone)
  {
    if a == [] {
      assert a + b == b;
    } else {
      WithoutConcat(a[1..], b, gone);
      var head := if a[0] in gone then [] else [a[0]];
      assert (a + b)[1..] == a[1..] + b;
      assert Without(a + b, gone) == head + Without(a[1..] + b, gone);
      assert head + (Without(a[1..], gone) + Without(b, gone)) == (head + Without(a[1..], gone)) + Without(b, gone);
    }
  }

  lemma {:induction false} WithoutNone<T>(s: seq<T>, gone: set<T>)
    requires forall x :: x in s ==> x !in gone
    ensures Without(s, gone) == s
  {
    if s != [] { WithoutNone(s[1..], gone); }
  }

  lemma {:induction false} WithoutAll<T>(s: seq<T>, gone: set<T>)
    requires forall x :: x in s ==> x in gone
    ensures Without(s, gone) == []
  {
    if s != [] { WithoutAll(s[1..], gone); }
  }

  lemma {:induction false} WithoutMiddle<T>(a: seq<T>, block: seq<T>, b: seq<T>, more: set<T>)
    requires NoDup(a + block + b)
    requires forall x :: x in more <==> x in block
    ensures Without(a + block + b, more) == a + b
  {
    hide Without, NoDup;
    assert forall x :: x in block ==> x in a + block;
    assert forall x :: x in a ==> x in a + block;
    NoDupConcat(a + block, b);
    NoDupConcat(a, block);
    WithoutConcat(a + block, b, more);
    WithoutConcat(a, block, more);
    WithoutNone(a, more);
    WithoutNone(b, more);
    WithoutAll(block, more);
  }

  /** Removing a whole block from the outstanding list leaves its neighbours in place. */
  lemma WithoutBlock<T>(log: seq<T>, gone: set<T>, a: seq<T>, block: seq<T>, b: seq<T>, more: set<T>)
    requires NoDup(log)
    requires Without(log, gone) == a + block + b
    requires forall x :: x in more <==> x in block
    ensures Without(log, gone + more) == a + b
  {
    WithoutMembers(log, gone);
    WithoutTwice(log, gone, more);
    WithoutMiddle(a, block, b, more);
  }
}

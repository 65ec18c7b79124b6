/** The reference parser reads exactly the RFC 3986 address language. */
module InetLanguage {
  import opened Sequences
  import opened InetGrammar
  import opened InetReference

  /** What can follow a point where a field is expected. */
  datatype Tail =
    | Plain(groups: seq<string>)                      // h16 *( ":" h16 )
    | WithQuad(groups: seq<string>, octets: seq<string>)  // *( h16 ":" ) IPv4address
    | Squeezed(groups: seq<string>, right: Right)     // h16 *( ":" h16 ) "::" right

  predicate IsTail(tl: Tail) {
    && Groups(tl.groups)
    && match tl
       case Plain(gs) => gs != []
       case WithQuad(_, ds) => Quad(ds)
       case Squeezed(gs, r) => gs != [] && IsRight(r)
  }

  function TailText(tl: Tail): string
    requires IsTail(tl)
  {
    match tl
    case Plain(gs) => LeftText(gs)
    case WithQuad(gs, ds) => Terminated(gs) + QuadText(ds)
    case Squeezed(gs, r) => LeftText(gs) + "::" + RightText(r)
  }

  function TailValue(acc: seq<Byte>, c: int, tl: Tail): Option<Inet>
    requires IsTail(tl) && -1 <= c <= |acc|
  {
    match tl
    case Plain(gs) => Finish(acc + GroupBytes(gs), c)
    case WithQuad(gs, ds) => FinishQuad(acc + GroupBytes(gs), c, QuadBytes(ds))
    case Squeezed(gs, r) => Finish(acc + GroupBytes(gs) + RightBytes(r), |acc| + 2 * |gs|)
  }

  // ---- text and bytes of group lists ---------------------------------------

  lemma {:induction false} TerminatedConcat(a: seq<string>, b: seq<string>)
    ensures Terminated(a + b) == Terminated(a) + Terminated(b)
  {
    if a == [] {
      assert a + b == b;
    } else {
      TerminatedConcat(a[1..], b);
      assert (a + b)[1..] == a[1..] + b;
    }
  }

  lemma {:induction false} GroupBytesConcat(a: seq<string>, b: seq<string>)
    requires Groups(a) && Groups(b)
    ensures Groups(a + b) && GroupBytes(a + b) == GroupBytes(a) + GroupBytes(b)
  {
    if a == [] {
      assert a + b == b;
    } else {
      GroupBytesConcat(a[1..], b);
      assert (a + b)[1..] == a[1..] + b;
    }
  }

  lemma LeftTextCons(gs: seq<string>)
    requires gs != []
    ensures LeftText(gs) == if |gs| == 1 then gs[0] else gs[0] + ":" + LeftText(gs[1..])
  {
    if |gs| == 1 {
      assert gs[..0] == [];
    } else {
      assert gs[..|gs| - 1] == [gs[0]] + gs[1..][..|gs| - 2];
      assert gs[..|gs| - 1][1..] == gs[1..][..|gs| - 2];
    }
  }

  lemma OneGroup(h: string)
    requires H16(h)
    ensures LeftText([h]) == h && Groups([h]) && GroupBytes([h]) == H16Bytes(h)
  {
    assert [h][..0] == [] && [h][1..] == [];
    assert GroupBytes([h]) == H16Bytes(h) + GroupBytes([]);
  }

  lemma PairList(hi: string, lo: string)
    requires H16(hi) && H16(lo)
    ensures Terminated([hi]) == hi + ":"
    ensures Groups([hi, lo]) && GroupBytes([hi, lo]) == Ls32Bytes(Pair(hi, lo))
  {
    assert [hi][1..] == [] && [hi, lo][1..] == [lo] && [lo][1..] == [];
    assert GroupBytes([lo]) == H16Bytes(lo) + GroupBytes([]);
  }

  /** ls32 as a pair closes a group list like any two groups. */
  lemma PairText(gs: seq<string>, hi: string, lo: string)
    requires Groups(gs) && H16(hi) && H16(lo)
    ensures LeftText(gs + [hi, lo]) == Terminated(gs) + Ls32Text(Pair(hi, lo))
    ensures Groups(gs + [hi, lo]) && GroupBytes(gs + [hi, lo]) == GroupBytes(gs) + Ls32Bytes(Pair(hi, lo))
  {
    hide Terminated, GroupBytes, H16, H16Bytes;
    var all := gs + [hi, lo];
    assert all[..|all| - 1] == gs + [hi];
    TerminatedConcat(gs, [hi]);
    PairList(hi, lo);
    GroupBytesConcat(gs, [hi, lo]);
  }

  // ---- completeness --------------------------------------------------------

  lemma FieldStep(acc: seq<Byte>, c: int, h: string, rest: string)
    requires -1 <= c <= |acc| && H16(h) && (rest == "" || rest[0] == ':')
    ensures Field(acc, c, h + rest) == if |acc| + 2 > 16 then None else AfterField(acc + H16Bytes(h), c, rest)
  {
    RunOfToken(h, rest);
  }

  /** The tail after its first group has been read. */
  function Rest(tl: Tail): Tail
    requires tl.groups != []
  {
    tl.(groups := tl.groups[1..])
  }

  /** Is there still a colon and a tail after the first group? */
  predicate Continues(tl: Tail) { tl.groups != [] && (tl.WithQuad? || |tl.groups| > 1) }

  function AfterGroup(tl: Tail): string
    requires IsTail(tl) && tl.groups != []
  {
    if Continues(tl) then ":" + TailText(Rest(tl))
    else if tl.Plain? then "" else "::" + RightText(tl.right)
  }

  lemma TailCons(tl: Tail)
    requires IsTail(tl) && tl.groups != []
    ensures H16(tl.groups[0]) && TailText(tl) == tl.groups[0] + AfterGroup(tl)
  {
    hide LeftText, RightText, QuadText, H16, Terminated;
    LeftTextCons(tl.groups);
    var h, gs := tl.groups[0], tl.groups[1..];
    match tl
    case Plain(_) =>
    case WithQuad(_, ds) =>
      TerminatedCons(tl.groups);
      assert h + ":" + Terminated(gs) + QuadText(ds) == h + (":" + (Terminated(gs) + QuadText(ds)));
    case Squeezed(_, r) =>
      if gs != [] {
        assert h + ":" + LeftText(gs) + "::" + RightText(r) == h + (":" + (LeftText(gs) + "::" + RightText(r)));
      }
  }

  lemma TerminatedCons(gs: seq<string>)
    requires gs != []
    ensures Terminated(gs) == gs[0] + ":" + Terminated(gs[1..])
  {
  }

  lemma TailValueCons(acc: seq<Byte>, c: int, tl: Tail)
    requires IsTail(tl) && Continues(tl) && -1 <= c <= |acc|
    ensures IsTail(Rest(tl)) && H16(tl.groups[0])
    ensures TailValue(acc, c, tl) == TailValue(acc + H16Bytes(tl.groups[0]), c, Rest(tl))
  {
    hide Finish, H16, H16Bytes, QuadBytes, RightBytes;
    assert H16(tl.groups[0]);
    var h, gs := H16Bytes(tl.groups[0]), tl.groups[1..];
    assert acc + GroupBytes(tl.groups) == (acc + h) + GroupBytes(gs);
  }

  lemma TailValueLast(acc: seq<Byte>, c: int, tl: Tail)
    requires IsTail(tl) && tl.groups != [] && !Continues(tl) && -1 <= c <= |acc|
    ensures H16(tl.groups[0])
    ensures var acc' := acc + H16Bytes(tl.groups[0]);
            TailValue(acc, c, tl) == if tl.Plain? then Finish(acc', c) else Finish(acc' + RightBytes(tl.right), |acc'|)
  {
    hide Finish, H16, H16Bytes, RightBytes, GroupBytes;
    assert tl.groups == [tl.groups[0]];
    OneGroup(tl.groups[0]);
  }

  lemma TailValueTooLong(acc: seq<Byte>, c: int, tl: Tail)
    requires IsTail(tl) && -1 <= c <= |acc| && tl.groups != [] && |acc| + 2 > 16
    ensures TailValue(acc, c, tl) == None
  {
    hide GroupBytes, RightBytes, QuadBytes, H16;
  }

  lemma TailHead(tl: Tail)
    requires IsTail(tl)
    ensures TailText(tl) != "" && HexDigit(TailText(tl)[0])
  {
    if tl.groups != [] {
      TailCons(tl);
    } else {
      OctetIsHex(tl.octets[0]);
    }
  }

  lemma QuadComplete(acc: seq<Byte>, c: int, ds: seq<string>)
    requires Quad(ds) && -1 <= c <= |acc|
    ensures Field(acc, c, QuadText(ds)) == FinishQuad(acc, c, QuadBytes(ds))
  {
    hide FinishQuad, AfterField, OctetList, DotJoin, OctetBytes, QuadBytes, DecOctet, Run;
    QuadIsJoin(ds);
    OctetsComplete(ds);
    OctetIsHex(ds[0]);
    var rest := "." + (ds[1] + "." + ds[2] + "." + ds[3]);
    assert QuadText(ds) == ds[0] + rest;
    RunOfToken(ds[0], rest);
  }

  lemma {:induction false} FieldComplete(acc: seq<Byte>, c: int, tl: Tail)
    requires IsTail(tl) && -1 <= c <= |acc| && (tl.Squeezed? ==> c == -1)
    ensures Field(acc, c, TailText(tl)) == TailValue(acc, c, tl)
    decreases if tl.Squeezed? then 2 else 0, |tl.groups|
  {
    hide TailText, TailValue, H16Bytes, H16, Field, IsTail, AfterField, AfterGroup, FinishQuad, QuadText;
    if tl.groups == [] {
      EmptyTail(acc, c, tl);
    } else {
      TailCons(tl);
      TailHeadColon(tl);
      FieldStep(acc, c, tl.groups[0], AfterGroup(tl));
      if |acc| + 2 > 16 {
        TailValueTooLong(acc, c, tl);
      } else {
        AfterComplete(acc, c, tl);
      }
    }
  }

  lemma EmptyTail(acc: seq<Byte>, c: int, tl: Tail)
    requires IsTail(tl) && -1 <= c <= |acc| && tl.groups == []
    ensures Field(acc, c, TailText(tl)) == TailValue(acc, c, tl)
  {
    hide Field, FinishQuad, QuadText;
    QuadComplete(acc, c, tl.octets);
    assert Terminated(tl.groups) + QuadText(tl.octets) == QuadText(tl.octets);
    assert acc + GroupBytes(tl.groups) == acc;
  }

  lemma TailHeadColon(tl: Tail)
    requires IsTail(tl) && tl.groups != []
    ensures AfterGroup(tl) == "" || AfterGroup(tl)[0] == ':'
  {
  }

  lemma {:induction false} AfterComplete(acc: seq<Byte>, c: int, tl: Tail)
    requires IsTail(tl) && tl.groups != [] && H16(tl.groups[0])
    requires -1 <= c <= |acc| && (tl.Squeezed? ==> c == -1)
    ensures AfterField(acc + H16Bytes(tl.groups[0]), c, AfterGroup(tl)) == TailValue(acc, c, tl)
    decreases if tl.Squeezed? then 2 else 0, |tl.groups|, 0
  {
    hide TailText, TailValue, H16Bytes, H16, Field, IsTail, RightText, RightBytes;
    var acc' := acc + H16Bytes(tl.groups[0]);
    if Continues(tl) {
      TailValueCons(acc, c, tl);
      var t := TailText(Rest(tl));
      assert (":" + t)[1..] == t;
      TailHead(Rest(tl));
      FieldComplete(acc', c, Rest(tl));
    } else {
      TailValueLast(acc, c, tl);
      if tl.Squeezed? {
        RightOf(tl);
        var t := RightText(tl.right);
        assert ("::" + t)[1..] == ":" + t && (":" + t)[1..] == t;
        RightComplete(acc', tl.right);
      }
    }
  }

  lemma RightOf(tl: Tail)
    requires IsTail(tl) && tl.Squeezed?
    ensures IsRight(tl.right)
  {
  }

  /** What stands after "::" read as a tail. */
  function RightTail(r: Right): Tail
    requires r.One? || r.More?
  {
    match r
    case One(h) => Plain([h])
    case More(gs, Pair(hi, lo)) => Plain(gs + [hi, lo])
    case More(gs, Dotted(ds)) => WithQuad(gs, ds)
  }

  lemma RightIsTail(acc: seq<Byte>, r: Right)
    requires IsRight(r) && !r.Nothing?
    ensures IsTail(RightTail(r)) && TailText(RightTail(r)) == RightText(r)
    ensures TailValue(acc, |acc|, RightTail(r)) == Finish(acc + RightBytes(r), |acc|)
  {
    hide Finish, H16, H16Bytes, QuadText, QuadBytes, Ls32Text, Ls32Bytes;
    match r
    case One(h) =>
      OneGroup(h);
    case More(gs, Pair(hi, lo)) =>
      assert IsLs32(Pair(hi, lo));
      PairText(gs, hi, lo);
    case More(gs, Dotted(ds)) =>
      assert IsLs32(Dotted(ds));
      assert Ls32Text(Dotted(ds)) == QuadText(ds) && Ls32Bytes(Dotted(ds)) == QuadBytes(ds) by { DottedIs(ds); }
      assert acc + GroupBytes(gs) + QuadBytes(ds) == acc + (GroupBytes(gs) + QuadBytes(ds));
  }

  lemma DottedIs(ds: seq<string>)
    requires Quad(ds)
    ensures Ls32Text(Dotted(ds)) == QuadText(ds) && Ls32Bytes(Dotted(ds)) == QuadBytes(ds)
  {
  }

  lemma {:induction false} RightComplete(acc: seq<Byte>, r: Right)
    requires IsRight(r)
    ensures Field(acc, |acc|, RightText(r)) == Finish(acc + RightBytes(r), |acc|)
    decreases 1, 0
  {
    hide TailText, TailValue, IsTail, Finish;
    if r.Nothing? {
      assert acc + RightBytes(r) == acc;
    } else {
      RightIsTail(acc, r);
      FieldComplete(acc, |acc|, RightTail(r));
    }
  }

  // ---- soundness -----------------------------------------------------------

  lemma Prepend(h: string, tl: Tail)
    requires H16(h) && IsTail(tl)
    ensures IsTail(tl.(groups := [h] + tl.groups))
    ensures TailText(tl.(groups := [h] + tl.groups)) == h + ":" + TailText(tl)
  {
    hide TailText, H16;
    var longer := tl.(groups := [h] + tl.groups);
    assert longer.groups[1..] == tl.groups;
    assert Rest(longer) == tl;
    TailCons(longer);
  }

  /** A tail without "::" of its own, read as what stands after one. */
  function TailRight(tl: Tail): Right
    requires IsTail(tl) && !tl.Squeezed?
  {
    match tl
    case Plain(gs) =>
      if |gs| == 1 then One(gs[0]) else More(gs[..|gs| - 2], Pair(gs[|gs| - 2], gs[|gs| - 1]))
    case WithQuad(gs, ds) => More(gs, Dotted(ds))
  }

  lemma TailRightIs(tl: Tail)
    requires IsTail(tl) && !tl.Squeezed?
    ensures var r := TailRight(tl); IsRight(r) && !r.Nothing? && RightTail(r) == tl && RightText(r) == TailText(tl)
  {
    hide H16, TailText, RightText;
    var r := TailRight(tl);
    if tl.Plain? && |tl.groups| > 1 {
      assert tl.groups == tl.groups[..|tl.groups| - 2] + [tl.groups[|tl.groups| - 2], tl.groups[|tl.groups| - 1]];
    }
    assert RightTail(r) == tl;
    RightIsTail([], r);
  }

  lemma QuadSound(t: string) returns (tl: Tail)
    requires OctetList(4, t).Some?
    ensures IsTail(tl) && TailText(tl) == t && !tl.Squeezed?
  {
    hide OctetList;
    var ds := OctetsSound(4, t);
    hide DotJoin, OctetBytes, QuadText;
    QuadIsJoin(ds);
    tl := WithQuad([], ds);
  }

  /** What can follow a group at the end of the text or before "::". */
  lemma LastSound(h: string, r: Right)
    requires H16(h) && IsRight(r)
    ensures IsTail(Plain([h])) && TailText(Plain([h])) == h
    ensures IsTail(Squeezed([h], r)) && TailText(Squeezed([h], r)) == h + "::" + RightText(r)
  {
    hide RightText, LeftText, H16;
    OneGroup(h);
  }

  lemma AfterColonCases(acc: seq<Byte>, c: int, t: string)
    requires -1 <= c <= |acc| && AfterField(acc, c, t).Some?
    ensures t == "" || (t[0] == ':' && AfterColon(acc, c, t[1..]).Some?)
    ensures |t| > 1 && t[1] == ':' ==> c == -1 && Field(acc, |acc|, t[2..]).Some? && t == "::" + t[2..]
    ensures t != "" && !(|t| > 1 && t[1] == ':') ==> Field(acc, c, t[1..]).Some? && t == ":" + t[1..]
  {
    hide Field;
    if |t| > 1 && t[1] == ':' {
      assert t[1..][1..] == t[2..];
    }
  }

  lemma {:induction false} FieldSound(acc: seq<Byte>, c: int, t: string) returns (tl: Tail)
    requires -1 <= c <= |acc| && t != "" && Field(acc, c, t).Some?
    ensures IsTail(tl) && TailText(tl) == t && (tl.Squeezed? ==> c == -1)
    decreases |t|, 1
  {
    hide IsTail, TailText, AfterField, FinishQuad, OctetList, Run;
    var k := Run(t);
    if k < |t| && t[k] == '.' && DecString(t[..k]) {
      tl := QuadSound(t);
    } else {
      assert t == t[..k] + t[k..];
      tl := AfterSound(acc, c, t[..k], t[k..]);
    }
  }

  lemma {:induction false} AfterSound(acc: seq<Byte>, c: int, h: string, t: string) returns (tl: Tail)
    requires -1 <= c <= |acc| && H16(h) && AfterField(acc + H16Bytes(h), c, t).Some?
    ensures IsTail(tl) && TailText(tl) == h + t && (tl.Squeezed? ==> c == -1)
    decreases |t|, 2
  {
    hide IsTail, TailText, Field, AfterField, H16, H16Bytes, IsRight, RightText;
    var acc' := acc + H16Bytes(h);
    AfterColonCases(acc', c, t);
    NothingIs();
    if t == "" {
      LastSound(h, Nothing);
      tl := Plain([h]);
    } else if |t| > 1 && t[1] == ':' {
      var right := RightSound(acc', t[2..]);
      LastSound(h, right);
      tl := Squeezed([h], right);
      assert h + "::" + t[2..] == h + ("::" + t[2..]);
    } else {
      EmptyField(acc', c);
      var rest := FieldSound(acc', c, t[1..]);
      Prepend(h, rest);
      tl := rest.(groups := [h] + rest.groups);
      assert h + ":" + t[1..] == h + (":" + t[1..]);
    }
  }

  lemma NothingIs()
    ensures IsRight(Nothing) && RightText(Nothing) == ""
  {
  }

  lemma EmptyField(acc: seq<Byte>, c: int)
    requires -1 <= c < |acc|
    ensures Field(acc, c, "") == None
  {
  }

  lemma {:induction false} RightSound(acc: seq<Byte>, t: string) returns (r: Right)
    requires Field(acc, |acc|, t).Some?
    ensures IsRight(r) && RightText(r) == t
    decreases |t|, 3
  {
    hide IsTail, TailText, Field, IsRight, RightText, TailRight;
    NothingIs();
    if t == "" {
      r := Nothing;
    } else {
      var tl := FieldSound(acc, |acc|, t);
      TailRightIs(tl);
      r := TailRight(tl);
    }
  }

  // ---- the theorem ---------------------------------------------------------

  lemma FullIs(gs: seq<string>, l: Ls32)
    requires |gs| == 6 && Groups(gs) && IsLs32(l)
    ensures IsTail(RightTail(More(gs, l))) && TailText(RightTail(More(gs, l))) == V6Text(Full(gs, l))
    ensures TailValue([], -1, RightTail(More(gs, l))) == Some(V6(V6Bytes(Full(gs, l))))
  {
    hide H16, H16Bytes, QuadText, QuadBytes, GroupBytes, Terminated, LeftText, Ls32Text, Ls32Bytes;
    match l
    case Pair(hi, lo) =>
      PairText(gs, hi, lo);
      assert [] + GroupBytes(gs + [hi, lo]) == GroupBytes(gs + [hi, lo]);
    case Dotted(ds) =>
      DottedIs(ds);
      assert [] + GroupBytes(gs) == GroupBytes(gs);
  }

  lemma CompressedIs(left: seq<string>, right: Right)
    requires Groups(left) && IsRight(right) && left != []
    ensures IsTail(Squeezed(left, right)) && TailText(Squeezed(left, right)) == LeftText(left) + "::" + RightText(right)
    ensures TailValue([], -1, Squeezed(left, right)) ==
            if |left| + RightSize(right) <= 7 then Some(V6(V6Bytes(Compressed(left, right)))) else None
  {
    hide H16, GroupBytes, RightBytes, RightText, LeftText, Zeros;
    var g, r := GroupBytes(left), RightBytes(right);
    var acc := [] + g + r;
    assert acc[..|g|] == g;
    assert acc[|g|..] == r;
  }

  lemma LeadingIs(right: Right)
    requires IsRight(right)
    ensures Finish([] + RightBytes(right), 0) ==
            if RightSize(right) <= 7 then Some(V6(V6Bytes(Compressed([], right)))) else None
    ensures LeftText([]) + "::" + RightText(right) == "::" + RightText(right)
  {
    hide RightBytes, RightText;
    var r := RightBytes(right);
    assert ([] + r)[..0] == [] && ([] + r)[0..] == r;
    assert GroupBytes([]) == [];
    assert forall z: seq<Byte> :: [] + z == z;
  }

  lemma ParseField(tl: Tail)
    requires IsTail(tl)
    ensures Parse(TailText(tl)) == TailValue([], -1, tl)
  {
    hide IsTail, TailText, TailValue, Field;
    TailHead(tl);
    FieldComplete([], -1, tl);
  }

  lemma ParseLeading(right: Right)
    requires IsRight(right)
    ensures Parse("::" + RightText(right)) == Finish([] + RightBytes(right), 0)
  {
    hide RightText, RightBytes, Finish, Field;
    assert ("::" + RightText(right))[2..] == RightText(right);
    RightComplete([], right);
  }

  /** The text of every grammar tree is read as the bytes the tree denotes. */
  lemma TreeIsParsed(t: V6Tree)
    requires IsV6(t)
    ensures Parse(V6Text(t)) == Some(V6(V6Bytes(t)))
  {
    hide Parse, TailText, TailValue, V6Bytes, IsTail, Finish, RightText, LeftText, RightBytes;
    match t
    case Full(gs, l) =>
      FullIs(gs, l);
      ParseField(RightTail(More(gs, l)));
    case Compressed(left, right) =>
      LeadingIs(right);
      if left == [] {
        ParseLeading(right);
      } else {
        CompressedIs(left, right);
        ParseField(Squeezed(left, right));
      }
  }

  lemma QuadIsParsed(ds: seq<string>)
    requires Quad(ds)
    ensures Parse(QuadText(ds)) == Some(V4(QuadBytes(ds)))
  {
    hide Field, QuadBytes, Finish, H16;
    var tl := WithQuad([], ds);
    assert IsTail(tl) && TailText(tl) == QuadText(ds);
    assert [] + GroupBytes([]) == [];
    ParseField(tl);
  }

  /** A successful reading comes from a grammar tree. */
  lemma TailDenotes(tl: Tail, a: Inet)
    requires IsTail(tl) && TailValue([], -1, tl) == Some(a)
    ensures Denotes(TailText(tl), a)
  {
    hide H16, TailText, QuadText, QuadBytes, V6Text, V6Bytes, LeftText, RightText, RightBytes, GroupBytes, Ls32Text, Ls32Bytes;
    match tl
    case Squeezed(gs, r) =>
      CompressedIs(gs, r);
      assert V6Text(Compressed(gs, r)) == TailText(tl) by { CompressedText(gs, r); }
    case Plain(gs) =>
      assert |gs| == 8;
      var six, l := gs[..6], Pair(gs[6], gs[7]);
      assert gs == six + [gs[6], gs[7]];
      FullIs(six, l);
      assert RightTail(More(six, l)) == tl && IsV6(Full(six, l));
    case WithQuad(gs, ds) =>
      if gs == [] {
        QuadTextIs(ds);
      } else {
        assert |gs| == 6;
        FullIs(gs, Dotted(ds));
        assert RightTail(More(gs, Dotted(ds))) == tl && IsV6(Full(gs, Dotted(ds)));
      }
  }

  lemma CompressedText(left: seq<string>, right: Right)
    requires IsV6(Compressed(left, right))
    ensures V6Text(Compressed(left, right)) == LeftText(left) + "::" + RightText(right)
  {
  }

  lemma QuadTextIs(ds: seq<string>)
    requires Quad(ds)
    ensures IsTail(WithQuad([], ds)) && TailText(WithQuad([], ds)) == QuadText(ds)
    ensures TailValue([], -1, WithQuad([], ds)) == Some(V4(QuadBytes(ds)))
  {
    hide QuadText, QuadBytes;
    assert [] + GroupBytes([]) == [];
  }

  /** Every accepted text is derivable, and denotes what was read. */
  lemma ParseSound(s: string, a: Inet)
    requires Parse(s) == Some(a)
    ensures Denotes(s, a)
  {
    hide Field, TailText, TailValue, IsTail, RightText, V6Text, V6Bytes, Finish, RightBytes, LeftText, Denotes;
    if s != "" && s[0] == ':' {
      assert s == "::" + s[2..];
      var right := RightSound([], s[2..]);
      ParseLeading(right);
      LeadingDenotes(right, a);
    } else {
      assert Field([], -1, "") == None by { NoEmptyText(); }
      var tl := FieldSound([], -1, s);
      FieldComplete([], -1, tl);
      TailDenotes(tl, a);
    }
  }

  lemma NoEmptyText()
    ensures Field([], -1, "") == None
  {
  }

  lemma LeadingDenotes(right: Right, a: Inet)
    requires IsRight(right) && Finish([] + RightBytes(right), 0) == Some(a)
    ensures Denotes("::" + RightText(right), a)
  {
    hide RightText, V6Text, V6Bytes, RightBytes, LeftText, Finish;
    LeadingIs(right);
    CompressedText([], right);
  }

  /** The reference parser decides the grammar and finds the denoted address. */
  lemma ParseIffDenotes(s: string, a: Inet)
    ensures Parse(s) == Some(a) <==> Denotes(s, a)
  {
    hide Parse, V6Text, V6Bytes, QuadText, QuadBytes;
    if Parse(s) == Some(a) {
      ParseSound(s, a);
    }
    if Denotes(s, a) {
      match a
      case V4(b) =>
        var ds: seq<string> :| Quad(ds) && QuadText(ds) == s && QuadBytes(ds) == b;
        QuadIsParsed(ds);
      case V6(b) =>
        var t: V6Tree :| IsV6(t) && V6Text(t) == s && V6Bytes(t) == b;
        TreeIsParsed(t);
    }
  }

  // ---- how long an address can be ------------------------------------------

  lemma {:induction false} TerminatedLength(gs: seq<string>)
    requires Groups(gs)
    ensures |Terminated(gs)| <= 5 * |gs|
  {
    if gs != [] {
      TerminatedLength(gs[1..]);
    }
  }

  lemma Ls32Length(l: Ls32)
    requires IsLs32(l)
    ensures |Ls32Text(l)| <= 15
  {
    if l.Dotted? {
      assert forall i :: 0 <= i < 4 ==> |l.octets[i]| <= 3;
    }
  }

  lemma RightLength(r: Right)
    requires IsRight(r)
    ensures |RightText(r)| <= 5 * RightSize(r) + 5
  {
    hide Terminated, Ls32Text;
    if r.More? {
      TerminatedLength(r.groups);
      Ls32Length(r.ls);
    }
  }

  /** No address is longer than 45 characters, so a longer limit refuses none. */
  lemma DenotesLength(s: string, a: Inet)
    requires Denotes(s, a)
    ensures |s| <= 45
  {
    hide Terminated, Ls32Text, RightText, H16, V6Bytes, QuadBytes;
    match a
    case V4(b) =>
      var ds: seq<string> :| Quad(ds) && QuadText(ds) == s && QuadBytes(ds) == b;
      Ls32Length(Dotted(ds));
      DottedIs(ds);
    case V6(b) =>
      var t: V6Tree :| IsV6(t) && V6Text(t) == s && V6Bytes(t) == b;
      match t
      case Full(gs, l) =>
        TerminatedLength(gs);
        Ls32Length(l);
      case Compressed(left, right) =>
        RightLength(right);
        if left != [] {
          TerminatedLength(left[..|left| - 1]);
          assert |left[|left| - 1]| <= 4 by { GroupLength(left, |left| - 1); }
        }
  }

  lemma GroupLength(gs: seq<string>, i: nat)
    requires Groups(gs) && i < |gs|
    ensures |gs[i]| <= 4
  {
  }

  // ---- which characters an address can hold --------------------------------

  predicate Alphabet(s: string) { forall i :: 0 <= i < |s| ==> HexDigit(s[i]) || s[i] == ':' || s[i] == '.' }

  lemma {:induction false} TerminatedAlphabet(gs: seq<string>)
    requires Groups(gs)
    ensures Alphabet(Terminated(gs))
  {
    if gs != [] {
      TerminatedAlphabet(gs[1..]);
      assert H16(gs[0]);
    }
  }

  lemma LeftAlphabet(gs: seq<string>)
    requires Groups(gs)
    ensures Alphabet(LeftText(gs))
  {
    hide Terminated;
    if gs != [] {
      TerminatedAlphabet(gs[..|gs| - 1]);
      assert H16(gs[|gs| - 1]);
    }
  }

  lemma QuadAlphabet(ds: seq<string>)
    requires Quad(ds)
    ensures Alphabet(QuadText(ds))
  {
    hide DecOctet;
    OctetIsHex(ds[0]);
    OctetIsHex(ds[1]);
    OctetIsHex(ds[2]);
    OctetIsHex(ds[3]);
  }

  lemma RightAlphabet(r: Right)
    requires IsRight(r)
    ensures Alphabet(RightText(r))
  {
    hide Terminated, QuadText;
    if r.More? {
      TerminatedAlphabet(r.groups);
      if r.ls.Dotted? {
        QuadAlphabet(r.ls.octets);
      }
    }
  }

  lemma DenotesAlphabet(s: string, a: Inet)
    requires Denotes(s, a)
    ensures Alphabet(s)
  {
    hide Terminated, QuadText, LeftText, RightText, QuadBytes, V6Bytes, H16;
    match a
    case V4(b) =>
      var ds: seq<string> :| Quad(ds) && QuadText(ds) == s && QuadBytes(ds) == b;
      QuadAlphabet(ds);
    case V6(b) =>
      var t: V6Tree :| IsV6(t) && V6Text(t) == s && V6Bytes(t) == b;
      match t
      case Full(gs, l) =>
        RightAlphabet(More(gs, l));
        assert RightText(More(gs, l)) == V6Text(t) by { FullText(gs, l); }
      case Compressed(left, right) =>
        LeftAlphabet(left);
        RightAlphabet(right);
  }

  lemma FullText(gs: seq<string>, l: Ls32)
    requires |gs| == 6 && Groups(gs) && IsLs32(l)
    ensures RightText(More(gs, l)) == V6Text(Full(gs, l))
  {
  }
}

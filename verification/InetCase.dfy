/** Addresses are case-insensitive, and a hex digit has the value of its place in the alphabet. */
module InetCase {
  import opened Sequences
  import opened InetGrammar
  import opened InetReference
  import opened InetLanguage

  /** ASCII upper case. */
  function UpperChar(c: char): char {
    if 'a' <= c <= 'z' then (c as int - 32) as char else c
  }

  function Upper(s: string): (u: string)
    ensures |u| == |s| && forall i :: 0 <= i < |s| ==> u[i] == UpperChar(s[i])
  {
    seq(|s|, i requires 0 <= i < |s| => UpperChar(s[i]))
  }

  lemma HexValueIsPlace(c: char)
    requires HexDigit(c)
    ensures "0123456789abcdef"[HexValue(c)] == c || "0123456789ABCDEF"[HexValue(c)] == c
  {
  }

  lemma UpperHex(c: char)
    ensures HexDigit(UpperChar(c)) <==> HexDigit(c)
    ensures HexDigit(c) ==> HexValue(UpperChar(c)) == HexValue(c)
    ensures Digit(UpperChar(c)) <==> Digit(c)
    ensures Digit(c) ==> UpperChar(c) == c
    ensures UpperChar(c) == ':' <==> c == ':'
    ensures UpperChar(c) == '.' <==> c == '.'
  {
  }

  lemma UpperSlice(s: string, i: nat, j: nat)
    requires i <= j <= |s|
    ensures Upper(s)[i..j] == Upper(s[i..j])
  {
  }

  lemma UpperDec(d: string)
    ensures DecString(Upper(d)) <==> DecString(d)
    ensures DecString(d) ==> Upper(d) == d
  {
    forall i | 0 <= i < |d| ensures Digit(Upper(d)[i]) <==> Digit(d[i]) {
      UpperHex(d[i]);
    }
    if DecString(d) {
      forall i | 0 <= i < |d| ensures Upper(d)[i] == d[i] {
        UpperHex(d[i]);
      }
    }
  }

  lemma UpperOctet(d: string)
    ensures DecOctet(Upper(d)) <==> DecOctet(d)
    ensures DecOctet(d) ==> Upper(d) == d
  {
    UpperDec(d);
    assert DecOctet(d) ==> DecString(d);
    assert DecOctet(Upper(d)) ==> DecString(Upper(d));
  }

  lemma {:induction false} UpperNum(h: string)
    requires HexString(h)
    ensures HexString(Upper(h)) && HexNum(Upper(h)) == HexNum(h)
  {
    forall i | 0 <= i < |h| ensures HexDigit(Upper(h)[i]) {
      UpperHex(h[i]);
    }
    if h != "" {
      UpperHex(h[|h| - 1]);
      UpperSlice(h, 0, |h| - 1);
      assert h[0..|h| - 1] == h[..|h| - 1] && Upper(h)[0..|h| - 1] == Upper(h)[..|h| - 1];
      UpperNum(h[..|h| - 1]);
    }
  }

  lemma UpperRun(t: string)
    ensures Run(Upper(t)) == Run(t)
  {
    hide Run;
    forall i | 0 <= i < |t| ensures HexDigit(Upper(t)[i]) <==> HexDigit(t[i]) {
      UpperHex(t[i]);
    }
    RunUnique(Upper(t), Run(Upper(t)), Run(t));
  }

  lemma {:induction false} UpperOctets(n: nat, t: string)
    ensures OctetList(n, Upper(t)) == OctetList(n, t)
    decreases n
  {
    hide Run, DecOctet, OctetByte;
    UpperRun(t);
    var k := Run(t);
    assert Upper(t)[..k] == Upper(t[..k]);
    UpperOctet(t[..k]);
    if k < |t| {
      UpperHex(t[k]);
      assert Upper(t)[k + 1..] == Upper(t[k + 1..]);
      if n > 0 {
        UpperOctets(n - 1, t[k + 1..]);
      }
    }
  }

  lemma {:induction false} UpperField(acc: seq<Byte>, c: int, t: string)
    requires -1 <= c <= |acc|
    ensures Field(acc, c, Upper(t)) == Field(acc, c, t)
    decreases |t|, 1
  {
    hide Run, Finish, OctetList, HexNum;
    UpperRun(t);
    UpperOctets(4, t);
    var k := Run(t);
    assert Upper(t)[..k] == Upper(t[..k]) && Upper(t)[k..] == Upper(t[k..]);
    UpperDec(t[..k]);
    if t != "" && k > 0 {
      UpperNum(t[..k]);
      if k < |t| {
        UpperHex(t[k]);
      }
      UpperAfterField(acc + H16Bytes(t[..k]), c, t[k..]);
    }
  }

  lemma {:induction false} UpperAfterField(acc: seq<Byte>, c: int, t: string)
    requires -1 <= c <= |acc|
    ensures AfterField(acc, c, Upper(t)) == AfterField(acc, c, t)
    decreases |t|, 0
  {
    hide Field, Finish;
    if t != "" {
      UpperHex(t[0]);
      assert Upper(t)[1..] == Upper(t[1..]);
      UpperAfterColon(acc, c, t[1..]);
    }
  }

  lemma {:induction false} UpperAfterColon(acc: seq<Byte>, c: int, t: string)
    requires -1 <= c <= |acc|
    ensures AfterColon(acc, c, Upper(t)) == AfterColon(acc, c, t)
    decreases |t|, 2
  {
    hide Field;
    if t != "" {
      UpperHex(t[0]);
      assert Upper(t)[1..] == Upper(t[1..]);
      UpperField(acc, |acc|, t[1..]);
    }
    UpperField(acc, c, t);
  }

  /** An address in capitals denotes the same bytes, and nothing else becomes one. */
  lemma CaseDoesNotMatter(s: string, a: Inet)
    ensures Denotes(Upper(s), a) <==> Denotes(s, a)
  {
    hide Field, Denotes;
    ParseIffDenotes(s, a);
    ParseIffDenotes(Upper(s), a);
    if s != "" {
      UpperHex(s[0]);
    }
    if |s| > 1 {
      UpperHex(s[1]);
      assert Upper(s)[2..] == Upper(s[2..]);
      UpperField([], 0, s[2..]);
    }
    UpperField([], -1, s);
  }
}

/** Printing an address, and that the parser reads the printed form back. */
module InetFormat {
  import opened Sequences
  import opened InetGrammar
  import opened InetReference
  import opened InetLanguage
  import opened InetParser

  function HexChar(v: nat): (c: char)
    requires v < 16
    ensures HexDigit(c) && HexValue(c) == v
  {
    if v < 10 then (v + '0' as int) as char else (v - 10 + 'a' as int) as char
  }

  /** The conversion %x: no leading zeros, "0" for zero. */
  function HexPrint(n: nat): (h: string)
    ensures h != "" && HexString(h)
  {
    if n < 16 then [HexChar(n)] else HexPrint(n / 16) + [HexChar(n % 16)]
  }

  lemma {:induction false} HexPrintNum(n: nat)
    ensures HexNum(HexPrint(n)) == n
  {
    if n < 16 {
      assert HexPrint(n)[..0] == "";
    } else {
      HexPrintNum(n / 16);
      assert HexPrint(n)[..|HexPrint(n)| - 1] == HexPrint(n / 16);
    }
  }

  predicate LowerHex(c: char) { '0' <= c <= '9' || 'a' <= c <= 'f' }

  /** Lower case without leading zeros. */
  lemma {:induction false} HexPrintPlain(n: nat)
    ensures forall i :: 0 <= i < |HexPrint(n)| ==> LowerHex(HexPrint(n)[i])
    ensures |HexPrint(n)| > 1 ==> HexPrint(n)[0] != '0'
    ensures n > 0 ==> HexPrint(n)[0] != '0'
  {
    if n >= 16 {
      HexPrintPlain(n / 16);
    }
  }

  lemma HexPrintLength(n: nat)
    requires n < 65536
    ensures |HexPrint(n)| <= 4
  {
    var m := n / 16;
    var k := m / 16;
    assert k / 16 < 16;
    assert |HexPrint(k)| <= 2;
    assert |HexPrint(m)| <= 3;
  }

  /** The conversion %d of a byte. */
  function DecPrint(n: nat): (d: string)
    ensures d != "" && DecString(d)
  {
    if n < 10 then [(n + '0' as int) as char] else DecPrint(n / 10) + [(n % 10 + '0' as int) as char]
  }

  lemma DecPrintOctet(b: Byte)
    ensures DecOctet(DecPrint(b)) && OctetByte(DecPrint(b)) == b
  {
    var d := DecPrint(b);
    if b >= 10 {
      assert b >= 100 ==> |DecPrint(b / 10)| == 2 && DecPrint(b / 10)[0] == (b / 100 + '0' as int) as char;
      assert |d| == |DecPrint(b / 10)| + 1;
    }
    DecNumDigits(d);
  }

  predicate IsAddress(a: Inet) { |a.address| == if a.V4? then 4 else 16 }

  function Group(b: seq<Byte>, i: nat): string
    requires 2 * i + 1 < |b|
  {
    var hi: int, lo: int := b[2 * i], b[2 * i + 1];
    HexPrint(hi * 256 + lo)
  }

  function FormatAddress(a: Inet): string
    requires IsAddress(a)
  {
    var b := a.address;
    if |b| > 4 then
      Group(b, 0) + ":" + Group(b, 1) + ":" + Group(b, 2) + ":" + Group(b, 3) + ":" +
      Group(b, 4) + ":" + Group(b, 5) + ":" + Group(b, 6) + ":" + Group(b, 7)
    else
      DecPrint(b[0]) + "." + DecPrint(b[1]) + "." + DecPrint(b[2]) + "." + DecPrint(b[3])
  }

  lemma GroupIs(b: seq<Byte>, i: nat)
    requires 2 * i + 1 < |b|
    ensures H16(Group(b, i)) && H16Bytes(Group(b, i)) == [b[2 * i], b[2 * i + 1]]
  {
    var hi: int, lo: int := b[2 * i], b[2 * i + 1];
    HexPrintNum(hi * 256 + lo);
    HexPrintLength(hi * 256 + lo);
  }

  lemma GroupsFrom(gs: seq<string>, b: seq<Byte>, k: nat)
    requires k <= |gs| && |b| >= 2 * |gs| && forall i :: 0 <= i < |gs| ==> gs[i] == Group(b, i)
    ensures Groups(gs) && GroupBytes(gs[k..]) == b[2 * k..2 * |gs|]
    decreases |gs| - k
  {
    hide H16, H16Bytes, Group;
    forall i | 0 <= i < |gs| ensures H16(gs[i]) {
      GroupIs(b, i);
    }
    if k < |gs| {
      GroupIs(b, k);
      GroupsFrom(gs, b, k + 1);
      assert gs[k..][1..] == gs[k + 1..];
      assert b[2 * k..2 * |gs|] == [b[2 * k], b[2 * k + 1]] + b[2 * (k + 1)..2 * |gs|];
    }
  }

  lemma FormatIsDenoted(a: Inet)
    requires IsAddress(a)
    ensures Denotes(FormatAddress(a), a)
  {
    hide DecOctet, OctetByte, H16, Group, GroupBytes, Terminated, DecPrint;
    var b := a.address;
    match a
    case V4(_) =>
      var ds := [DecPrint(b[0]), DecPrint(b[1]), DecPrint(b[2]), DecPrint(b[3])];
      DecPrintOctet(b[0]);
      DecPrintOctet(b[1]);
      DecPrintOctet(b[2]);
      DecPrintOctet(b[3]);
      assert Quad(ds) && QuadText(ds) == FormatAddress(a);
      assert QuadBytes(ds) == b;
    case V6(_) =>
      var gs := [Group(b, 0), Group(b, 1), Group(b, 2), Group(b, 3), Group(b, 4), Group(b, 5)];
      GroupsFrom(gs, b, 0);
      GroupIs(b, 6);
      GroupIs(b, 7);
      var t := Full(gs, Pair(Group(b, 6), Group(b, 7)));
      assert gs[0..] == gs && b == b[0..12] + ([b[12], b[13]] + [b[14], b[15]]);
      assert V6Bytes(t) == b;
      SixTerminated(gs);
      assert V6Text(t) == FormatAddress(a);
  }

  /** A group as %x prints it. */
  predicate Plain(g: string) {
    H16(g) && (forall i :: 0 <= i < |g| ==> LowerHex(g[i])) && (|g| > 1 ==> g[0] != '0')
  }

  /** An IPv6 address is printed as eight groups in lower case without leading zeros, nothing compressed. */
  lemma FormatIsPlain(a: Inet)
    requires IsAddress(a) && a.V6?
    ensures exists gs: seq<string>, lo: string ::
      |gs| == 7 && Plain(lo) && (forall i :: 0 <= i < 7 ==> Plain(gs[i])) && FormatAddress(a) == Terminated(gs) + lo
  {
    hide Plain, Group, Terminated;
    var b := a.address;
    var gs := [Group(b, 0), Group(b, 1), Group(b, 2), Group(b, 3), Group(b, 4), Group(b, 5), Group(b, 6)];
    forall i | 0 <= i < 8 ensures Plain(Group(b, i)) {
      GroupIsPlain(b, i);
    }
    SixTerminated(gs[..6]);
    TerminatedSnoc(gs, 6);
    assert gs[..7] == gs;
    assert FormatAddress(a) == Terminated(gs) + Group(b, 7);
  }

  lemma GroupIsPlain(b: seq<Byte>, i: nat)
    requires 2 * i + 1 < |b|
    ensures Plain(Group(b, i))
  {
    GroupIs(b, i);
    var hi: int, lo: int := b[2 * i], b[2 * i + 1];
    HexPrintPlain(hi * 256 + lo);
  }

  lemma TerminatedSnoc(gs: seq<string>, k: nat)
    requires k < |gs|
    ensures Terminated(gs[..k + 1]) == Terminated(gs[..k]) + gs[k] + ":"
  {
    assert gs[..k + 1] == gs[..k] + [gs[k]];
    TerminatedConcat(gs[..k], [gs[k]]);
    assert [gs[k]][1..] == [];
  }

  lemma TerminatedOne(gs: seq<string>)
    requires gs != []
    ensures Terminated(gs[..1]) == gs[0] + ":"
  {
    assert gs[..1][1..] == [];
  }

  lemma SixTerminated(gs: seq<string>)
    requires |gs| == 6
    ensures Terminated(gs) == gs[0] + ":" + gs[1] + ":" + gs[2] + ":" + gs[3] + ":" + gs[4] + ":" + gs[5] + ":"
  {
    hide Terminated;
    TerminatedOne(gs);
    TerminatedSnoc(gs, 1);
    TerminatedSnoc(gs, 2);
    TerminatedSnoc(gs, 3);
    TerminatedSnoc(gs, 4);
    TerminatedSnoc(gs, 5);
    assert gs[..6] == gs;
  }

  /** Parsing a printed address gives the same family and the same bytes. */
  method FormatThenParse(a: Inet) returns (r: Result)
    requires IsAddress(a)
    ensures r == Ok(a)
  {
    FormatIsDenoted(a);
    r := ParseIpAddress(FormatAddress(a));
  }
}

/**
 * A recursive-descent reading of the address grammar, and the proof that it accepts
 * exactly the language of InetGrammar with the same bytes. The parser is checked
 * against it one token at a time.
 */
module InetReference {
  import opened Sequences
  import opened InetGrammar

  // ---- the longest token ---------------------------------------------------

  /** `k` hex digits start `t`, and the run ends there or is four long. */
  predicate IsRun(t: string, k: nat) {
    k <= 4 && k <= |t| && (forall i :: 0 <= i < k ==> HexDigit(t[i])) && (k == 4 || k == |t| || !HexDigit(t[k]))
  }

  function RunUpTo(t: string, n: nat): (k: nat)
    ensures k <= n && k <= |t| && (forall i :: 0 <= i < k ==> HexDigit(t[i]))
    ensures k == n || k == |t| || !HexDigit(t[k])
  {
    if n == 0 || t == "" || !HexDigit(t[0]) then 0
    else
      var k := 1 + RunUpTo(t[1..], n - 1);
      assert forall i :: 0 < i < k ==> t[i] == t[1..][i - 1];
      k
  }

  function Run(t: string): (k: nat)
    ensures IsRun(t, k)
  {
    RunUpTo(t, 4)
  }

  lemma RunUnique(t: string, j: nat, k: nat)
    requires IsRun(t, j) && IsRun(t, k)
    ensures j == k
  {
  }

  // ---- reference parser ----------------------------------------------------

  /** The 16 bytes of a complete address: `c` is where "::" stands, -1 if nowhere. */
  function Finish(acc: seq<Byte>, c: int): Option<Inet>
    requires -1 <= c <= |acc|
  {
    if c == -1 then (if |acc| == 16 then Some(V6(acc)) else None)
    else if |acc| >= 16 then None
    else Some(V6(acc[..c] + Zeros(16 - |acc|) + acc[c..]))
  }

  /** A dotted quad ends the address; alone it is an IPv4 address. */
  function FinishQuad(acc: seq<Byte>, c: int, q: seq<Byte>): Option<Inet>
    requires -1 <= c <= |acc|
  {
    if c == -1 && acc == [] then Some(V4(q)) else Finish(acc + q, c)
  }

  /** `n` octets separated by dots, up to the end of `t`. */
  function OctetList(n: nat, t: string): (q: Option<seq<Byte>>)
    ensures q.Some? ==> |q.value| == n
    decreases n
  {
    var k := Run(t);
    if n == 0 then None
    else if !DecOctet(t[..k]) then None
    else if n == 1 then (if k == |t| then Some([OctetByte(t[..k])]) else None)
    else if k == |t| || t[k] != '.' then None
    else match OctetList(n - 1, t[k + 1..])
      case None => None
      case Some(q) => Some([OctetByte(t[..k])] + q)
  }

  function QuadTail(acc: seq<Byte>, c: int, t: string): Option<Inet>
    requires -1 <= c <= |acc|
  {
    match OctetList(4, t)
    case None => None
    case Some(q) => FinishQuad(acc, c, q)
  }

  /** A field is expected; only right after "::" may the text end instead. */
  function Field(acc: seq<Byte>, c: int, t: string): Option<Inet>
    requires -1 <= c <= |acc|
    decreases |t|, 1
  {
    var k := Run(t);
    if t == "" then (if |acc| == c then Finish(acc, c) else None)
    else if k == 0 then None
    else if k < |t| && t[k] == '.' && DecString(t[..k]) then QuadTail(acc, c, t)
    else if |acc| + 2 > 16 then None
    else AfterField(acc + H16Bytes(t[..k]), c, t[k..])
  }

  function AfterField(acc: seq<Byte>, c: int, t: string): Option<Inet>
    requires -1 <= c <= |acc|
    decreases |t|, 0
  {
    if t == "" then Finish(acc, c)
    else if t[0] == ':' then AfterColon(acc, c, t[1..])
    else None
  }

  function AfterColon(acc: seq<Byte>, c: int, t: string): Option<Inet>
    requires -1 <= c <= |acc|
    decreases |t|, 2
  {
    if t != "" && t[0] == ':' then (if c == -1 then Field(acc, |acc|, t[1..]) else None)
    else Field(acc, c, t)
  }

  /** The whole address. A leading colon must start "::". */
  function Parse(s: string): Option<Inet> {
    if s != "" && s[0] == ':' then
      (if |s| > 1 && s[1] == ':' then Field([], 0, s[2..]) else None)
    else Field([], -1, s)
  }

  // ---- octets --------------------------------------------------------------

  /** The checks the parser makes on a decimal token are the rule dec-octet. */
  lemma DecOctetIff(d: string)
    requires DecString(d) && 1 <= |d| <= 4
    ensures DecOctet(d) <==> !(|d| > 1 && d[0] == '0') && DecNum(d) <= 255
  {
    DecNumDigits(d);
  }

  function DotJoin(ds: seq<string>): string {
    if ds == [] then "" else if |ds| == 1 then ds[0] else ds[0] + "." + DotJoin(ds[1..])
  }

  function OctetBytes(ds: seq<string>): seq<Byte>
    requires Octets(ds)
  {
    if ds == [] then [] else [OctetByte(ds[0])] + OctetBytes(ds[1..])
  }

  lemma OctetIsHex(d: string)
    requires DecOctet(d)
    ensures H16(d) && DecString(d) && |d| <= 3
  {
  }

  /** A token of at most three digits followed by a non-digit is what Run finds. */
  lemma RunOfToken(d: string, rest: string)
    requires HexString(d) && |d| <= 4 && (rest == "" || !HexDigit(rest[0]))
    ensures Run(d + rest) == |d| && (d + rest)[..|d|] == d && (d + rest)[|d|..] == rest
  {
    var t := d + rest;
    assert t[..|d|] == d;
    RunUnique(t, Run(t), |d|);
  }

  lemma OctetListStep(n: nat, t: string)
    requires n > 0 && DecOctet(t[..Run(t)])
    ensures var k, b := Run(t), OctetByte(t[..Run(t)]);
            OctetList(n, t) ==
              if n == 1 then (if t[k..] == "" then Some([b]) else None)
              else if t[k..] == "" || t[k..][0] != '.' then None
              else match OctetList(n - 1, t[k..][1..]) { case None => None case Some(q) => Some([b] + q) }
  {
    hide DecOctet, OctetByte, Run;
    var k := Run(t);
    assert t[k..] != "" ==> t[k..][1..] == t[k + 1..];
  }

  lemma JoinCons(ds: seq<string>)
    requires ds != []
    ensures DotJoin(ds) == ds[0] + if |ds| == 1 then "" else "." + DotJoin(ds[1..])
  {
    if |ds| == 1 {
      assert ds[0] + "" == ds[0];
    } else {
      var rest := DotJoin(ds[1..]);
      assert ds[0] + "." + rest == ds[0] + ("." + rest);
    }
  }

  lemma BytesCons(ds: seq<string>)
    requires ds != [] && Octets(ds)
    ensures Octets(ds[1..]) && OctetBytes(ds) == [OctetByte(ds[0])] + OctetBytes(ds[1..])
    ensures |ds| == 1 ==> OctetBytes(ds) == [OctetByte(ds[0])]
  {
    hide DecOctet, OctetByte;
    assert |ds| == 1 ==> ds[1..] == [] && OctetBytes([]) == [];
  }

  lemma {:induction false} OctetsComplete(ds: seq<string>)
    requires ds != [] && Octets(ds)
    ensures OctetList(|ds|, DotJoin(ds)) == Some(OctetBytes(ds))
  {
    hide OctetList, DotJoin, OctetBytes, Run, DecOctet, OctetByte;
    OctetIsHex(ds[0]);
    JoinCons(ds);
    BytesCons(ds);
    var rest := if |ds| == 1 then "" else "." + DotJoin(ds[1..]);
    RunOfToken(ds[0], rest);
    OctetListStep(|ds|, ds[0] + rest);
    if |ds| > 1 {
      assert rest[1..] == DotJoin(ds[1..]);
      OctetsComplete(ds[1..]);
    }
  }

  lemma OctetListCases(n: nat, t: string)
    requires OctetList(n, t).Some?
    ensures n > 0 && DecOctet(t[..Run(t)]) && (n == 1 ==> Run(t) == |t|) && (n > 1 ==> Run(t) < |t| && t[Run(t)] == '.')
    ensures n > 1 ==> OctetList(n - 1, t[Run(t) + 1..]).Some?
  {
    hide DecOctet, OctetByte, Run;
  }

  lemma {:induction false} OctetsSound(n: nat, t: string) returns (ds: seq<string>)
    requires OctetList(n, t).Some?
    ensures |ds| == n && n > 0 && Octets(ds) && DotJoin(ds) == t && OctetBytes(ds) == OctetList(n, t).value
  {
    hide OctetList, DotJoin, OctetBytes, Run, DecOctet, OctetByte;
    OctetListCases(n, t);
    var k := Run(t);
    ds := [t[..k]];
    if n > 1 {
      var rest := OctetsSound(n - 1, t[k + 1..]);
      ds := ds + rest;
      assert ds[1..] == rest;
      assert t == t[..k] + ("." + t[k + 1..]);
    } else {
      assert t == t[..k] + "";
    }
    JoinCons(ds);
    OctetsComplete(ds);
  }

  lemma QuadIsJoin(ds: seq<string>)
    requires Quad(ds)
    ensures DotJoin(ds) == QuadText(ds) && OctetBytes(ds) == QuadBytes(ds)
  {
    assert ds[1..][1..] == ds[2..] && ds[2..][1..] == ds[3..] && ds[3..] == [ds[3]];
    assert DotJoin(ds[2..]) == ds[2] + "." + ds[3];
    assert DotJoin(ds[1..]) == ds[1] + "." + (ds[2] + "." + ds[3]);
    assert OctetBytes(ds[3..]) == [OctetByte(ds[3])] + OctetBytes(ds[3..][1..]);
    assert OctetBytes(ds[2..]) == [OctetByte(ds[2])] + OctetBytes(ds[3..]);
  }
}

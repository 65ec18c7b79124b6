/**
 * Textual IP addresses as section 3.2.2 of RFC 3986 defines them: the rules dec-octet,
 * IPv4address, h16, ls32 and IPv6address, each with the bytes it denotes.
 */
module InetGrammar {

  type Byte = x: int | 0 <= x < 256

  datatype Inet = V4(address: seq<Byte>) | V6(address: seq<Byte>)

  predicate Digit(c: char) { '0' <= c <= '9' }

  predicate HexDigit(c: char) { Digit(c) || 'a' <= c <= 'f' || 'A' <= c <= 'F' }

  function HexValue(c: char): (v: nat)
    requires HexDigit(c)
    ensures v < 16
  {
    if Digit(c) then c as int - '0' as int
    else if 'a' <= c <= 'f' then c as int - 'a' as int + 10
    else c as int - 'A' as int + 10
  }

  // ---- h16 -----------------------------------------------------------------

  predicate HexString(h: string) { forall i :: 0 <= i < |h| ==> HexDigit(h[i]) }

  /** h16 = 1*4HEXDIG */
  predicate H16(h: string) { 1 <= |h| <= 4 && HexString(h) }

  function HexNum(h: string): (v: nat)
    requires HexString(h)
  {
    if h == "" then 0 else 16 * HexNum(h[..|h| - 1]) + HexValue(h[|h| - 1])
  }

  lemma {:induction false} HexNumBound(h: string)
    requires HexString(h)
    ensures |h| == 1 ==> HexNum(h) < 16
    ensures |h| == 2 ==> HexNum(h) < 256
    ensures |h| == 3 ==> HexNum(h) < 4096
    ensures |h| == 4 ==> HexNum(h) < 65536
  {
    if h != "" { HexNumBound(h[..|h| - 1]); }
  }

  function H16Bytes(h: string): (b: seq<Byte>)
    requires H16(h)
    ensures |b| == 2
  {
    HexNumBound(h);
    [HexNum(h) / 256, HexNum(h) % 256]
  }

  // ---- dec-octet and IPv4address -------------------------------------------

  /**
   * dec-octet = DIGIT              ; 0-9
   *           / %x31-39 DIGIT      ; 10-99
   *           / "1" 2DIGIT         ; 100-199
   *           / "2" %x30-34 DIGIT  ; 200-249
   *           / "25" %x30-35       ; 250-255
   */
  predicate DecOctet(d: string) {
    || (|d| == 1 && Digit(d[0]))
    || (|d| == 2 && '1' <= d[0] <= '9' && Digit(d[1]))
    || (|d| == 3 && d[0] == '1' && Digit(d[1]) && Digit(d[2]))
    || (|d| == 3 && d[0] == '2' && '0' <= d[1] <= '4' && Digit(d[2]))
    || (|d| == 3 && d[0] == '2' && d[1] == '5' && '0' <= d[2] <= '5')
  }

  predicate DecString(d: string) { forall i :: 0 <= i < |d| ==> Digit(d[i]) }

  function DecNum(d: string): (v: nat)
    requires DecString(d)
  {
    if d == "" then 0 else 10 * DecNum(d[..|d| - 1]) + (d[|d| - 1] as int - '0' as int)
  }

  /** The three-digit value written out. */
  lemma DecNumDigits(d: string)
    requires DecString(d) && 1 <= |d| <= 4
    ensures |d| == 1 ==> DecNum(d) == d[0] as int - '0' as int
    ensures |d| == 2 ==> DecNum(d) == 10 * (d[0] as int - '0' as int) + (d[1] as int - '0' as int)
    ensures |d| == 3 ==> DecNum(d) == 100 * (d[0] as int - '0' as int) + 10 * (d[1] as int - '0' as int)
                                      + (d[2] as int - '0' as int)
    ensures |d| == 4 ==> DecNum(d) == 1000 * (d[0] as int - '0' as int) + 100 * (d[1] as int - '0' as int)
                                      + 10 * (d[2] as int - '0' as int) + (d[3] as int - '0' as int)
  {
    if |d| == 1 {
      assert d[..0] == "";
    } else {
      DecNumDigits(d[..|d| - 1]);
    }
  }

  function OctetByte(d: string): (b: Byte)
    requires DecOctet(d)
  {
    DecNumDigits(d);
    DecNum(d)
  }

  predicate Octets(ds: seq<string>) { forall i :: 0 <= i < |ds| ==> DecOctet(ds[i]) }

  /** IPv4address = dec-octet "." dec-octet "." dec-octet "." dec-octet, as its four octets. */
  predicate Quad(ds: seq<string>) { |ds| == 4 && Octets(ds) }

  function QuadText(ds: seq<string>): string
    requires Quad(ds)
  {
    ds[0] + "." + ds[1] + "." + ds[2] + "." + ds[3]
  }

  function QuadBytes(ds: seq<string>): (b: seq<Byte>)
    requires Quad(ds)
    ensures |b| == 4
  {
    [OctetByte(ds[0]), OctetByte(ds[1]), OctetByte(ds[2]), OctetByte(ds[3])]
  }

  // ---- ls32 and IPv6address ------------------------------------------------

  predicate Groups(gs: seq<string>) { forall i :: 0 <= i < |gs| ==> H16(gs[i]) }

  /** n( h16 ":" ) */
  function Terminated(gs: seq<string>): string {
    if gs == [] then "" else gs[0] + ":" + Terminated(gs[1..])
  }

  function GroupBytes(gs: seq<string>): (b: seq<Byte>)
    requires Groups(gs)
    ensures |b| == 2 * |gs|
  {
    if gs == [] then [] else H16Bytes(gs[0]) + GroupBytes(gs[1..])
  }

  /** ls32 = ( h16 ":" h16 ) / IPv4address */
  datatype Ls32 = Pair(hi: string, lo: string) | Dotted(octets: seq<string>)

  predicate IsLs32(l: Ls32) {
    match l
    case Pair(hi, lo) => H16(hi) && H16(lo)
    case Dotted(ds) => Quad(ds)
  }

  function Ls32Text(l: Ls32): string
    requires IsLs32(l)
  {
    match l
    case Pair(hi, lo) => hi + ":" + lo
    case Dotted(ds) => QuadText(ds)
  }

  function Ls32Bytes(l: Ls32): (b: seq<Byte>)
    requires IsLs32(l)
    ensures |b| == 4
  {
    match l
    case Pair(hi, lo) => H16Bytes(hi) + H16Bytes(lo)
    case Dotted(ds) => QuadBytes(ds)
  }

  /** What may follow "::": nothing, one h16, or n( h16 ":" ) ls32. */
  datatype Right = Nothing | One(h: string) | More(groups: seq<string>, ls: Ls32)

  predicate IsRight(r: Right) {
    match r
    case Nothing => true
    case One(h) => H16(h)
    case More(gs, l) => Groups(gs) && IsLs32(l)
  }

  /** 16-bit pieces on the right of "::". */
  function RightSize(r: Right): nat {
    match r
    case Nothing => 0
    case One(_) => 1
    case More(gs, _) => |gs| + 2
  }

  function RightText(r: Right): string
    requires IsRight(r)
  {
    match r
    case Nothing => ""
    case One(h) => h
    case More(gs, l) => Terminated(gs) + Ls32Text(l)
  }

  function RightBytes(r: Right): (b: seq<Byte>)
    requires IsRight(r)
    ensures |b| == 2 * RightSize(r)
  {
    match r
    case Nothing => []
    case One(h) => H16Bytes(h)
    case More(gs, l) => GroupBytes(gs) + Ls32Bytes(l)
  }

  /** [ *n( h16 ":" ) h16 ] as the list of its groups. */
  function LeftText(gs: seq<string>): string {
    if gs == [] then "" else Terminated(gs[..|gs| - 1]) + gs[|gs| - 1]
  }

  /**
   * IPv6address, one constructor for the rule without "::" and one for the eight rules
   * with it. Those pair [ *(6-r)( h16 ":" ) h16 ] on the left with r pieces on the right,
   * for r = 7 down to 0, so together they allow at most seven pieces.
   */
  datatype V6Tree = Full(groups: seq<string>, ls: Ls32) | Compressed(left: seq<string>, right: Right)

  predicate IsV6(t: V6Tree) {
    match t
    case Full(gs, l) => |gs| == 6 && Groups(gs) && IsLs32(l)
    case Compressed(left, right) => Groups(left) && IsRight(right) && |left| + RightSize(right) <= 7
  }

  function V6Text(t: V6Tree): string
    requires IsV6(t)
  {
    match t
    case Full(gs, l) => Terminated(gs) + Ls32Text(l)
    case Compressed(left, right) => LeftText(left) + "::" + RightText(right)
  }

  function Zeros(n: nat): (b: seq<Byte>)
    ensures |b| == n && forall i :: 0 <= i < n ==> b[i] == 0
  {
    seq(n, i => 0)
  }

  function V6Bytes(t: V6Tree): (b: seq<Byte>)
    requires IsV6(t)
    ensures |b| == 16
  {
    match t
    case Full(gs, l) => GroupBytes(gs) + Ls32Bytes(l)
    case Compressed(left, right) =>
      GroupBytes(left) + Zeros(16 - 2 * |left| - 2 * RightSize(right)) + RightBytes(right)
  }

  // ---- the language --------------------------------------------------------

  ghost predicate IsIPv4address(s: string, b: seq<Byte>) {
    exists ds: seq<string> :: Quad(ds) && QuadText(ds) == s && QuadBytes(ds) == b
  }

  ghost predicate IsIPv6address(s: string, b: seq<Byte>) {
    exists t: V6Tree :: IsV6(t) && V6Text(t) == s && V6Bytes(t) == b
  }

  /** `s` is an IPv4address or IPv6address that denotes `a`. */
  ghost predicate Denotes(s: string, a: Inet) {
    match a
    case V4(b) => IsIPv4address(s, b)
    case V6(b) => IsIPv6address(s, b)
  }
}

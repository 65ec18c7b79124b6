/**
 * The address parser of src/InetUtil.c: a tokenizer, a nine-state machine that rolls its
 * input pointer back when a dot shows that a field was an octet, and the in-place
 * expansion of "::". It is proved to accept exactly the RFC 3986 addresses.
 */
module InetParser {
  import opened Sequences
  import opened InetGrammar
  import opened InetReference
  import opened InetLanguage

  const MAX_LENGTH := 49
  const V4_LENGTH := 4
  const V6_LENGTH := 16

  datatype Kind = EndOfText | Colon | Dot | Hex | Dec | Illegal

  datatype State =
    | Start | FieldState | CompressedState | AfterHex | AfterDec | Ipv4Byte | Ipv4Dot | AfterColonState | EndState

  datatype Error =
    | ContainsNul
    | TooManyCharacters
    | IllegalCharacter(c: char, position: int)
    | Unexpected(kind: Kind, position: int)
    | DuplicateCompression(position: int)
    | LeadingZero(token: string, position: int)
    | OctetTooLarge(octet: nat, token: string, position: int)
    | NoRoomToExpand
    | TooFewBytes(count: int)
    | TooManyBytes
    | IndexOutOfBounds

  datatype Result = Ok(value: Inet) | Err(error: Error)

  // ---- tokens --------------------------------------------------------------

  function LowerChar(c: char): (l: char)
    ensures HexDigit(c) ==> HexDigit(l) && HexValue(l) == HexValue(c)
    ensures Digit(c) ==> l == c
  {
    if 'A' <= c <= 'Z' then ((c as int) + 32) as char else c
  }

  function Lower(h: string): (l: string)
    ensures |l| == |h| && forall i :: 0 <= i < |h| ==> l[i] == LowerChar(h[i])
  {
    seq(|h|, i requires 0 <= i < |h| => LowerChar(h[i]))
  }

  lemma {:induction false} HexNumLower(h: string)
    requires HexString(h)
    ensures HexString(Lower(h)) && HexNum(Lower(h)) == HexNum(h)
  {
    if h != "" {
      HexNumLower(h[..|h| - 1]);
      assert Lower(h)[..|h| - 1] == Lower(h[..|h| - 1]);
    }
  }

  lemma DecLower(d: string)
    requires DecString(d)
    ensures Lower(d) == d
  {
  }

  /** `kind`, `token` and `next` are the token that starts at `i`. */
  predicate TokenAt(s: string, i: nat, kind: Kind, token: string, next: nat)
    requires i <= |s|
  {
    var t := s[i..];
    var k := Run(t);
    match kind
    case EndOfText => t == "" && next == i + 1
    case Colon => t != "" && t[0] == ':' && next == i + 1
    case Dot => t != "" && t[0] == '.' && next == i + 1
    case Hex => k > 0 && next == i + k && token == Lower(t[..k]) && !DecString(t[..k])
    case Dec => k > 0 && next == i + k && token == Lower(t[..k]) && DecString(t[..k])
    case Illegal => t != "" && !HexDigit(t[0]) && t[0] != ':' && t[0] != '.' && next == i + 1 && token == [t[0]]
  }

  /** The character at `i`, where the terminator follows the text. Nothing beyond it is read. */
  function CharAt(s: string, i: nat): char
    requires i <= |s|
  {
    if i < |s| then s[i] else '\0'
  }

  method Tokenize(s: string, i: nat) returns (kind: Kind, token: string, next: nat)
    requires i <= |s| && '\0' !in s
    ensures TokenAt(s, i, kind, token, next)
  {
    var ch := CharAt(s, i);
    token := "";
    if HexDigit(ch) {
      var len, isHex := 0, false;
      while len < 4
        invariant len <= 4 && i + len <= |s| && token == Lower(s[i..i + len])
        invariant len == 0 ==> i < |s| && HexDigit(s[i])
        invariant forall j :: i <= j < i + len ==> HexDigit(s[j])
        invariant isHex <==> exists j :: i <= j < i + len && !Digit(s[j])
      {
        ch := CharAt(s, i + len);
        if !HexDigit(ch) { break; }
        if !Digit(ch) { isHex := true; }
        token := token + [LowerChar(ch)];
        len := len + 1;
      }
      kind := if isHex then Hex else Dec;
      next := i + len;
      RunUnique(s[i..], Run(s[i..]), len);
      assert s[i..][..len] == s[i..i + len];
    } else {
      kind := match ch case '\0' => EndOfText case ':' => Colon case '.' => Dot case _ => Illegal;
      token := [ch];
      next := i + 1;
    }
  }

  // ---- the machine ---------------------------------------------------------

  /** The parser's local variables at the head of its loop, the address bytes apart. */
  datatype Locals = Locals(
    state: State,
    inPtr: int,
    tokenLen: int,
    pos: int,          // index of the last byte stored, -1 at first
    compressPos: int,  // where "::" stands, -1 if not seen
    ipv4Pos: int,      // octets read, once a dot was met
    isIpv4: bool)

  /** How one turn of the loop ends. */
  datatype Outcome = Continue | Break | Throw(error: Error)

  /** What relates the local variables in each state. */
  predicate Shape(l: Locals, s: string) {
    && 0 <= l.inPtr <= |s|
    && -1 <= l.pos < V6_LENGTH
    && -1 <= l.compressPos <= l.pos + 1
    && (l.isIpv4 ==> l.state == EndState)
    && match l.state
       case Start => l.inPtr == 0 && l.pos == -1 && l.compressPos == -1
       case AfterDec => 1 <= l.tokenLen <= l.inPtr && l.compressPos <= l.pos - 1 && 1 <= l.pos
       case Ipv4Byte => 0 <= l.ipv4Pos < 4 && OctetsFit(l)
       case Ipv4Dot => 1 <= l.ipv4Pos < 4 && OctetsFit(l)
       case EndState => l.ipv4Pos == 4 && OctetsFit(l) && l.isIpv4 == (l.compressPos == -1 && l.pos + 1 == V4_LENGTH)
       case _ => true
  }

  /** The octets read so far are the last bytes stored, all after any "::". */
  predicate OctetsFit(l: Locals) { l.ipv4Pos <= l.pos + 1 && l.compressPos <= l.pos + 1 - l.ipv4Pos }

  function SecondColon(acc: seq<Byte>, c: int, t: string): Option<Inet>
    requires -1 <= c <= |acc|
  {
    if t != "" && t[0] == ':' && c == -1 then Field(acc, |acc|, t[1..]) else None
  }

  /** `n` octets of a quad are the end of `acc`; the others are read from `t`. */
  function QuadRest(acc: seq<Byte>, c: int, n: nat, t: string): Option<Inet>
    requires n <= 4 && n <= |acc| && -1 <= c <= |acc| - n
  {
    match OctetList(4 - n, t)
    case None => None
    case Some(q) => FinishQuad(acc[..|acc| - n], c, acc[|acc| - n..] + q)
  }

  /** What the reference parser makes of the text still to be read. */
  function Want(l: Locals, acc: seq<Byte>, s: string): Option<Inet>
    requires Shape(l, s) && |acc| == l.pos + 1
  {
    var c, t := l.compressPos, s[l.inPtr..];
    match l.state
    case Start => Parse(t)
    case FieldState => Field(acc, c, t)
    case CompressedState => SecondColon(acc, c, t)
    case AfterHex => AfterField(acc, c, t)
    case AfterDec =>
      if t != "" && t[0] == '.' then QuadTail(acc[..|acc| - 2], c, s[l.inPtr - l.tokenLen..])
      else AfterField(acc, c, t)
    case Ipv4Byte => QuadRest(acc, c, l.ipv4Pos, t)
    case Ipv4Dot => if t != "" && t[0] == '.' then QuadRest(acc, c, l.ipv4Pos, t[1..]) else None
    case AfterColonState => AfterColon(acc, c, t)
    case EndState => if t == "" then FinishQuad(acc[..|acc| - 4], c, acc[|acc| - 4..]) else None
  }

  /** What the bytes mean when the loop is left; more than 16 of them mean nothing. */
  function Leave(l: Locals, memory: seq<Byte>): Option<Inet>
    requires |memory| == V6_LENGTH && -1 <= l.pos && -1 <= l.compressPos <= l.pos + 1
  {
    if l.isIpv4 then Some(V4(memory[..4]))
    else if l.pos >= V6_LENGTH then None
    else Finish(memory[..l.pos + 1], l.compressPos)
  }

  predicate ZeroFrom(memory: seq<Byte>, n: int) { forall k :: 0 <= k < |memory| && n <= k ==> memory[k] == 0 }

  /** At the head of the loop the rest of the text means `want`, and no byte past `pos` is set. */
  predicate Head(l: Locals, memory: seq<Byte>, s: string, want: Option<Inet>) {
    |memory| == V6_LENGTH && Shape(l, s) && ZeroFrom(memory, l.pos + 1) && Want(l, memory[..l.pos + 1], s) == want
  }

  predicate Exit(l: Locals, memory: seq<Byte>, want: Option<Inet>) {
    && |memory| == V6_LENGTH
    && -1 <= l.pos && -1 <= l.compressPos <= l.pos + 1
    && ZeroFrom(memory, l.pos + 1)
    && Leave(l, memory) == want
  }

  predicate InQuad(l: Locals) { l.state == Ipv4Byte || l.state == Ipv4Dot || l.state == EndState }

  /** The loop's measure: entering the IPv4 phase pays for the rollback. */
  predicate Closer(l: Locals, was: Locals) {
    || (InQuad(l) && !InQuad(was))
    || (InQuad(l) == InQuad(was) && l.inPtr > was.inPtr)
  }

  /** One turn keeps the meaning of the text. */
  predicate Turn(o: Outcome, l: Locals, memory: seq<Byte>, s: string, want: Option<Inet>, was: Locals) {
    match o
    case Continue => Head(l, memory, s, want) && Closer(l, was)
    case Break => Exit(l, memory, want)
    case Throw(e) => want == None && Positioned(e, s)
  }

  /** The position an error reports is that of the token it names. */
  predicate Positioned(e: Error, s: string) {
    match e
    case IllegalCharacter(c, p) => 0 <= p < |s| && s[p] == c && !HexDigit(c) && c != ':' && c != '.'
    case Unexpected(kind, p) => EndsAt(kind, p, s)
    case DuplicateCompression(p) => EndsAt(Colon, p, s)
    case LeadingZero(token, p) => Written(token, p, s) && |token| > 1 && token[0] == '0'
    case OctetTooLarge(v, token, p) => Written(token, p, s) && v == DecNum(token) > 255
    case _ => false
  }

  /** `token` is a decimal number that ends at `p`. */
  predicate Written(token: string, p: int, s: string) {
    DecString(token) && 1 <= |token| <= p + 1 <= |s| && s[p + 1 - |token|..p + 1] == token
  }

  /** The byte count was wrong once the whole text was read. */
  predicate Miscounted(e: Error) { e == NoRoomToExpand || e == TooManyBytes || (e.TooFewBytes? && e.count < V6_LENGTH) }

  predicate EndsAt(kind: Kind, p: int, s: string) {
    match kind
    case EndOfText => p == |s|
    case Colon => 0 <= p < |s| && s[p] == ':'
    case Dot => 0 <= p < |s| && s[p] == '.'
    case _ => 0 <= p < |s| && HexDigit(s[p])
  }

  lemma TokenEnds(s: string, i: nat, kind: Kind, token: string, next: nat)
    requires i <= |s| && TokenAt(s, i, kind, token, next) && kind != Illegal
    ensures next > i && EndsAt(kind, next - 1, s) && (kind != EndOfText ==> next <= |s|)
  {
    if kind == Hex || kind == Dec {
      assert HexDigit(s[i..][next - 1 - i]);
    }
  }

  // ---- one turn, state by state --------------------------------------------

  /** `l` after the token that ends before `next`, in a new state. */
  function Advance(l: Locals, next: int, state: State): Locals {
    l.(state := state, inPtr := next, tokenLen := next - l.inPtr)
  }

  lemma FieldEnds(l: Locals, memory: seq<Byte>, s: string, want: Option<Inet>)
    requires Head(l, memory, s, want) && l.state == FieldState && l.inPtr == |s| && l.pos + 1 == l.compressPos
    ensures Exit(l, memory, want)
  {
  }

  lemma FieldRejects(l: Locals, memory: seq<Byte>, s: string, want: Option<Inet>)
    requires Head(l, memory, s, want) && l.state == FieldState && Run(s[l.inPtr..]) == 0
    requires !(l.inPtr == |s| && l.pos + 1 == l.compressPos)
    ensures want == None
  {
  }

  /** A field or quad that does not fit makes more than 16 bytes. */
  lemma FieldOverflows(l: Locals, memory: seq<Byte>, s: string, want: Option<Inet>)
    requires Head(l, memory, s, want) && l.state == FieldState && Run(s[l.inPtr..]) > 0 && l.pos + 3 > V6_LENGTH
    ensures want == None
  {
    hide OctetList, AfterField;
  }

  lemma ExtendByOne(memory: seq<Byte>, n: nat, x: Byte)
    requires n < |memory|
    ensures memory[n := x][..n + 1] == memory[..n] + [x]
    ensures ZeroFrom(memory, n) ==> ZeroFrom(memory[n := x], n + 1)
  {
  }

  lemma ExtendByTwo(memory: seq<Byte>, n: nat, x: Byte, y: Byte)
    requires n + 1 < |memory|
    ensures memory[n := x][n + 1 := y][..n + 2] == memory[..n] + [x, y]
    ensures ZeroFrom(memory, n) ==> ZeroFrom(memory[n := x][n + 1 := y], n + 2)
  {
  }

  lemma FieldStores(l: Locals, acc: seq<Byte>, s: string, hex: bool, k: nat, stored: Locals)
    requires Shape(l, s) && l.state == FieldState && |acc| == l.pos + 1 && l.pos + 3 <= V6_LENGTH
    requires k == Run(s[l.inPtr..]) > 0 && hex == !DecString(s[l.inPtr..][..k])
    requires stored == Advance(l, l.inPtr + k, if hex then AfterHex else AfterDec).(pos := l.pos + 2)
    ensures Shape(stored, s)
    ensures Want(stored, acc + H16Bytes(s[l.inPtr..][..k]), s) == Want(l, acc, s)
  {
    hide QuadTail, AfterField, H16Bytes, Run;
    var t := s[l.inPtr..];
    assert t[k..] == s[l.inPtr + k..];
    assert (acc + H16Bytes(t[..k]))[..|acc|] == acc;
  }

  lemma TokenValue(t: string, k: nat, token: string)
    requires k == Run(t) > 0 && token == Lower(t[..k])
    ensures HexString(token) && HexNum(token) < 65536
    ensures H16(t[..k]) && H16Bytes(t[..k]) == [HexNum(token) / 256, HexNum(token) % 256]
  {
    HexNumLower(t[..k]);
    HexNumBound(t[..k]);
  }

  lemma HeadBounds(l: Locals, memory: seq<Byte>, s: string, want: Option<Inet>)
    requires Head(l, memory, s, want)
    ensures |memory| == V6_LENGTH && Shape(l, s) && 0 <= l.inPtr <= |s| && -1 <= l.pos < V6_LENGTH && -1 <= l.compressPos <= l.pos + 1
  {
  }

  lemma FieldToken(l: Locals, s: string, kind: Kind, token: string, next: nat)
    requires 0 <= l.inPtr <= |s| && TokenAt(s, l.inPtr, kind, token, next)
    requires kind == Hex || kind == Dec
    ensures HexString(token) && HexNum(token) < 65536 && next > l.inPtr
  {
    hide HexNum, Lower;
    TokenValue(s[l.inPtr..], next - l.inPtr, token);
  }

  /** The bytes of a field stored, and nothing else, is a turn of the loop. */
  lemma FieldTurn(l: Locals, memory: seq<Byte>, s: string, kind: Kind, token: string, next: nat, want: Option<Inet>,
                  l': Locals, hi: Byte, lo: Byte)
    requires Head(l, memory, s, want) && l.state == FieldState && l.pos + 3 <= V6_LENGTH
    requires TokenAt(s, l.inPtr, kind, token, next) && (kind == Hex || kind == Dec)
    requires l' == Advance(l, next, if kind == Hex then AfterHex else AfterDec).(pos := l.pos + 2)
    requires HexString(token) && hi == HexNum(token) / 256 && lo == HexNum(token) % 256
    ensures Turn(Continue, l', memory[l.pos + 1 := hi][l.pos + 2 := lo], s, want, l)
  {
    hide Want, HexNum, ZeroFrom, H16Bytes, Shape, Lower;
    HeadBounds(l, memory, s, want);
    TokenValue(s[l.inPtr..], next - l.inPtr, token);
    ExtendByTwo(memory, l.pos + 1, hi, lo);
    FieldStores(l, memory[..l.pos + 1], s, kind == Hex, next - l.inPtr, l');
  }

  /** Everything a field state can do apart from storing a field. */
  lemma FieldElse(l: Locals, memory: seq<Byte>, s: string, kind: Kind, token: string, next: nat, want: Option<Inet>)
    requires Head(l, memory, s, want) && l.state == FieldState
    requires TokenAt(s, l.inPtr, kind, token, next) && kind != Illegal
    ensures kind == EndOfText && l.pos + 1 == l.compressPos ==> Turn(Break, l, memory, s, want, l)
    ensures kind != Hex && kind != Dec && !(kind == EndOfText && l.pos + 1 == l.compressPos) ==>
              Turn(Throw(Unexpected(kind, next - 1)), l, memory, s, want, l)
    ensures (kind == Hex || kind == Dec) && l.pos + 3 > V6_LENGTH ==>
              Turn(Break, Advance(l, next, if kind == Hex then AfterHex else AfterDec).(pos := l.pos + 2), memory, s, want, l)
  {
    hide Want, Head, Exit;
    HeadBounds(l, memory, s, want);
    TokenEnds(s, l.inPtr, kind, token, next);
    if kind == EndOfText && l.pos + 1 == l.compressPos {
      FieldEnds(l, memory, s, want);
    } else if kind != Hex && kind != Dec {
      FieldRejects(l, memory, s, want);
    } else if l.pos + 3 > V6_LENGTH {
      FieldOverflows(l, memory, s, want);
      OverflowExits(Advance(l, next, if kind == Hex then AfterHex else AfterDec).(pos := l.pos + 2), memory);
    }
  }

  method OnField(s: string, l: Locals, address: array<Byte>, kind: Kind, token: string, next: nat, ghost want: Option<Inet>)
    returns (l': Locals, o: Outcome)
    requires address.Length == V6_LENGTH && l.state == FieldState && Head(l, address[..], s, want)
    requires TokenAt(s, l.inPtr, kind, token, next) && kind != Illegal
    modifies address
    ensures Turn(o, l', address[..], s, want, l)
  {
    hide Head, Turn, TokenAt, HexNum, HexString;
    ghost var was: seq<Byte> := address[..];
    HeadBounds(l, was, s, want);
    FieldElse(l, was, s, kind, token, next, want);
    if kind == EndOfText && l.pos + 1 == l.compressPos {
      return l, Break;
    }
    if kind != Hex && kind != Dec {
      return l, Throw(Unexpected(kind, next - 1));
    }
    l' := Advance(l, next, if kind == Hex then AfterHex else AfterDec).(pos := l.pos + 2);
    if l.pos + 3 > V6_LENGTH {
      return l', Break;
    }
    FieldToken(l, s, kind, token, next);
    var field := HexNum(token);
    var hi: Byte, lo: Byte := field / 256 % 256, field % 256;
    address[l.pos + 1] := hi;
    address[l.pos + 2] := lo;
    assert address[..] == was[l.pos + 1 := hi][l.pos + 2 := lo];
    FieldTurn(l, was, s, kind, token, next, want, l', hi, lo);
    o := Continue;
  }

  lemma OverflowExits(l: Locals, memory: seq<Byte>)
    requires |memory| == V6_LENGTH <= l.pos && -1 <= l.compressPos <= l.pos + 1 && !l.isIpv4
    ensures Exit(l, memory, None)
  {
  }

  lemma TokenStart(s: string, i: nat, kind: Kind, token: string, next: nat)
    requires i <= |s| && TokenAt(s, i, kind, token, next) && kind != Illegal
    ensures kind == EndOfText <==> s[i..] == ""
    ensures kind == Colon <==> i < |s| && s[i..][0] == ':'
    ensures kind == Dot <==> i < |s| && s[i..][0] == '.'
    ensures kind == Colon || kind == Dot ==> next == i + 1 && s[i..][1..] == s[next..]
  {
    hide RunUpTo;
    if i < |s| && kind != EndOfText && kind != Colon && kind != Dot {
      assert HexDigit(s[i..][0]);
    }
  }

  lemma AfterHexTurn(l: Locals, memory: seq<Byte>, s: string, kind: Kind, token: string, next: nat, want: Option<Inet>)
    requires Head(l, memory, s, want) && (l.state == AfterHex || (l.state == AfterDec && kind != Dot))
    requires TokenAt(s, l.inPtr, kind, token, next) && kind != Illegal
    ensures Turn(if kind == EndOfText then Break else if kind == Colon then Continue else Throw(Unexpected(kind, next - 1)),
                 if kind == Colon then Advance(l, next, AfterColonState) else l, memory, s, want, l)
  {
    hide TokenAt, ZeroFrom, AfterColon, Finish, QuadTail;
    TokenEnds(s, l.inPtr, kind, token, next);
    TokenStart(s, l.inPtr, kind, token, next);
  }

  lemma StartCases(t: string)
    ensures t == "" || t[0] == '.' ==> Parse(t) == None
    ensures Parse(t) == if t != "" && t[0] == ':' then SecondColon([], -1, t[1..]) else Field([], -1, t)
  {
    if |t| > 1 {
      assert t[1..][1..] == t[2..];
    }
    assert t != "" && t[0] == '.' ==> Run(t) == 0;
    hide AfterField, QuadTail;
  }

  lemma StartTurn(l: Locals, memory: seq<Byte>, s: string, kind: Kind, token: string, next: nat, want: Option<Inet>)
    requires Head(l, memory, s, want) && l.state == Start
    requires TokenAt(s, l.inPtr, kind, token, next) && kind != Illegal
    ensures kind == Colon ==> Turn(Continue, Advance(l, next, CompressedState), memory, s, want, l)
    ensures kind == Hex || kind == Dec ==> Head(l.(state := FieldState), memory, s, want)
    ensures kind == EndOfText || kind == Dot ==> Turn(Throw(Unexpected(kind, next - 1)), l, memory, s, want, l)
  {
    hide TokenAt, ZeroFrom, Field, Parse, SecondColon;
    TokenEnds(s, l.inPtr, kind, token, next);
    TokenStart(s, l.inPtr, kind, token, next);
    assert memory[..0] == [];
    StartCases(s[l.inPtr..]);
  }

  lemma AfterColonTurn(l: Locals, memory: seq<Byte>, s: string, kind: Kind, token: string, next: nat, want: Option<Inet>)
    requires Head(l, memory, s, want) && l.state == AfterColonState
    requires TokenAt(s, l.inPtr, kind, token, next) && kind != Illegal
    ensures Head(l.(state := if kind == Colon then CompressedState else FieldState), memory, s, want)
  {
    hide TokenAt, ZeroFrom, Field;
    TokenStart(s, l.inPtr, kind, token, next);
  }

  lemma CompressedTurn(l: Locals, memory: seq<Byte>, s: string, kind: Kind, token: string, next: nat, want: Option<Inet>)
    requires Head(l, memory, s, want) && l.state == CompressedState
    requires TokenAt(s, l.inPtr, kind, token, next) && kind != Illegal
    ensures kind == Colon && l.compressPos != -1 ==> Turn(Throw(DuplicateCompression(next - 1)), l, memory, s, want, l)
    ensures kind == Colon && l.compressPos == -1 ==>
              Turn(Continue, Advance(l, next, FieldState).(compressPos := l.pos + 1), memory, s, want, l)
    ensures kind != Colon ==> Turn(Throw(Unexpected(kind, next - 1)), l, memory, s, want, l)
  {
    hide TokenAt, ZeroFrom, Field;
    TokenEnds(s, l.inPtr, kind, token, next);
    TokenStart(s, l.inPtr, kind, token, next);
  }

  lemma DotTurn(l: Locals, memory: seq<Byte>, s: string, kind: Kind, token: string, next: nat, want: Option<Inet>)
    requires Head(l, memory, s, want) && l.state == Ipv4Dot
    requires TokenAt(s, l.inPtr, kind, token, next) && kind != Illegal
    ensures if kind == Dot then Turn(Continue, Advance(l, next, Ipv4Byte), memory, s, want, l)
            else Turn(Throw(Unexpected(kind, next - 1)), l, memory, s, want, l)
  {
    hide TokenAt, ZeroFrom, QuadRest;
    TokenEnds(s, l.inPtr, kind, token, next);
    TokenStart(s, l.inPtr, kind, token, next);
  }

  lemma EndTurn(l: Locals, memory: seq<Byte>, s: string, kind: Kind, token: string, next: nat, want: Option<Inet>)
    requires Head(l, memory, s, want) && l.state == EndState
    requires TokenAt(s, l.inPtr, kind, token, next) && kind != Illegal
    ensures Turn(if kind == EndOfText then Break else Throw(Unexpected(kind, next - 1)), l, memory, s, want, l)
  {
    hide TokenAt, ZeroFrom, Finish;
    TokenEnds(s, l.inPtr, kind, token, next);
    TokenStart(s, l.inPtr, kind, token, next);
    var acc := memory[..l.pos + 1];
    assert acc[..|acc| - 4] + acc[|acc| - 4..] == acc;
    assert |acc| == 4 ==> acc[|acc| - 4..] == memory[..4];
  }

  /** The two bytes of the field are taken back, and its digits are read again as an octet. */
  function RolledBack(l: Locals): Locals {
    l.(state := Ipv4Byte, inPtr := l.inPtr - l.tokenLen, tokenLen := 1, pos := l.pos - 2, ipv4Pos := 0)
  }

  lemma RollbackTurn(l: Locals, memory: seq<Byte>, s: string, token: string, next: nat, want: Option<Inet>)
    requires Head(l, memory, s, want) && l.state == AfterDec && TokenAt(s, l.inPtr, Dot, token, next)
    ensures 1 <= l.pos < |memory|
    ensures Turn(Continue, RolledBack(l), memory[l.pos := 0][l.pos - 1 := 0], s, want, l)
  {
    hide TokenAt, FinishQuad, OctetList;
    TokenStart(s, l.inPtr, Dot, token, next);
    var acc := memory[..l.pos + 1];
    var less := acc[..|acc| - 2];
    assert memory[l.pos := 0][l.pos - 1 := 0][..l.pos - 1] == less;
    assert less[..|less| - 0] == less && less[|less|..] == [];
    assert forall q: seq<Byte> :: [] + q == q;
  }

  // An octet.

  lemma OctetRejects(l: Locals, memory: seq<Byte>, s: string, want: Option<Inet>)
    requires Head(l, memory, s, want) && l.state == Ipv4Byte
    requires var t := s[l.inPtr..]; !DecOctet(t[..Run(t)])
    ensures want == None
  {
    hide FinishQuad, Run, DecOctet;
  }

  /** A byte past the sixteenth: whatever follows, there are too many. */
  lemma OctetOverflows(l: Locals, memory: seq<Byte>, s: string, want: Option<Inet>)
    requires Head(l, memory, s, want) && l.state == Ipv4Byte && l.pos + 2 > V6_LENGTH
    ensures want == None
  {
    hide OctetList;
  }

  lemma DecToken(s: string, i: nat, token: string, next: nat)
    requires i <= |s| && TokenAt(s, i, Dec, token, next)
    ensures i < next <= |s| && token == s[i..][..Run(s[i..])] && next == i + Run(s[i..]) && |token| == next - i
    ensures DecString(token) && 1 <= |token| <= 4
    ensures DecOctet(token) <==> !(|token| > 1 && token[0] == '0') && DecNum(token) <= 255
  {
    hide DecOctet, DecNum;
    DecLower(s[i..][..Run(s[i..])]);
    DecOctetIff(token);
  }

  function OctetStored(l: Locals, next: int): Locals {
    var n := l.ipv4Pos + 1;
    Advance(l, next, if n == V4_LENGTH then EndState else Ipv4Dot).(
      pos := l.pos + 1, ipv4Pos := n, isIpv4 := n == V4_LENGTH && l.compressPos == -1 && l.pos + 2 == V4_LENGTH)
  }

  lemma OctetStores(l: Locals, acc: seq<Byte>, s: string, b: Byte)
    requires Shape(l, s) && l.state == Ipv4Byte && |acc| == l.pos + 1 && l.pos + 2 <= V6_LENGTH
    requires var t := s[l.inPtr..]; DecOctet(t[..Run(t)]) && b == OctetByte(t[..Run(t)])
    ensures var next := l.inPtr + Run(s[l.inPtr..]);
            Shape(OctetStored(l, next), s) && Want(OctetStored(l, next), acc + [b], s) == Want(l, acc, s)
  {
    hide DecOctet, OctetByte, Run, OctetList, FinishQuad;
    var t, n := s[l.inPtr..], l.ipv4Pos;
    var k := Run(t);
    OctetListStep(4 - n, t);
    assert t[k..] == s[l.inPtr + k..];
    var base := acc[..|acc| - n];
    var acc' := acc + [b];
    assert acc'[..|acc'| - (n + 1)] == base && acc'[|acc'| - (n + 1)..] == acc[|acc| - n..] + [b];
    assert forall q: seq<Byte> :: acc[|acc| - n..] + [b] + q == acc[|acc| - n..] + ([b] + q);
  }

  lemma OctetElse(l: Locals, memory: seq<Byte>, s: string, kind: Kind, token: string, next: nat, want: Option<Inet>)
    requires Head(l, memory, s, want) && l.state == Ipv4Byte
    requires TokenAt(s, l.inPtr, kind, token, next) && kind != Illegal
    ensures kind != Dec ==> Turn(Throw(Unexpected(kind, next - 1)), l, memory, s, want, l)
    ensures kind == Dec && |token| > 1 && token[0] == '0' ==>
              Turn(Throw(LeadingZero(token, next - 1)), l, memory, s, want, l)
    ensures kind == Dec && DecString(token) && DecNum(token) > 255 ==>
              Turn(Throw(OctetTooLarge(DecNum(token), token, next - 1)), l, memory, s, want, l)
    ensures kind == Dec && l.pos + 2 > V6_LENGTH ==> Turn(Break, l.(pos := l.pos + 1), memory, s, want, l)
  {
    hide Head, Exit, DecOctet, DecNum, DecString, Written, TokenAt;
    HeadBounds(l, memory, s, want);
    TokenEnds(s, l.inPtr, kind, token, next);
    TokenWritten(s, l.inPtr, kind, token, next);
    if kind != Dec {
      NoOctet(s, l.inPtr, kind, token, next);
      OctetRejects(l, memory, s, want);
    } else {
      DecToken(s, l.inPtr, token, next);
      if !DecOctet(token) {
        OctetRejects(l, memory, s, want);
      }
      if l.pos + 2 > V6_LENGTH {
        OctetOverflows(l, memory, s, want);
        OverflowExits(l.(pos := l.pos + 1), memory);
      }
    }
  }

  lemma TokenWritten(s: string, i: nat, kind: Kind, token: string, next: nat)
    requires i <= |s| && TokenAt(s, i, kind, token, next)
    ensures kind == Dec ==> Written(token, next - 1, s)
  {
    if kind == Dec {
      var t := s[i..];
      DecLower(t[..Run(t)]);
      assert t[..Run(t)] == s[i..next];
    }
  }

  lemma NoOctet(s: string, i: nat, kind: Kind, token: string, next: nat)
    requires i <= |s| && TokenAt(s, i, kind, token, next) && kind != Illegal && kind != Dec
    ensures !DecOctet(s[i..][..Run(s[i..])])
  {
    hide RunUpTo;
  }

  lemma OctetTurn(l: Locals, memory: seq<Byte>, s: string, token: string, next: nat, want: Option<Inet>, b: Byte)
    requires Head(l, memory, s, want) && l.state == Ipv4Byte && l.pos + 2 <= V6_LENGTH
    requires TokenAt(s, l.inPtr, Dec, token, next) && DecOctet(token) && b == OctetByte(token)
    ensures Turn(Continue, OctetStored(l, next), memory[l.pos + 1 := b], s, want, l)
  {
    hide Want, Shape, ZeroFrom, DecOctet, DecNum, OctetByte, TokenAt;
    HeadBounds(l, memory, s, want);
    DecToken(s, l.inPtr, token, next);
    ExtendByOne(memory, l.pos + 1, b);
    OctetStores(l, memory[..l.pos + 1], s, b);
  }

  method OnIpv4Byte(s: string, l: Locals, address: array<Byte>, kind: Kind, token: string, next: nat, ghost want: Option<Inet>)
    returns (l': Locals, o: Outcome)
    requires address.Length == V6_LENGTH && l.state == Ipv4Byte && Head(l, address[..], s, want)
    requires TokenAt(s, l.inPtr, kind, token, next) && kind != Illegal
    modifies address
    ensures Turn(o, l', address[..], s, want, l)
  {
    hide Head, Turn, TokenAt, DecOctet, DecNum;
    ghost var was: seq<Byte> := address[..];
    HeadBounds(l, was, s, want);
    OctetElse(l, was, s, kind, token, next, want);
    if kind != Dec {
      return l, Throw(Unexpected(kind, next - 1));
    }
    DecToken(s, l.inPtr, token, next);
    if |token| > 1 && token[0] == '0' {
      return l, Throw(LeadingZero(token, next - 1));
    }
    var octet := DecNum(token);
    if octet > 255 {
      return l, Throw(OctetTooLarge(octet, token, next - 1));
    }
    if l.pos + 2 > V6_LENGTH {
      return l.(pos := l.pos + 1), Break;
    }
    address[l.pos + 1] := octet;
    assert address[..] == was[l.pos + 1 := octet];
    OctetTurn(l, was, s, token, next, want, octet);
    l', o := OctetStored(l, next), Continue;
  }

  method OnDot(s: string, l: Locals, address: array<Byte>, token: string, next: nat, ghost want: Option<Inet>)
    returns (l': Locals, o: Outcome)
    requires address.Length == V6_LENGTH && l.state == AfterDec && Head(l, address[..], s, want)
    requires TokenAt(s, l.inPtr, Dot, token, next)
    modifies address
    ensures Turn(o, l', address[..], s, want, l)
  {
    hide Head, Turn, TokenAt;
    ghost var was: seq<Byte> := address[..];
    RollbackTurn(l, was, s, token, next, want);
    address[l.pos] := 0;
    address[l.pos - 1] := 0;
    assert address[..] == was[l.pos := 0][l.pos - 1 := 0];
    l', o := RolledBack(l), Continue;
  }

  lemma SamePlace(o: Outcome, l': Locals, memory: seq<Byte>, s: string, want: Option<Inet>, l: Locals, was: Locals)
    requires Turn(o, l', memory, s, want, l) && l.inPtr == was.inPtr && InQuad(l) == InQuad(was)
    ensures Turn(o, l', memory, s, want, was)
  {
  }

  /** One turn of the loop, from the state tests on: earlier states fall through to later ones. */
  method OneTurn(s: string, was: Locals, address: array<Byte>, kind: Kind, token: string, next: nat, ghost want: Option<Inet>)
    returns (l': Locals, o: Outcome)
    requires address.Length == V6_LENGTH && Head(was, address[..], s, want)
    requires TokenAt(s, was.inPtr, kind, token, next) && kind != Illegal
    modifies address
    ensures Turn(o, l', address[..], s, want, was)
  {
    hide Head, Turn, TokenAt;
    var l := was;
    ghost var memory: seq<Byte> := address[..];
    if l.state == Start {
      StartTurn(l, memory, s, kind, token, next, want);
      if kind == Colon {
        return Advance(l, next, CompressedState), Continue;
      }
      if kind != Hex && kind != Dec {
        return l, Throw(Unexpected(kind, next - 1));
      }
      l := l.(state := FieldState);
    }
    if l.state == AfterColonState {
      AfterColonTurn(l, memory, s, kind, token, next, want);
      l := l.(state := if kind == Colon then CompressedState else FieldState);
    }
    l', o := FromCompressed(s, l, address, kind, token, next, want);
    SamePlace(o, l', address[..], s, want, l, was);
  }

  method FromCompressed(s: string, l: Locals, address: array<Byte>, kind: Kind, token: string, next: nat, ghost want: Option<Inet>)
    returns (l': Locals, o: Outcome)
    requires address.Length == V6_LENGTH && Head(l, address[..], s, want) && l.state != Start && l.state != AfterColonState
    requires TokenAt(s, l.inPtr, kind, token, next) && kind != Illegal
    modifies address
    ensures Turn(o, l', address[..], s, want, l)
  {
    hide Head, Turn, TokenAt;
    ghost var memory: seq<Byte> := address[..];
    if l.state == CompressedState {
      CompressedTurn(l, memory, s, kind, token, next, want);
      if kind != Colon {
        return l, Throw(Unexpected(kind, next - 1));
      } else if l.compressPos != -1 {
        return l, Throw(DuplicateCompression(next - 1));
      }
      return Advance(l, next, FieldState).(compressPos := if l.pos == -1 then 0 else l.pos + 1), Continue;
    }
    if l.state == FieldState {
      l', o := OnField(s, l, address, kind, token, next, want);
      return;
    }
    if l.state == AfterDec && kind == Dot {
      l', o := OnDot(s, l, address, token, next, want);
      return;
    }
    if l.state == AfterHex || l.state == AfterDec {
      AfterHexTurn(l, memory, s, kind, token, next, want);
      if kind == EndOfText {
        return l, Break;
      } else if kind == Colon {
        return Advance(l, next, AfterColonState), Continue;
      }
      return l, Throw(Unexpected(kind, next - 1));
    }
    if l.state == Ipv4Byte {
      l', o := OnIpv4Byte(s, l, address, kind, token, next, want);
      return;
    }
    if l.state == Ipv4Dot {
      DotTurn(l, memory, s, kind, token, next, want);
      if kind == Dot {
        return Advance(l, next, Ipv4Byte), Continue;
      }
      return l, Throw(Unexpected(kind, next - 1));
    }
    EndTurn(l, memory, s, kind, token, next, want);
    return l, if kind == EndOfText then Break else Throw(Unexpected(kind, next - 1));
  }

  // ---- after the loop ------------------------------------------------------

  /** `memory` with the bytes from `c` up to `n` moved to the end and zeros in their place. */
  function Expanded(memory: seq<Byte>, c: nat, n: nat): seq<Byte>
    requires c <= n <= |memory|
  {
    memory[..c] + Zeros(|memory| - n) + memory[c..n]
  }

  /** The overlapping move. The guard against indices out of range never fires. */
  method ExpandZeros(address: array<Byte>, pos: nat, compressPos: nat) returns (outOfBounds: bool)
    requires address.Length == V6_LENGTH && compressPos < pos < V6_LENGTH && ZeroFrom(address[..], pos)
    modifies address
    ensures !outOfBounds
    ensures address[..] == Expanded(old(address[..]), compressPos, pos)
  {
    hide Expanded;
    ghost var memory: seq<Byte> := address[..];
    var moveLen, i := pos - compressPos, 0;
    outOfBounds := false;
    while i < moveLen && !outOfBounds
      invariant 0 <= i <= moveLen && !outOfBounds
      invariant forall k :: 0 <= k < pos - i ==> address[k] == memory[k]
      invariant forall k :: pos - i <= k < V6_LENGTH - i ==> address[k] == 0
      invariant forall k :: V6_LENGTH - i <= k < V6_LENGTH ==> address[k] == memory[k - (V6_LENGTH - pos)]
    {
      var src := compressPos + moveLen - i - 1;
      var dst := V6_LENGTH - i - 1;
      if 0 <= src < V6_LENGTH && 0 <= dst < V6_LENGTH {
        address[dst] := address[src];
        address[src] := 0;
        i := i + 1;
      } else {
        outOfBounds := true;
      }
    }
    ExpandedIs(memory, address[..], compressPos, pos);
  }

  lemma ExpandedIs(memory: seq<Byte>, now: seq<Byte>, c: nat, n: nat)
    requires |memory| == |now| && c <= n <= |memory|
    requires forall k :: 0 <= k < c ==> now[k] == memory[k]
    requires forall k :: c <= k < c + |memory| - n ==> now[k] == 0
    requires forall k :: c + |memory| - n <= k < |memory| ==> now[k] == memory[k - (|memory| - n)]
    ensures now == Expanded(memory, c, n)
  {
  }

  lemma LeavesExpanded(l: Locals, memory: seq<Byte>, want: Option<Inet>)
    requires Exit(l, memory, want) && !l.isIpv4 && l.compressPos != -1
    ensures l.pos + 1 >= V6_LENGTH ==> want == None
    ensures l.pos + 1 < V6_LENGTH ==> want == Some(V6(Expanded(memory, l.compressPos, l.pos + 1)))
    ensures l.pos + 1 < V6_LENGTH && l.pos + 1 == l.compressPos ==> Expanded(memory, l.compressPos, l.pos + 1) == memory
  {
    if l.pos + 1 < V6_LENGTH {
      var acc, c := memory[..l.pos + 1], l.compressPos;
      assert acc[..c] == memory[..c] && acc[c..] == memory[c..l.pos + 1];
    }
  }

  lemma LeavesPlain(l: Locals, memory: seq<Byte>, want: Option<Inet>)
    requires Exit(l, memory, want)
    ensures l.isIpv4 ==> want == Some(V4(memory[..4]))
    ensures !l.isIpv4 && l.compressPos == -1 ==> want == if l.pos + 1 == V6_LENGTH then Some(V6(memory)) else None
  {
    assert l.pos + 1 == V6_LENGTH ==> memory[..l.pos + 1] == memory;
  }

  predicate Answers(r: Result, want: Option<Inet>) {
    match r
    case Ok(a) => want == Some(a)
    case Err(e) => want == None
  }

  method Conclude(l: Locals, address: array<Byte>, ghost want: Option<Inet>) returns (r: Result)
    requires address.Length == V6_LENGTH && Exit(l, address[..], want)
    modifies address
    ensures Answers(r, want)
    ensures r.Err? ==> !l.isIpv4
    ensures r.Err? && l.compressPos != -1 ==> r.error == NoRoomToExpand
    ensures r.Err? && l.compressPos == -1 ==> r.error == if l.pos + 1 < V6_LENGTH then TooFewBytes(l.pos + 1) else TooManyBytes
    ensures r.Err? ==> Miscounted(r.error)
  {
    hide Leave, Expanded;
    ghost var memory: seq<Byte> := address[..];
    LeavesPlain(l, memory, want);
    if !l.isIpv4 && l.compressPos != -1 {
      LeavesExpanded(l, memory, want);
      if l.pos + 1 >= V6_LENGTH {
        return Err(NoRoomToExpand);
      }
      var pos := l.pos + 1;
      if pos != l.compressPos {
        var outOfBounds := ExpandZeros(address, pos, l.compressPos);
        r := if outOfBounds then Err(IndexOutOfBounds) else Ok(V6(address[..]));
      } else {
        r := Ok(V6(address[..]));
      }
    } else if !l.isIpv4 {
      if l.pos + 1 < V6_LENGTH {
        return Err(TooFewBytes(l.pos + 1));
      }
      if l.pos + 1 > V6_LENGTH {
        return Err(TooManyBytes);
      }
      r := Ok(V6(address[..]));
    } else {
      r := Ok(V4(address[..4]));
    }
  }

  // ---- the parser ----------------------------------------------------------

  lemma Begins(s: string, memory: seq<Byte>)
    requires memory == Zeros(V6_LENGTH)
    ensures Head(Locals(Start, 0, -1, -1, -1, -1, false), memory, s, Parse(s))
  {
    assert s[0..] == s;
  }

  lemma IllegalRejects(l: Locals, memory: seq<Byte>, s: string, want: Option<Inet>, token: string, next: nat)
    requires Head(l, memory, s, want) && TokenAt(s, l.inPtr, Illegal, token, next)
    ensures want == None && |token| == 1 && Positioned(IllegalCharacter(token[0], next - 1), s)
  {
    hide RunUpTo, FinishQuad, ZeroFrom, Run;
    var t := s[l.inPtr..];
    var acc := memory[..l.pos + 1];
    assert t[0] == s[l.inPtr] && Run(t) == 0;
    assert Field(acc, l.compressPos, t) == None;
    assert AfterColon(acc, l.compressPos, t) == None;
    assert l.state == Start ==> acc == [];
    if l.state == Ipv4Byte {
      OctetRejects(l, memory, s, want);
    }
  }

  /** No text outside the grammar is accepted, and no other error hides a valid address. */
  method ParseIpAddress(s: string) returns (r: Result)
    ensures forall a :: r == Ok(a) <==> Denotes(s, a)
    ensures r == Err(ContainsNul) <==> '\0' in s
    ensures r == Err(TooManyCharacters) <==> '\0' !in s && |s| > 49
    ensures r.Err? && '\0' !in s && |s| <= 49 ==> Positioned(r.error, s) || Miscounted(r.error)
  {
    hide Denotes, Parse, Head, Exit, TokenAt;
    forall a | Denotes(s, a) ensures |s| <= 45 && Alphabet(s) {
      DenotesLength(s, a);
      DenotesAlphabet(s, a);
    }
    forall a ensures Parse(s) == Some(a) <==> Denotes(s, a) {
      ParseIffDenotes(s, a);
    }
    if '\0' in s {
      return Err(ContainsNul);
    }
    if |s| > MAX_LENGTH {
      return Err(TooManyCharacters);
    }
    r := RunMachine(s);
  }

  method RunMachine(s: string) returns (r: Result)
    requires '\0' !in s
    ensures Answers(r, Parse(s))
    ensures r.Err? ==> Positioned(r.error, s) || Miscounted(r.error)
  {
    hide Parse, Head, Exit, TokenAt;
    var address := new Byte[V6_LENGTH](i => 0);
    var l := Locals(Start, 0, -1, -1, -1, -1, false);
    ghost var want := Parse(s);
    assert address[..] == Zeros(V6_LENGTH);
    Begins(s, address[..]);
    while true
      invariant Head(l, address[..], s, want)
      decreases if InQuad(l) then 0 else 1, |s| - l.inPtr
    {
      HeadBounds(l, address[..], s, want);
      var kind, token, next := Tokenize(s, l.inPtr);
      if kind == Illegal {
        IllegalRejects(l, address[..], s, want, token, next);
        return Err(IllegalCharacter(token[0], next - 1));
      }
      var l', o := OneTurn(s, l, address, kind, token, next, want);
      if o.Throw? {
        return Err(o.error);
      }
      if o.Break? {
        r := Conclude(l', address, want);
        return;
      }
      HeadBounds(l', address[..], s, want);
      l := l';
    }
  }
}

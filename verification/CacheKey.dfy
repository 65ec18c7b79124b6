/**
 * Cache keys: the FNV-1a mixers of include/php_scylladb_cache_key.h and the byte streams
 * that build(), connect() and prepare() feed them.
 */
module CacheKey {
  import opened Sequences

  type Bytes = seq<bv8>

  // ---- one step ------------------------------------------------------------

  function Init(): bv64 { 0xcbf29ce484222325 }

  function TimesPrime(x: bv64): bv64 { x * 0x100000001b3 }

  /** By the inverse of the prime modulo 2^64. */
  function TimesInverse(x: bv64): bv64 { x * 0xce965057aff6957b }

  lemma Products(x: bv64)
    ensures TimesPrime(x) == x * 0x100000001b3 && TimesInverse(x) == x * 0xce965057aff6957b
  {
  }

  lemma OneWay(x: bv64)
    ensures TimesInverse(x * 0x100000001b3) == x
  {
  }

  lemma OtherWay(x: bv64)
    ensures TimesPrime(x * 0xce965057aff6957b) == x
  {
  }

  lemma PrimeIsInvertible(x: bv64)
    ensures TimesInverse(TimesPrime(x)) == x && TimesPrime(TimesInverse(x)) == x
  {
    hide TimesPrime, TimesInverse;
    Products(x);
    OneWay(x);
    OtherWay(x);
  }

  function MixByte(h: bv64, b: bv8): bv64 { TimesPrime(h ^ (b as bv64)) }

  function UnmixByte(g: bv64, b: bv8): bv64 { TimesInverse(g) ^ (b as bv64) }

  lemma XorTwice(x: bv64, y: bv64)
    ensures (x ^ y) ^ y == x
  {
  }

  /** With the byte fixed, a step permutes the 64-bit states. */
  lemma StepIsBijective(h: bv64, g: bv64, b: bv8)
    ensures UnmixByte(MixByte(h, b), b) == h && MixByte(UnmixByte(g, b), b) == g
  {
    hide TimesPrime, TimesInverse;
    PrimeIsInvertible(h ^ (b as bv64));
    PrimeIsInvertible(g);
    XorTwice(h, b as bv64);
    XorTwice(TimesInverse(g), b as bv64);
  }

  lemma StepSeparates(h: bv64, b: bv8, c: bv8)
    requires b != c
    ensures MixByte(h, b) != MixByte(h, c)
  {
    hide TimesPrime, TimesInverse;
    PrimeIsInvertible(h ^ (b as bv64));
    PrimeIsInvertible(h ^ (c as bv64));
    assert h ^ (b as bv64) != h ^ (c as bv64);
  }

  // ---- a stream ------------------------------------------------------------

  function Mix(h: bv64, s: Bytes): bv64
    decreases |s|
  {
    if s == [] then h else Mix(MixByte(h, s[0]), s[1..])
  }

  method MixBytes(h: bv64, buf: array<bv8>) returns (r: bv64)
    ensures r == Mix(h, buf[..])
  {
    r := h;
    var i := 0;
    assert buf[0..] == buf[..];
    while i < buf.Length
      invariant 0 <= i <= buf.Length && Mix(h, buf[..]) == Mix(r, buf[i..])
    {
      assert buf[i..][1..] == buf[i + 1..];
      r := MixByte(r, buf[i]);
      i := i + 1;
    }
  }

  lemma {:induction false} MixConcat(h: bv64, s: Bytes, t: Bytes)
    ensures Mix(h, s + t) == Mix(Mix(h, s), t)
    decreases |s|
  {
    hide MixByte;
    if s == [] {
      assert s + t == t;
    } else {
      assert (s + t)[1..] == s[1..] + t;
      MixConcat(MixByte(h, s[0]), s[1..], t);
    }
  }

  /** A stream permutes the states as well. */
  lemma {:induction false} StreamIsInjective(g: bv64, h: bv64, s: Bytes)
    requires g != h
    ensures Mix(g, s) != Mix(h, s)
    decreases |s|
  {
    hide MixByte, UnmixByte;
    if s != [] {
      StepIsBijective(g, 0, s[0]);
      StepIsBijective(h, 0, s[0]);
      StreamIsInjective(MixByte(g, s[0]), MixByte(h, s[0]), s[1..]);
    }
  }

  /** Streams that differ in exactly one byte never share a key. */
  lemma OneByteSeparates(h: bv64, s: Bytes, t: Bytes, i: nat)
    requires |s| == |t| && i < |s| && s[i] != t[i] && forall j :: 0 <= j < |s| && j != i ==> s[j] == t[j]
    ensures Mix(h, s) != Mix(h, t)
  {
    hide MixByte;
    assert s == s[..i] + (([s[i]]) + s[i + 1..]) && t == s[..i] + ([t[i]] + s[i + 1..]);
    MixConcat(h, s[..i], [s[i]] + s[i + 1..]);
    MixConcat(h, s[..i], [t[i]] + s[i + 1..]);
    var g := Mix(h, s[..i]);
    StepSeparates(g, s[i], t[i]);
    StreamIsInjective(MixByte(g, s[i]), MixByte(g, t[i]), s[i + 1..]);
    assert ([s[i]] + s[i + 1..])[1..] == s[i + 1..] && ([t[i]] + s[i + 1..])[1..] == s[i + 1..];
  }

  /** Published values of the 64-bit FNV-1a hash. */
  lemma KnownHashes()
    ensures Mix(Init(), []) == 0xcbf29ce484222325
    ensures Mix(Init(), [0x61]) == 0xaf63dc4c8601ec8c
    ensures Mix(Init(), [0x66, 0x6f, 0x6f, 0x62, 0x61, 0x72]) == 0x85944171f73967e8
  {
    Unfold(Init(), [0x61]);
    var s: Bytes := [0x66, 0x6f, 0x6f, 0x62, 0x61, 0x72];
    var h1 := MixByte(Init(), 0x66);
    var h2 := MixByte(h1, 0x6f);
    var h3 := MixByte(h2, 0x6f);
    var h4 := MixByte(h3, 0x62);
    var h5 := MixByte(h4, 0x61);
    assert s[1..] == [0x6f, 0x6f, 0x62, 0x61, 0x72] && s[2..] == [0x6f, 0x62, 0x61, 0x72] && s[3..] == [0x62, 0x61, 0x72];
    assert s[4..] == [0x61, 0x72] && s[5..] == [0x72];
    Unfold(Init(), s);
    Unfold(h1, s[1..]);
    Unfold(h2, s[2..]);
    Unfold(h3, s[3..]);
    Unfold(h4, s[4..]);
    Unfold(h5, s[5..]);
  }

  lemma Unfold(h: bv64, s: Bytes)
    requires s != []
    ensures Mix(h, s) == Mix(MixByte(h, s[0]), s[1..])
    ensures |s| == 1 ==> Mix(h, s) == MixByte(h, s[0])
  {
  }

  // ---- fields --------------------------------------------------------------

  /** The eight bytes of an integer in memory, least significant first. */
  function EightBytes(v: bv64): (s: Bytes)
    ensures |s| == 8
  {
    [(v & 0xff) as bv8, ((v >> 8) & 0xff) as bv8, ((v >> 16) & 0xff) as bv8, ((v >> 24) & 0xff) as bv8,
     ((v >> 32) & 0xff) as bv8, ((v >> 40) & 0xff) as bv8, ((v >> 48) & 0xff) as bv8, ((v >> 56) & 0xff) as bv8]
  }

  function FromEight(s: Bytes): bv64
    requires |s| == 8
  {
    (s[0] as bv64) | ((s[1] as bv64) << 8) | ((s[2] as bv64) << 16) | ((s[3] as bv64) << 24)
    | ((s[4] as bv64) << 32) | ((s[5] as bv64) << 40) | ((s[6] as bv64) << 48) | ((s[7] as bv64) << 56)
  }

  lemma EightBytesRoundTrip(v: bv64)
    ensures FromEight(EightBytes(v)) == v
  {
  }

  /** Little-endian. */
  lemma EightBytesOrder()
    ensures EightBytes(0x0102030405060708) == [8, 7, 6, 5, 4, 3, 2, 1]
  {
  }

  lemma EightBytesInjective(v: bv64, w: bv64)
    requires EightBytes(v) == EightBytes(w)
    ensures v == w
  {
    hide EightBytes, FromEight;
    EightBytesRoundTrip(v);
    EightBytesRoundTrip(w);
  }

  datatype Kind = StrKind | IntKind

  /** A field as it is mixed: a nullable string, or an integer. */
  datatype Field = Str(text: Option<Bytes>) | Int(value: bv64)

  function KindOf(f: Field): Kind { if f.Str? then StrKind else IntKind }

  predicate NulFree(s: Bytes) { forall i :: 0 <= i < |s| ==> s[i] != 0 }

  function Text(s: Option<Bytes>): Bytes { if s.None? then [] else s.value }

  predicate FieldOk(f: Field) { f.Str? ==> NulFree(Text(f.text)) }

  function EncodeField(f: Field): Bytes {
    match f
    case Str(s) => Text(s) + [0]
    case Int(v) => EightBytes(v)
  }

  /** The same field, a null string standing for an empty one. */
  predicate SameField(f: Field, g: Field) {
    KindOf(f) == KindOf(g) && match f { case Str(s) => Text(s) == Text(g.text) case Int(v) => v == g.value }
  }

  function Encode(fs: seq<Field>): Bytes { if fs == [] then [] else EncodeField(fs[0]) + Encode(fs[1..]) }

  predicate FieldsOk(fs: seq<Field>) { forall i :: 0 <= i < |fs| ==> FieldOk(fs[i]) }

  predicate SameLayout(fs: seq<Field>, gs: seq<Field>) {
    |fs| == |gs| && forall i :: 0 <= i < |fs| ==> KindOf(fs[i]) == KindOf(gs[i])
  }

  predicate SameFields(fs: seq<Field>, gs: seq<Field>) {
    |fs| == |gs| && forall i :: 0 <= i < |fs| ==> SameField(fs[i], gs[i])
  }

  /** The separator: a NUL-free text ends at the first NUL. */
  lemma TextEnds(a: Bytes, b: Bytes, x: Bytes, y: Bytes)
    requires NulFree(a) && NulFree(b) && a + [0] + x == b + [0] + y
    ensures a == b && x == y
  {
    var s := a + [0] + x;
    assert s[|a|] == 0 && s[|b|] == 0;
    assert forall i :: 0 <= i < |a| ==> s[i] == a[i];
    assert forall i :: 0 <= i < |b| ==> s[i] == b[i];
    assert a == s[..|a|] && b == s[..|b|] && x == s[|a| + 1..] && y == s[|b| + 1..];
  }

  lemma FieldEnds(f: Field, g: Field, x: Bytes, y: Bytes)
    requires KindOf(f) == KindOf(g) && FieldOk(f) && FieldOk(g) && EncodeField(f) + x == EncodeField(g) + y
    ensures SameField(f, g) && x == y
  {
    hide EightBytes;
    match f
    case Str(s) =>
      TextEnds(Text(s), Text(g.text), x, y);
    case Int(v) =>
      var s := EightBytes(v) + x;
      assert EightBytes(v) == s[..8] == EightBytes(g.value) && x == s[8..] == y;
      EightBytesInjective(v, g.value);
  }

  /** Equal streams of one layout come from equal fields. */
  lemma {:induction false} EncodeDetermines(fs: seq<Field>, gs: seq<Field>, x: Bytes, y: Bytes)
    requires SameLayout(fs, gs) && FieldsOk(fs) && FieldsOk(gs) && Encode(fs) + x == Encode(gs) + y
    ensures SameFields(fs, gs) && x == y
  {
    hide EncodeField, SameField, FieldOk, KindOf;
    if fs == [] {
      assert [] + x == x && [] + y == y;
    } else {
      var restF, restG := Encode(fs[1..]) + x, Encode(gs[1..]) + y;
      assert Encode(fs) + x == EncodeField(fs[0]) + restF && Encode(gs) + y == EncodeField(gs[0]) + restG;
      FieldEnds(fs[0], gs[0], restF, restG);
      EncodeDetermines(fs[1..], gs[1..], x, y);
    }
  }

  /** What a C string shows of these bytes. */
  function UpToNul(s: Bytes): (t: Bytes)
    ensures NulFree(t) && t <= s && (NulFree(s) ==> t == s) && (0 in s ==> |t| < |s| && s[|t|] == 0)
  {
    if s == [] || s[0] == 0 then [] else [s[0]] + UpToNul(s[1..])
  }

  /** A terminator changes nothing. */
  lemma {:induction false} UpToNulEnds(s: Bytes)
    ensures UpToNul(s + [0]) == UpToNul(s)
  {
    if s != [] && s[0] != 0 {
      assert (s + [0])[1..] == s[1..] + [0];
      UpToNulEnds(s[1..]);
    }
  }

  // ---- the mixers ----------------------------------------------------------

  /** A string and its separator. */
  function MixZstr(h: bv64, s: Option<Bytes>): bv64 { MixByte(Mix(h, Text(s)), 0) }

  function MixInt(h: bv64, v: bv64): bv64 { Mix(h, EightBytes(v)) }

  function MixField(h: bv64, f: Field): bv64 {
    match f
    case Str(s) => MixZstr(h, s)
    case Int(v) => MixInt(h, v)
  }

  lemma MixFieldIs(h: bv64, f: Field)
    ensures MixField(h, f) == Mix(h, EncodeField(f))
  {
    hide MixByte;
    if f.Str? {
      MixConcat(h, Text(f.text), [0]);
      assert Mix(Mix(h, Text(f.text)), [0]) == Mix(MixByte(Mix(h, Text(f.text)), 0), [0][1..]);
    }
  }

  /** The characters of a C string up to its terminator, then a separator; only the separator for null. */
  method MixCstr(h: bv64, s: Option<Bytes>) returns (r: bv64)
    requires s.Some? ==> 0 in s.value
    ensures r == Mix(h, UpToNul(Text(s)) + [0])
  {
    hide MixByte, NulFree;
    assert Mix(h, [0]) == Mix(MixByte(h, 0), [0][1..]);
    if s.None? {
      assert UpToNul([]) + [0] == [0];
      return MixByte(h, 0);
    }
    ghost var all := UpToNul(s.value) + [0];
    r := h;
    var i := 0;
    assert all[0..] == all;
    while s.value[i] != 0
      invariant 0 <= i < |all| && Mix(h, all) == Mix(r, all[i..])
      decreases |all| - i
    {
      assert all[i] == s.value[i] && all[i..][1..] == all[i + 1..];
      r := MixByte(r, s.value[i]);
      i := i + 1;
    }
    StopsAtNul(s.value, i);
    assert all[i..] == [0] && [0 as bv8][1..] == [];
    assert Mix(r, all[i..]) == Mix(MixByte(r, 0), all[i..][1..]);
    r := MixByte(r, 0);
  }

  lemma StopsAtNul(s: Bytes, i: nat)
    requires 0 in s && i <= |UpToNul(s)| && s[i] == 0
    ensures i == |UpToNul(s)|
  {
    assert forall j :: 0 <= j < |UpToNul(s)| ==> UpToNul(s)[j] == s[j];
  }

  method MixFields(h: bv64, fields: seq<Field>) returns (r: bv64)
    ensures r == Mix(h, Encode(fields))
  {
    hide MixByte, MixField, EncodeField;
    r := h;
    var i := 0;
    assert fields[0..] == fields;
    while i < |fields|
      invariant 0 <= i <= |fields| && Mix(h, Encode(fields)) == Mix(r, Encode(fields[i..]))
    {
      MixFieldIs(r, fields[i]);
      MixConcat(r, EncodeField(fields[i]), Encode(fields[i..][1..]));
      assert fields[i..][1..] == fields[i + 1..];
      r := MixField(r, fields[i]);
      i := i + 1;
    }
  }

  // ---- the streams ---------------------------------------------------------

  /** An execution profile contributes its name and the fingerprint of its settings. */
  datatype Profile = Profile(name: Bytes, configHash: bv64)

  function ProfileFields(ps: seq<Profile>): seq<Field> {
    if ps == [] then [] else [Str(Some(ps[0].name)), Int(ps[0].configHash)] + ProfileFields(ps[1..])
  }

  /** build(): the builder's fields in a fixed order of kinds, then any number of profiles. */
  function ClusterStream(prefix: Bytes, fields: seq<Field>, profiles: seq<Profile>): Bytes {
    prefix + [0] + (Encode(fields) + Encode(ProfileFields(profiles)))
  }

  predicate ProfilesOk(ps: seq<Profile>) { forall i :: 0 <= i < |ps| ==> NulFree(ps[i].name) }

  lemma {:induction false} ProfilesDetermined(ps: seq<Profile>, qs: seq<Profile>)
    requires ProfilesOk(ps) && ProfilesOk(qs) && Encode(ProfileFields(ps)) == Encode(ProfileFields(qs))
    ensures ps == qs
  {
    hide EightBytes, NulFree;
    if ps == [] || qs == [] {
      ProfilesEmpty(ps);
      ProfilesEmpty(qs);
    } else {
      ProfileCons(ps);
      ProfileCons(qs);
      assert ps[0].name + [0] + (EightBytes(ps[0].configHash) + Encode(ProfileFields(ps[1..]))) ==
             qs[0].name + [0] + (EightBytes(qs[0].configHash) + Encode(ProfileFields(qs[1..])));
      TextEnds(ps[0].name, qs[0].name, EightBytes(ps[0].configHash) + Encode(ProfileFields(ps[1..])),
               EightBytes(qs[0].configHash) + Encode(ProfileFields(qs[1..])));
      FieldEnds(Int(ps[0].configHash), Int(qs[0].configHash), Encode(ProfileFields(ps[1..])), Encode(ProfileFields(qs[1..])));
      ProfilesDetermined(ps[1..], qs[1..]);
      assert ps == [ps[0]] + ps[1..] && qs == [qs[0]] + qs[1..];
    }
  }

  lemma ProfileCons(ps: seq<Profile>)
    requires ps != []
    ensures Encode(ProfileFields(ps)) == ps[0].name + [0] + (EightBytes(ps[0].configHash) + Encode(ProfileFields(ps[1..])))
  {
    hide EightBytes;
    var fs, rest := ProfileFields(ps), ProfileFields(ps[1..]);
    assert fs[0] == Str(Some(ps[0].name)) && fs[1..][0] == Int(ps[0].configHash) && fs[1..][1..] == rest;
    assert Encode(fs[1..]) == EightBytes(ps[0].configHash) + Encode(rest);
  }

  lemma ProfilesEmpty(ps: seq<Profile>)
    ensures Encode(ProfileFields(ps)) == [] <==> ps == []
  {
    if ps != [] {
      ProfileCons(ps);
    }
  }

  /** The bytes mixed into a cluster's key determine every field and every profile. */
  lemma ClusterStreamDetermines(prefix: Bytes, fs: seq<Field>, gs: seq<Field>, ps: seq<Profile>, qs: seq<Profile>)
    requires SameLayout(fs, gs) && FieldsOk(fs) && FieldsOk(gs) && ProfilesOk(ps) && ProfilesOk(qs)
    requires ClusterStream(prefix, fs, ps) == ClusterStream(prefix, gs, qs)
    ensures SameFields(fs, gs) && ps == qs
  {
    hide Encode, ProfileFields, SameFields, FieldsOk, SameLayout, ProfilesOk;
    var n := |prefix + [0]|;
    assert ClusterStream(prefix, fs, ps)[n..] == Encode(fs) + Encode(ProfileFields(ps));
    assert ClusterStream(prefix, gs, qs)[n..] == Encode(gs) + Encode(ProfileFields(qs));
    EncodeDetermines(fs, gs, Encode(ProfileFields(ps)), Encode(ProfileFields(qs)));
    ProfilesDetermined(ps, qs);
  }

  /** ":session:" */
  function SessionMark(): (m: Bytes)
    ensures NulFree(m)
  {
    [0x3a, 0x73, 0x65, 0x73, 0x73, 0x69, 0x6f, 0x6e, 0x3a]
  }

  /** connect(): the cluster's key, a marker, the keyspace as far as a C string goes. */
  function SessionStream(clusterKey: bv64, keyspace: Option<Bytes>): Bytes {
    EightBytes(clusterKey) + (SessionMark() + ([0] + UpToNul(Text(keyspace)) + [0]))
  }

  /** The stream determines the cluster's key, and the keyspace up to a NUL; all of one without. */
  lemma SessionStreamDetermines(k: bv64, l: bv64, a: Option<Bytes>, b: Option<Bytes>)
    ensures SessionStream(k, a) == SessionStream(l, b) <==> k == l && UpToNul(Text(a)) == UpToNul(Text(b))
    ensures NulFree(Text(a)) && NulFree(Text(b)) ==> (SessionStream(k, a) == SessionStream(l, b) <==> k == l && Text(a) == Text(b))
  {
    hide EightBytes, SessionMark, NulFree;
    if SessionStream(k, a) == SessionStream(l, b) {
      var x, y := SessionMark() + ([0] + UpToNul(Text(a)) + [0]), SessionMark() + ([0] + UpToNul(Text(b)) + [0]);
      assert [] + x == x && [] + y == y;
      PreparedParts(EightBytes(k), EightBytes(l), [], [], SessionMark(), UpToNul(Text(a)), UpToNul(Text(b)));
      EightBytesInjective(k, l);
    }
  }

  /** Keyspaces that differ only behind a NUL share a session's key. */
  lemma TruncatedKeyspacesMeet(k: bv64)
    ensures SessionStream(k, Some([0x61])) == SessionStream(k, Some([0x61, 0, 0x62]))
  {
    var a, b: Bytes := [0x61], [0x61, 0, 0x62];
    assert UpToNul(a) == [0x61] + UpToNul(a[1..]) && UpToNul(b) == [0x61] + UpToNul(b[1..]);
    SessionStreamDetermines(k, k, Some(a), Some(b));
  }

  /** ":prepared_statement:" */
  function PreparedMark(): (m: Bytes)
    ensures NulFree(m)
  {
    [0x3a, 0x70, 0x72, 0x65, 0x70, 0x61, 0x72, 0x65, 0x64, 0x5f, 0x73, 0x74, 0x61, 0x74, 0x65, 0x6d, 0x65, 0x6e, 0x74, 0x3a]
  }

  /** prepare(): the session's key, the query's bytes as they are, a marker, the keyspace. */
  function PreparedStream(sessionKey: bv64, cql: Bytes, keyspace: Option<Bytes>): Bytes {
    EightBytes(sessionKey) + (cql + (PreparedMark() + ([0] + UpToNul(Text(keyspace)) + [0])))
  }

  /** The query is not terminated, and yet it is determined: the keyspace ends the stream. */
  lemma PreparedStreamDetermines(k: bv64, l: bv64, c: Bytes, d: Bytes, a: Option<Bytes>, b: Option<Bytes>)
    ensures PreparedStream(k, c, a) == PreparedStream(l, d, b) <==> k == l && c == d && UpToNul(Text(a)) == UpToNul(Text(b))
  {
    hide EightBytes, PreparedMark, NulFree;
    if PreparedStream(k, c, a) == PreparedStream(l, d, b) {
      PreparedParts(EightBytes(k), EightBytes(l), c, d, PreparedMark(), UpToNul(Text(a)), UpToNul(Text(b)));
      EightBytesInjective(k, l);
    }
  }

  lemma PreparedParts(k: Bytes, l: Bytes, c: Bytes, d: Bytes, mark: Bytes, a: Bytes, b: Bytes)
    requires |k| == |l| && NulFree(a) && NulFree(b) && k + (c + (mark + ([0] + a + [0]))) == l + (d + (mark + ([0] + b + [0])))
    ensures k == l && c == d && a == b
  {
    var s, t := k + (c + (mark + ([0] + a + [0]))), l + (d + (mark + ([0] + b + [0])));
    var x, y := k + c + mark, l + d + mark;
    assert s == x + ([0] + a + [0]);
    assert t == y + ([0] + b + [0]);
    LastTextEnds(x, y, a, b, s, t);
    hide NulFree;
    assert k == x[..|k|] && l == y[..|k|];
    assert c == x[|k|..|x| - |mark|] && d == y[|k|..|y| - |mark|];
  }

  lemma LastTextEnds(x: Bytes, y: Bytes, a: Bytes, b: Bytes, s: Bytes, t: Bytes)
    requires NulFree(a) && NulFree(b) && s == x + ([0] + a + [0]) && t == y + ([0] + b + [0]) && s == t
    ensures a == b && x == y
  {
    var n := |s|;
    assert s[n - 2 - |a|] == 0 && s[n - 2 - |b|] == 0;
    assert forall i :: n - 1 - |a| <= i < n - 1 ==> s[i] == a[i - (n - 1 - |a|)];
    assert forall i :: n - 1 - |b| <= i < n - 1 ==> s[i] == b[i - (n - 1 - |b|)];
    assert x == s[..n - 2 - |a|] && y == s[..n - 2 - |b|];
    assert a == s[n - 1 - |a|..n - 1] && b == s[n - 1 - |b|..n - 1];
  }

  // ---- the keys ------------------------------------------------------------

  /** The kinds of a builder's fields, in the order build() mixes them. */
  const CLUSTER_LAYOUT: seq<Kind> :=
    [StrKind, IntKind, IntKind, StrKind, IntKind, IntKind, IntKind, StrKind, StrKind, IntKind,
     IntKind, IntKind, IntKind, IntKind, IntKind, IntKind, IntKind, IntKind, IntKind, IntKind,
     IntKind, IntKind, IntKind, IntKind, StrKind, StrKind, StrKind, StrKind, StrKind, StrKind,
     StrKind, IntKind, IntKind, IntKind, IntKind, IntKind, IntKind, StrKind, IntKind, IntKind,
     IntKind, IntKind, IntKind, IntKind, IntKind, IntKind, IntKind, IntKind, IntKind, IntKind,
     IntKind]

  predicate HasLayout(fields: seq<Field>, layout: seq<Kind>) {
    |fields| == |layout| && forall i :: 0 <= i < |fields| ==> KindOf(fields[i]) == layout[i]
  }

  /** The program's name, "cassandra", which every cluster key starts with. */
  function Name(): (m: Bytes)
    ensures NulFree(m)
  {
    [0x63, 0x61, 0x73, 0x73, 0x61, 0x6e, 0x64, 0x72, 0x61]
  }

  /** A key of the cache. */
  datatype Key = Fingerprint(hash: bv64)

  method ClusterKey(fields: seq<Field>, profiles: seq<Profile>) returns (key: Key)
    requires HasLayout(fields, CLUSTER_LAYOUT)
    ensures key.hash == Mix(Init(), ClusterStream(Name(), fields, profiles))
  {
    hide MixByte, Encode, HasLayout, Name, NulFree;
    assert UpToNul(Name() + [0]) == Name() by { UpToNulEnds(Name()); }
    var h := MixCstr(Init(), Some(Name() + [0]));
    MixConcat(Init(), Name() + [0], Encode(fields) + Encode(ProfileFields(profiles)));
    MixConcat(h, Encode(fields), Encode(ProfileFields(profiles)));
    h := MixFields(h, fields);
    h := MixFields(h, ProfileFields(profiles));
    key := Fingerprint(h);
  }

  /** A string's characters are followed by a NUL in memory; no string is an empty one. */
  function CString(s: Option<Bytes>): Bytes { Text(s) + [0] }

  /** A marker and a keyspace, one C string after the other. */
  method MixMarked(h: bv64, mark: Bytes, keyspace: Option<Bytes>) returns (r: bv64)
    requires NulFree(mark)
    ensures r == Mix(h, mark + ([0] + UpToNul(Text(keyspace)) + [0]))
  {
    hide Mix, NulFree, MixByte, UpToNul;
    UpToNulEnds(mark);
    UpToNulEnds(Text(keyspace));
    ghost var rest := UpToNul(Text(keyspace));
    r := MixCstr(h, Some(CString(Some(mark))));
    MixConcat(h, mark + [0], rest + [0]);
    assert mark + ([0] + rest + [0]) == mark + [0] + (rest + [0]);
    r := MixCstr(r, Some(CString(keyspace)));
  }

  method SessionKey(clusterKey: Key, keyspace: Option<Bytes>) returns (key: Key)
    ensures key.hash == Mix(Init(), SessionStream(clusterKey.hash, keyspace))
  {
    hide Mix, EightBytes, SessionMark, NulFree;
    var h := MixInt(Init(), clusterKey.hash);
    MixConcat(Init(), EightBytes(clusterKey.hash), SessionMark() + ([0] + UpToNul(Text(keyspace)) + [0]));
    h := MixMarked(h, SessionMark(), keyspace);
    key := Fingerprint(h);
  }

  method PreparedKey(sessionKey: Key, cql: array<bv8>, keyspace: Option<Bytes>) returns (key: Key)
    ensures key.hash == Mix(Init(), PreparedStream(sessionKey.hash, cql[..], keyspace))
  {
    hide Mix, EightBytes, PreparedMark, NulFree;
    ghost var rest := PreparedMark() + ([0] + UpToNul(Text(keyspace)) + [0]);
    var h := MixInt(Init(), sessionKey.hash);
    MixConcat(Init(), EightBytes(sessionKey.hash), cql[..] + rest);
    MixConcat(h, cql[..], rest);
    h := MixBytes(h, cql);
    h := MixMarked(h, PreparedMark(), keyspace);
    key := Fingerprint(h);
  }

  /** Two builders whose streams agree were configured alike. */
  lemma ClusterKeyStreamDetermines(fs: seq<Field>, gs: seq<Field>, ps: seq<Profile>, qs: seq<Profile>)
    requires HasLayout(fs, CLUSTER_LAYOUT) && HasLayout(gs, CLUSTER_LAYOUT)
    requires FieldsOk(fs) && FieldsOk(gs) && ProfilesOk(ps) && ProfilesOk(qs)
    requires ClusterStream(Name(), fs, ps) == ClusterStream(Name(), gs, qs)
    ensures SameFields(fs, gs) && ps == qs
  {
    hide ClusterStream, FieldsOk, ProfilesOk, SameFields, KindOf;
    ClusterStreamDetermines(Name(), fs, gs, ps, qs);
  }
}

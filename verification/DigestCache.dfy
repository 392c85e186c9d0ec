/** The digest cache file (internal/digest/cache.go): a magic line and records of a
    57-byte key, a digest and a CRC-32 that is an uninterpreted function. */
module DigestCache {
  import opened Bytes
  import opened Optional
  import opened Codec
  import opened Fields
  import opened Lists

  datatype Key = Key(dev: nat, ino: nat, size: nat, mtimeSec: int, mtimeNsec: int, ctimeSec: int, ctimeNsec: int, algo: nat)

  datatype Entry = Entry(key: Key, digest: seq<byte>)

  const KEY_LEN: nat := 57
  const MAX_DIGEST: nat := 32

  /** "esync digest cache v2" and a newline. */
  const MAGIC: seq<byte> :=
    [101, 115, 121, 110, 99, 32, 100, 105, 103, 101, 115, 116, 32, 99, 97, 99, 104, 101, 32, 118, 50, 10]

  // ---- keys ----------------------------------------------------------------

  const KEY_FIELDS: seq<Field> := [U(8), U(8), U(8), I64, I64, I64, I64, U(1)]

  function KeyValues(k: Key): seq<Value> {
    [Num(k.dev), Num(k.ino), Num(k.size), Int(k.mtimeSec), Int(k.mtimeNsec), Int(k.ctimeSec), Int(k.ctimeNsec), Num(k.algo)]
  }

  function KeyOf(vs: seq<Value>): Key
    requires AllShaped(KEY_FIELDS, vs)
  {
    Key(vs[0].n, vs[1].n, vs[2].n, vs[3].i, vs[4].i, vs[5].i, vs[6].i, vs[7].n)
  }

  /** Every field within its width. */
  predicate IsKey(k: Key) {
    && k.dev < U64 && k.ino < U64 && k.size < U64 && k.algo < 256
    && IsInt64(k.mtimeSec) && IsInt64(k.mtimeNsec) && IsInt64(k.ctimeSec) && IsInt64(k.ctimeNsec)
  }

  /** appendKey. */
  function PutKey(k: Key): seq<byte> { PutAll(KEY_FIELDS, KeyValues(k)) }

  /** decodeKey. */
  function GetKey(b: seq<byte>): Key { KeyOf(GetAll(KEY_FIELDS, b, Cursor(0, true)).0) }

  lemma IsKeyFits(k: Key)
    requires IsKey(k)
    ensures AllFit(KEY_FIELDS, KeyValues(k))
  {
    Pow256Values();
  }

  lemma KeyLength(k: Key)
    ensures |PutKey(k)| == KEY_LEN
  {
    var fs, vs := KEY_FIELDS, KeyValues(k);
    PutAllLength(fs, vs);
    assert Lengths(fs, vs, 8) == Lengths(fs, vs, 7) + 1;
    assert Lengths(fs, vs, 7) == Lengths(fs, vs, 6) + 8 && Lengths(fs, vs, 6) == Lengths(fs, vs, 5) + 8;
    assert Lengths(fs, vs, 5) == Lengths(fs, vs, 4) + 8 && Lengths(fs, vs, 4) == Lengths(fs, vs, 3) + 8;
    assert Lengths(fs, vs, 3) == Lengths(fs, vs, 2) + 8 && Lengths(fs, vs, 2) == Lengths(fs, vs, 1) + 8;
    assert Lengths(fs, vs, 1) == Lengths(fs, vs, 0) + 8;
  }

  /** The key codec round-trips: decoding an encoded key gives it back. */
  lemma KeyBack(k: Key)
    requires IsKey(k)
    ensures GetKey(PutKey(k)) == k
  {
    var b := PutKey(k);
    IsKeyFits(k);
    assert b[0..|b|] == b;
    AllBack(KEY_FIELDS, KeyValues(k), b, 0, |b|);
  }

  /** Any 57 bytes are the encoding of the key they decode to. */
  lemma KeyOfBytes(b: seq<byte>)
    requires |b| == KEY_LEN
    ensures PutKey(GetKey(b)) == b && IsKey(GetKey(b))
  {
    var vs := GetAll(KEY_FIELDS, b, Cursor(0, true)).0;
    KeyWidth(KEY_FIELDS);
    TableOfBytes(KEY_FIELDS, b);
    ValuesOfKey(vs);
  }

  lemma ValuesOfKey(vs: seq<Value>)
    requires AllFit(KEY_FIELDS, vs) && AllShaped(KEY_FIELDS, vs)
    ensures KeyValues(KeyOf(vs)) == vs && IsKey(KeyOf(vs))
  {
    Pow256Values();
    forall i | 0 <= i < 8
      ensures Fits(KEY_FIELDS[i], vs[i])
    {
    }
  }

  /** A table of fixed-width fields is a bijection with the bytes of its width. */
  lemma TableOfBytes(fs: seq<Field>, b: seq<byte>)
    requires FixedWidth(fs) == |b| && forall k :: 0 <= k < |fs| ==> !fs[k].B?
    ensures var vs := GetAll(fs, b, Cursor(0, true)).0; PutAll(fs, vs) == b && AllFit(fs, vs)
  {
    FixedReads(fs, b, Cursor(0, true), |fs|);
    PutAllRead(fs, b, Cursor(0, true));
    assert b[0..|b|] == b;
  }

  lemma KeyWidth(fs: seq<Field>)
    requires fs == KEY_FIELDS
    ensures FixedWidth(fs) == KEY_LEN
  {
    forall k | 0 <= k < 8
      ensures fs[k..][0] == fs[k] && fs[k..][1..] == fs[k + 1..]
    {
    }
    assert FixedWidth(fs[8..]) == 0;
    assert FixedWidth(fs[7..]) == 1 && FixedWidth(fs[6..]) == 9 && FixedWidth(fs[5..]) == 17;
    assert FixedWidth(fs[4..]) == 25 && FixedWidth(fs[3..]) == 33 && FixedWidth(fs[2..]) == 41;
    assert FixedWidth(fs[1..]) == 49 && fs[0..] == fs;
  }

  /** Fixed-width fields that fit the buffer are read without failing. */
  lemma {:induction false} FixedReads(fs: seq<Field>, b: seq<byte>, c: Cursor, n: nat)
    requires |fs| == n && c.ok && c.i + FixedWidth(fs) <= |b|
    requires forall k :: 0 <= k < n ==> !fs[k].B?
    ensures GetAll(fs, b, c).1 == Cursor(c.i + FixedWidth(fs), true)
  {
    if fs != [] {
      FixedReads(fs[1..], b, Get(fs[0], b, c).1, n - 1);
    }
  }

  function FixedWidth(fs: seq<Field>): nat {
    if fs == [] then 0
    else (match fs[0] case U(n) => n case I64 => 8 case B(_, _) => 0) + FixedWidth(fs[1..])
  }

  // ---- records -------------------------------------------------------------

  predicate IsEntry(e: Entry) { IsKey(e.key) && 1 <= |e.digest| <= MAX_DIGEST }

  function Sealed(crc: seq<byte> -> nat, key: seq<byte>, digest: seq<byte>): seq<byte> {
    var b := key + (BigEndian(|digest|, 1) + digest);
    b + BigEndian(crc(b) % U32, 4)
  }

  function PutEntry(crc: seq<byte> -> nat, e: Entry): seq<byte> { Sealed(crc, PutKey(e.key), e.digest) }

  datatype Taken = Taken(entry: Entry, rest: seq<byte>) | Torn

  /** One turn of load's loop. */
  function Take(crc: seq<byte> -> nat, p: seq<byte>): (t: Taken)
    ensures t.Taken? ==> |t.rest| < |p|
  {
    if |p| < KEY_LEN + 1 then Torn
    else
      var n := KEY_LEN + 1 + p[KEY_LEN] as nat;
      if p[KEY_LEN] as nat > MAX_DIGEST || |p| < n + 4 then Torn
      else if FromBigEndian(p[n..n + 4]) != crc(p[..n]) % U32 then Torn
      else Taken(Entry(GetKey(p[..KEY_LEN]), p[KEY_LEN + 1..n]), p[n + 4..])
  }

  function Load(crc: seq<byte> -> nat, p: seq<byte>, m: map<Key, seq<byte>>): map<Key, seq<byte>>
    decreases |p|
  {
    match Take(crc, p)
    case Torn => m
    case Taken(e, rest) => Load(crc, rest, m[e.key := e.digest])
  }

  datatype Loaded = Loaded(found: map<Key, seq<byte>>, usable: bool)

  /** load, on a file that exists: an unknown magic line makes it unusable. */
  function LoadFile(crc: seq<byte> -> nat, data: seq<byte>): Loaded {
    if |data| < |MAGIC| || data[..|MAGIC|] != MAGIC then Loaded(map[], false)
    else Loaded(Load(crc, data[|MAGIC|..], map[]), true)
  }

  function EntryWriter(crc: seq<byte> -> nat): Entry -> seq<byte> { (e: Entry) => PutEntry(crc, e) }

  function FileOf(crc: seq<byte> -> nat, es: seq<Entry>): seq<byte> { PutEach(EntryWriter(crc), es) }

  function MapOf(m: map<Key, seq<byte>>, es: seq<Entry>): map<Key, seq<byte>>
    decreases |es|
  {
    if es == [] then m else MapOf(m[es[0].key := es[0].digest], es[1..])
  }

  /** A whole record is taken, whatever follows. */
  lemma TakeBack(crc: seq<byte> -> nat, e: Entry, rest: seq<byte>)
    requires IsEntry(e)
    ensures Take(crc, PutEntry(crc, e) + rest) == Taken(e, rest)
  {
    var key, digest := PutKey(e.key), e.digest;
    KeyLength(e.key);
    KeyBack(e.key);
    SealedParts(crc, key, digest, rest);
  }

  lemma SealedParts(crc: seq<byte> -> nat, key: seq<byte>, digest: seq<byte>, rest: seq<byte>)
    requires |key| == KEY_LEN && |digest| <= MAX_DIGEST
    ensures var p := Sealed(crc, key, digest) + rest;
            var n := KEY_LEN + 1 + |digest|;
            && |p| == n + 4 + |rest| && p[KEY_LEN] as nat == |digest| && p[..KEY_LEN] == key && p[KEY_LEN + 1..n] == digest
            && FromBigEndian(p[n..n + 4]) == crc(p[..n]) % U32 && p[n + 4..] == rest
  {
    var b := key + (BigEndian(|digest|, 1) + digest);
    var p, n := Sealed(crc, key, digest) + rest, KEY_LEN + 1 + |digest|;
    OneByte(|digest|);
    assert p[..n] == b && p[n..n + 4] == BigEndian(crc(b) % U32, 4);
    Pow256Values();
    BigEndianBack(crc(b) % U32, 4);
  }

  lemma OneByte(v: nat)
    requires v < 256
    ensures BigEndian(v, 1) == [v as byte]
  {
    assert BigEndian(v / 256, 0) == [];
  }

  /** A record cut anywhere is torn, however weak the checksum. */
  lemma TakeTorn(crc: seq<byte> -> nat, e: Entry, k: nat)
    requires IsEntry(e) && k < |PutEntry(crc, e)|
    ensures Take(crc, PutEntry(crc, e)[..k]) == Torn
  {
    KeyLength(e.key);
    SealedParts(crc, PutKey(e.key), e.digest, []);
    assert PutEntry(crc, e) + [] == PutEntry(crc, e);
  }

  /** An entry is taken exactly from the record of that entry, its checksum included. */
  lemma TakenIff(crc: seq<byte> -> nat, p: seq<byte>, e: Entry, rest: seq<byte>)
    ensures Take(crc, p) == Taken(e, rest) <==> IsKey(e.key) && |e.digest| <= MAX_DIGEST && p == PutEntry(crc, e) + rest
  {
    if Take(crc, p) == Taken(e, rest) {
      TakenParts(crc, p, KEY_LEN + 1 + p[KEY_LEN] as nat);
      KeyOfBytes(p[..KEY_LEN]);
    } else if IsKey(e.key) && |e.digest| <= MAX_DIGEST && p == PutEntry(crc, e) + rest {
      KeyLength(e.key);
      KeyBack(e.key);
      SealedParts(crc, PutKey(e.key), e.digest, rest);
      assert false;
    }
  }

  lemma TakenParts(crc: seq<byte> -> nat, p: seq<byte>, n: nat)
    requires KEY_LEN + 1 <= n <= |p| - 4 && n == KEY_LEN + 1 + p[KEY_LEN] as nat
    requires FromBigEndian(p[n..n + 4]) == crc(p[..n]) % U32
    ensures p == Sealed(crc, p[..KEY_LEN], p[KEY_LEN + 1..n]) + p[n + 4..]
  {
    var digest := p[KEY_LEN + 1..n];
    OneByte(|digest|);
    assert p[..n] == p[..KEY_LEN] + (BigEndian(|digest|, 1) + digest);
    FromBigEndianRoundTrip(p[n..n + 4]);
    assert p == p[..n] + p[n..n + 4] + p[n + 4..];
  }

  // ---- files ---------------------------------------------------------------

  lemma LoadWhole(crc: seq<byte> -> nat, e: Entry, rest: seq<byte>, m: map<Key, seq<byte>>)
    requires IsEntry(e)
    ensures Load(crc, PutEntry(crc, e) + rest, m) == Load(crc, rest, m[e.key := e.digest])
  {
    TakeBack(crc, e, rest);
  }

  lemma LoadTorn(crc: seq<byte> -> nat, e: Entry, k: nat, m: map<Key, seq<byte>>)
    requires IsEntry(e) && k < |PutEntry(crc, e)|
    ensures Load(crc, PutEntry(crc, e)[..k], m) == m
  {
    TakeTorn(crc, e, k);
  }

  /** The first n entries, and no more, lie wholly before the cut. */
  ghost predicate WhollyBefore(crc: seq<byte> -> nat, es: seq<Entry>, k: nat, n: nat) {
    n <= |es| && |FileOf(crc, es[..n])| <= k && (n < |es| ==> k < |FileOf(crc, es[..n + 1])|)
  }

  lemma FilePrefix(crc: seq<byte> -> nat, es: seq<Entry>, n: nat)
    requires 1 <= n <= |es|
    ensures |FileOf(crc, es[..n])| == |PutEntry(crc, es[0])| + |FileOf(crc, es[1..][..n - 1])|
  {
    assert es[..n][1..] == es[1..][..n - 1];
  }

  lemma WhollyBeforeNext(crc: seq<byte> -> nat, es: seq<Entry>, k: nat, n: nat)
    requires es != [] && k >= |PutEntry(crc, es[0])| && WhollyBefore(crc, es[1..], k - |PutEntry(crc, es[0])|, n)
    ensures WhollyBefore(crc, es, k, n + 1)
  {
    FilePrefix(crc, es, n + 1);
    if n + 1 < |es| {
      FilePrefix(crc, es, n + 2);
    }
  }

  lemma MapOfNext(m: map<Key, seq<byte>>, es: seq<Entry>, n: nat)
    requires 1 <= n <= |es|
    ensures MapOf(m, es[..n]) == MapOf(m[es[0].key := es[0].digest], es[1..][..n - 1])
  {
    assert es[..n][1..] == es[1..][..n - 1];
  }

  lemma {:induction false} CutEntries(crc: seq<byte> -> nat, es: seq<Entry>, m: map<Key, seq<byte>>, k: nat)
    returns (n: nat)
    requires (forall i :: 0 <= i < |es| ==> IsEntry(es[i])) && k <= |FileOf(crc, es)|
    ensures WhollyBefore(crc, es, k, n) && Load(crc, FileOf(crc, es)[..k], m) == MapOf(m, es[..n])
    decreases |es|
  {
    n := 0;
    if es != [] {
      var first, rest := PutEntry(crc, es[0]), FileOf(crc, es[1..]);
      if k < |first| {
        assert (first + rest)[..k] == first[..k];
        LoadTorn(crc, es[0], k, m);
        FilePrefix(crc, es, 1);
      } else {
        assert (first + rest)[..k] == first + rest[..k - |first|];
        LoadWhole(crc, es[0], rest[..k - |first|], m);
        var p := CutEntries(crc, es[1..], m[es[0].key := es[0].digest], k - |first|);
        n := p + 1;
        WhollyBeforeNext(crc, es, k, p);
        MapOfNext(m, es, n);
      }
    } else {
      assert FileOf(crc, es)[..k] == [];
    }
  }

  /** A cache file cut at any byte loads exactly the entries wholly present; cut inside
      the magic line it is unusable and empty.  No assumption is made on the checksum. */
  lemma CutFile(crc: seq<byte> -> nat, es: seq<Entry>, k: nat) returns (n: nat)
    requires (forall i :: 0 <= i < |es| ==> IsEntry(es[i])) && k <= |MAGIC + FileOf(crc, es)|
    ensures k < |MAGIC| ==> LoadFile(crc, (MAGIC + FileOf(crc, es))[..k]) == Loaded(map[], false)
    ensures k >= |MAGIC| ==>
              && WhollyBefore(crc, es, k - |MAGIC|, n)
              && LoadFile(crc, (MAGIC + FileOf(crc, es))[..k]) == Loaded(MapOf(map[], es[..n]), true)
  {
    n := 0;
    if k >= |MAGIC| {
      n := CutEntries(crc, es, map[], k - |MAGIC|);
      CutAfter(MAGIC, FileOf(crc, es), k);
    }
  }

  lemma CutAfter(head: seq<byte>, tail: seq<byte>, k: nat)
    requires |head| <= k <= |head + tail|
    ensures var data := (head + tail)[..k]; data[..|head|] == head && data[|head|..] == tail[..k - |head|]
  {
  }

  // ---- appending to an existing file ---------------------------------------

  /** Where loading stops: nothing is left of a file without a torn tail. */
  function Leftover(crc: seq<byte> -> nat, p: seq<byte>): seq<byte>
    decreases |p|
  {
    match Take(crc, p)
    case Torn => p
    case Taken(_, rest) => Leftover(crc, rest)
  }

  predicate Clean(crc: seq<byte> -> nat, p: seq<byte>) { Leftover(crc, p) == [] }

  /** What was taken is taken again, whatever is appended. */
  lemma TakeExtends(crc: seq<byte> -> nat, p: seq<byte>, more: seq<byte>)
    requires Take(crc, p).Taken?
    ensures Take(crc, p + more) == Taken(Take(crc, p).entry, Take(crc, p).rest + more)
  {
    var n := KEY_LEN + 1 + p[KEY_LEN] as nat;
    var q := p + more;
    assert q[..KEY_LEN] == p[..KEY_LEN] && q[..n] == p[..n];
    assert q[n..n + 4] == p[n..n + 4] && q[KEY_LEN + 1..n] == p[KEY_LEN + 1..n];
    assert q[n + 4..] == p[n + 4..] + more;
  }

  /** Loading an extended file goes on from where loading the file stopped. */
  lemma {:induction false} LoadExtends(crc: seq<byte> -> nat, p: seq<byte>, more: seq<byte>, m: map<Key, seq<byte>>)
    ensures Load(crc, p + more, m) == Load(crc, Leftover(crc, p) + more, Load(crc, p, m))
    decreases |p|
  {
    match Take(crc, p)
    case Torn =>
    case Taken(e, rest) =>
      TakeExtends(crc, p, more);
      LoadExtends(crc, rest, more, m[e.key := e.digest]);
  }

  lemma {:induction false} LoadEntries(crc: seq<byte> -> nat, es: seq<Entry>, m: map<Key, seq<byte>>)
    requires forall i :: 0 <= i < |es| ==> IsEntry(es[i])
    ensures Load(crc, FileOf(crc, es), m) == MapOf(m, es)
    decreases |es|
  {
    if es != [] {
      LoadWhole(crc, es[0], FileOf(crc, es[1..]), m);
      LoadEntries(crc, es[1..], m[es[0].key := es[0].digest]);
    }
  }

  /** The bytes appended complete the torn record, and its checksum happens to match. */
  predicate Collides(crc: seq<byte> -> nat, torn: seq<byte>, added: seq<byte>) { Take(crc, torn + added).Taken? }

  /** Appending entries to a file and loading it again: without a torn tail they are all
      there, behind one they are all lost unless its checksum collides. */
  lemma LoadAfterAppend(crc: seq<byte> -> nat, p: seq<byte>, es: seq<Entry>, m: map<Key, seq<byte>>)
    requires forall i :: 0 <= i < |es| ==> IsEntry(es[i])
    ensures Clean(crc, p) ==> Load(crc, p + FileOf(crc, es), m) == MapOf(Load(crc, p, m), es)
    ensures !Collides(crc, Leftover(crc, p), FileOf(crc, es)) && !Clean(crc, p) ==>
              Load(crc, p + FileOf(crc, es), m) == Load(crc, p, m)
  {
    LoadExtends(crc, p, FileOf(crc, es), m);
    if Clean(crc, p) {
      assert [] + FileOf(crc, es) == FileOf(crc, es);
      LoadEntries(crc, es, Load(crc, p, m));
    }
  }

  /** A file whose last record lost its last byte: an entry appended to it is lost with
      that record, unless it begins with the missing byte. */
  lemma AppendAfterLostByte(crc: seq<byte> -> nat, e: Entry, d: Entry, m: map<Key, seq<byte>>)
    requires IsEntry(e) && IsEntry(d) && PutEntry(crc, d) != [] && PutEntry(crc, e) != []
    requires var whole := PutEntry(crc, e); PutEntry(crc, d)[0] != whole[|whole| - 1]
    ensures var whole := PutEntry(crc, e); Load(crc, whole[..|whole| - 1] + PutEntry(crc, d), m) == m
  {
    var whole, next := PutEntry(crc, e), PutEntry(crc, d);
    KeyLength(e.key);
    SealedParts(crc, PutKey(e.key), e.digest, []);
    assert whole + [] == whole;
    LastByteDiffers(crc, whole, next, KEY_LEN + 1 + |e.digest|);
  }

  lemma LastByteDiffers(crc: seq<byte> -> nat, whole: seq<byte>, next: seq<byte>, n: nat)
    requires KEY_LEN + 1 <= n && |whole| == n + 4 && whole[KEY_LEN] as nat == n - KEY_LEN - 1
    requires FromBigEndian(whole[n..n + 4]) == crc(whole[..n]) % U32 && next != [] && next[0] != whole[n + 3]
    ensures Take(crc, whole[..n + 3] + next) == Torn
  {
    var p := whole[..n + 3] + next;
    assert p[..n] == whole[..n] && p[KEY_LEN] == whole[KEY_LEN];
    FromBigEndianRoundTrip(p[n..n + 4]);
    FromBigEndianRoundTrip(whole[n..n + 4]);
    assert p[n..n + 4][3] == next[0] && whole[n..n + 4][3] == whole[n + 3];
  }

  // ---- what the cache remembers --------------------------------------------

  lemma {:induction false} MapAppend(m: map<Key, seq<byte>>, es: seq<Entry>, e: Entry)
    ensures MapOf(m, es + [e]) == MapOf(m, es)[e.key := e.digest]
    decreases |es|
  {
    if es == [] {
      assert es + [e] == [e] && [e][1..] == [];
    } else {
      MapAppend(m[es[0].key := es[0].digest], es[1..], e);
      assert (es + [e])[1..] == es[1..] + [e];
    }
  }

  lemma {:induction false} MapOfKeys(m: map<Key, seq<byte>>, es: seq<Entry>, k: Key)
    ensures k in MapOf(m, es) <==> k in m || exists i :: 0 <= i < |es| && es[i].key == k
    decreases |es|
  {
    if es != [] {
      MapOfKeys(m[es[0].key := es[0].digest], es[1..], k);
      if exists i :: 0 <= i < |es| && es[i].key == k {
        var i :| 0 <= i < |es| && es[i].key == k;
        assert i > 0 ==> es[1..][i - 1].key == k;
      }
      if exists i :: 0 <= i < |es[1..]| && es[1..][i].key == k {
        var i :| 0 <= i < |es[1..]| && es[1..][i].key == k;
        assert es[i + 1].key == k;
      }
    }
  }

  predicate Keepable(e: Entry) { 1 <= |e.digest| <= MAX_DIGEST }

  /** What a key was loaded with, or else the first digest worth keeping put for it. */
  function First(loaded: map<Key, seq<byte>>, puts: seq<Entry>, k: Key): Option<seq<byte>> {
    if k in loaded then Some(loaded[k])
    else if puts == [] then None
    else if puts[0].key == k && Keepable(puts[0]) then Some(puts[0].digest)
    else First(loaded, puts[1..], k)
  }

  function Lookup(m: map<Key, seq<byte>>, k: Key): Option<seq<byte>> { if k in m then Some(m[k]) else None }

  lemma {:induction false} FirstAppend(loaded: map<Key, seq<byte>>, puts: seq<Entry>, e: Entry, k: Key)
    ensures First(loaded, puts + [e], k)
            == if First(loaded, puts, k).Some? then First(loaded, puts, k)
               else if e.key == k && Keepable(e) then Some(e.digest) else None
  {
    if puts == [] {
      assert puts + [e] == [e] && [e][1..] == [];
    } else {
      FirstAppend(loaded, puts[1..], e, k);
      assert (puts + [e])[1..] == puts[1..] + [e];
    }
  }

  lemma RemembersMore(m: map<Key, seq<byte>>, loaded: map<Key, seq<byte>>, puts: seq<Entry>, e: Entry)
    requires forall k :: Lookup(m, k) == First(loaded, puts, k)
    ensures var m' := if Keepable(e) && e.key !in m then m[e.key := e.digest] else m;
            forall k :: Lookup(m', k) == First(loaded, puts + [e], k)
  {
    var m' := if Keepable(e) && e.key !in m then m[e.key := e.digest] else m;
    forall k
      ensures Lookup(m', k) == First(loaded, puts + [e], k)
    {
      FirstAppend(loaded, puts, e, k);
      assert Lookup(m, k) == First(loaded, puts, k);
    }
  }

  // ---- the object ----------------------------------------------------------

  /** `loaded` is what opening found, `base` the records it found it in, `entries` what
      was appended behind them and `puts` every digest put. */
  class Cache {
    const crc: seq<byte> -> nat
    var m: map<Key, seq<byte>>
    var file: seq<byte>
    var writable: bool
    ghost const loaded: map<Key, seq<byte>>
    ghost const base: seq<byte>
    ghost var entries: seq<Entry>
    ghost var puts: seq<Entry>

    ghost predicate Remembers()
      reads this
    {
      forall k :: Lookup(m, k) == First(loaded, puts, k)
    }

    /** While the file can be written, it holds what was found and what was kept. */
    ghost predicate OnFile()
      reads this
    {
      && loaded == Load(crc, base, map[])
      && file == MAGIC + (base + FileOf(crc, entries))
      && m == MapOf(loaded, entries)
      && (forall i :: 0 <= i < |entries| ==> IsEntry(entries[i]) && entries[i].key !in loaded)
    }

    ghost predicate Valid()
      reads this
    {
      Remembers() && (writable ==> OnFile())
    }

    /** OpenCache on whatever bytes there are, or on none; `openable` is whether the file
        can be opened for appending and, when new, takes its magic line. */
    constructor (crc: seq<byte> -> nat, data: Option<seq<byte>>, openable: bool)
      ensures Valid() && this.crc == crc && puts == []
      ensures m == if data.None? then map[] else LoadFile(crc, data.value).found
      ensures writable <==> openable && (data.None? || LoadFile(crc, data.value).usable)
      ensures data.Some? ==> file == data.value
    {
      this.crc := crc;
      if data.None? {
        m, file, writable := map[], if openable then MAGIC else [], openable;
        loaded, base, entries, puts := map[], [], [], [];
      } else {
        var r := LoadCache(crc, data.value);
        m, file, writable := r.found, data.value, openable && r.usable;
        loaded, base := r.found, if r.usable then data.value[|MAGIC|..] else [];
        entries, puts := [], [];
      }
      new;
      assert MAGIC + ([] + FileOf(crc, [])) == MAGIC;
      assert data.Some? && writable ==> file == MAGIC + (base + FileOf(crc, []));
    }

    method Get(key: Key) returns (digest: Option<seq<byte>>)
      requires Valid()
      ensures digest == First(loaded, puts, key)
    {
      digest := if key in m then Some(m[key]) else None;
      assert digest == Lookup(m, key);
    }

    /** `wrote` is how much of the record the file takes: less than all of it is a write
        error, which disables further writes. */
    method PutDigest(key: Key, digest: seq<byte>, wrote: nat)
      requires Valid() && IsKey(key)
      modifies this
      ensures Valid() && puts == old(puts) + [Entry(key, digest)]
      ensures var e := Entry(key, digest);
              var kept := Keepable(e) && First(loaded, old(puts), key).None?;
              && writable == (old(writable) && (kept ==> wrote >= |PutEntry(crc, e)|))
              && entries == (if kept && old(writable) && writable then old(entries) + [e] else old(entries))
    {
      assert Lookup(m, key) == First(loaded, puts, key);
      RemembersMore(m, loaded, puts, Entry(key, digest));
      puts := puts + [Entry(key, digest)];
      if |digest| == 0 || |digest| > MAX_DIGEST || key in m {
        return;
      }
      m := m[key := digest];
      if !writable {
        return;
      }
      Append(Entry(key, digest), wrote);
    }

    method Append(e: Entry, wrote: nat)
      requires writable && loaded == Load(crc, base, map[]) && file == MAGIC + (base + FileOf(crc, entries))
      requires e.key !in MapOf(loaded, entries) && m == MapOf(loaded, entries)[e.key := e.digest] && IsEntry(e)
      requires forall i :: 0 <= i < |entries| ==> IsEntry(entries[i]) && entries[i].key !in loaded
      modifies this`file, this`writable, this`entries
      ensures writable <==> wrote >= |PutEntry(crc, e)|
      ensures writable ==> OnFile()
      ensures entries == if writable then old(entries) + [e] else old(entries)
    {
      var rec := PutEntry(crc, e);
      if wrote < |rec| {
        file := file + rec[..wrote];
        writable := false;
        return;
      }
      PutEachAppend(EntryWriter(crc), entries, e);
      MapAppend(loaded, entries, e);
      MapOfKeys(loaded, entries, e.key);
      Associative(base, FileOf(crc, entries), rec);
      Associative(MAGIC, base + FileOf(crc, entries), rec);
      file := file + rec;
      entries := entries + [e];
    }

    /** Loading the file again gives what memory holds, if the file had no torn tail when
        it was opened; behind a torn tail everything appended is lost, unless the torn
        record's checksum collides. */
    method Reload() returns (r: Loaded)
      requires Valid() && writable
      ensures Clean(crc, base) ==> r == Loaded(m, true)
      ensures !Clean(crc, base) && !Collides(crc, Leftover(crc, base), FileOf(crc, entries)) ==>
                r == Loaded(loaded, true) && (r == Loaded(m, true) <==> entries == [])
    {
      var data := file;
      assert data[..|MAGIC|] == MAGIC && data[|MAGIC|..] == base + FileOf(crc, entries);
      LoadAfterAppend(crc, base, entries, map[]);
      r := LoadCache(crc, data);
      if entries != [] {
        MapOfKeys(loaded, entries, entries[0].key);
      }
    }
  }

  /** load's loop. */
  method LoadCache(crc: seq<byte> -> nat, data: seq<byte>) returns (r: Loaded)
    ensures r == LoadFile(crc, data)
  {
    if |data| < |MAGIC| || data[..|MAGIC|] != MAGIC {
      return Loaded(map[], false);
    }
    var p, m := data[|MAGIC|..], map[];
    while |p| > 0
      invariant Load(crc, data[|MAGIC|..], map[]) == Load(crc, p, m)
    {
      if |p| < KEY_LEN + 1 {
        return Loaded(m, true);
      }
      var n := KEY_LEN + 1 + p[KEY_LEN] as nat;
      if p[KEY_LEN] as nat > MAX_DIGEST || |p| < n + 4 || FromBigEndian(p[n..n + 4]) != crc(p[..n]) % U32 {
        return Loaded(m, true);
      }
      m := m[GetKey(p[..KEY_LEN]) := p[KEY_LEN + 1..n]];
      p := p[n + 4..];
    }
    r := Loaded(m, true);
  }
}

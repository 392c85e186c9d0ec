/** Marshal and Unmarshal (internal/wire/wire.go) over the body codec
    (internal/wire/frame.go). */
module Wire {
  import opened Bytes
  import opened Fault
  import opened Codec
  import opened Fields
  import opened Rows
  import opened Frame

  datatype Result = Ok(msg: Message) | Err(code: nat)

  // ---- the rows of the two list messages -----------------------------------

  const ENTRY_FIELDS: seq<Field> := [U(1), U(2), B(2, MAX_PATH), U(8), U(4), I64, U(4), B(1, MAX_DIGEST)]

  /** A symlink carries its target, and the first flag announces a hard-link key. */
  function EntryOptions(vs: seq<Value>): seq<Field> {
    if !AllShaped(ENTRY_FIELDS, vs) then []
    else (if vs[0].n == 2 then [B(2, MAX_PATH)] else []) + (if vs[1].n % 2 == 1 then [U(8)] else [])
  }

  function EntryFormat(): Format { Format(ENTRY_FIELDS, (vs: seq<Value>) => EntryOptions(vs)) }

  function Plain(fields: seq<Field>): Format { Format(fields, (vs: seq<Value>) => []) }

  function IndexFormat(): Format { Plain([U(2)]) }

  function RejectedFormat(): Format { Plain([U(2), U(2)]) }

  function EntryRow(e: ManifestEntry): Row {
    Row([Num(e.kind), Num(e.flags), Data(e.path), Num(e.size), Num(e.mode), Int(e.mtimeSec), Num(e.mtimeNsec), Data(e.digest)],
        (if e.kind == 2 then [Data(e.linkTarget)] else []) + (if e.flags % 2 == 1 then [Num(e.hardlinkKey)] else []))
  }

  function EntryOf(row: Row): ManifestEntry
    requires RowShaped(EntryFormat(), row)
  {
    var f, o := row.fixed, row.options;
    var link := f[0].n == 2;
    ManifestEntry(f[0].n, f[1].n, f[2].b, f[3].n, f[4].n, f[5].i, f[6].n, f[7].b,
                  if link then o[0].b else [],
                  if f[1].n % 2 == 1 then o[if link then 1 else 0].n else 0)
  }

  /** Within the declared bounds, and an optional field set only when announced. */
  predicate EntryBounded(e: ManifestEntry) {
    && e.kind < 256 && e.flags < U16 && |e.path| <= MAX_PATH && e.size < U64 && e.mode < U32
    && IsInt64(e.mtimeSec) && e.mtimeNsec < U32 && |e.digest| <= MAX_DIGEST
    && (if e.kind == 2 then |e.linkTarget| <= MAX_PATH else e.linkTarget == [])
    && (if e.flags % 2 == 1 then e.hardlinkKey < U64 else e.hardlinkKey == 0)
  }

  lemma EntryRoundTrip(e: ManifestEntry)
    requires EntryBounded(e)
    ensures RowFits(EntryFormat(), EntryRow(e)) && EntryOf(EntryRow(e)) == e
  {
    Pow256Values();
  }

  lemma RowRoundTrip(row: Row)
    requires RowFits(EntryFormat(), row)
    ensures EntryRow(EntryOf(row)) == row && EntryBounded(EntryOf(row))
  {
    Pow256Values();
  }

  function EntryRows(es: seq<ManifestEntry>): (rows: seq<Row>)
    ensures |rows| == |es|
  {
    seq(|es|, i requires 0 <= i < |es| => EntryRow(es[i]))
  }

  function EntriesOf(rows: seq<Row>): (es: seq<ManifestEntry>)
    requires RowsFit(EntryFormat(), rows)
    ensures |es| == |rows|
  {
    seq(|rows|, i requires 0 <= i < |rows| => EntryOf(rows[i]))
  }

  function IndexRows(ns: seq<nat>): (rows: seq<Row>)
    ensures |rows| == |ns|
  {
    seq(|ns|, i requires 0 <= i < |ns| => Row([Num(ns[i])], []))
  }

  function IndicesOf(rows: seq<Row>): (ns: seq<nat>)
    requires RowsFit(IndexFormat(), rows)
    ensures |ns| == |rows|
  {
    seq(|rows|, i requires 0 <= i < |rows| => rows[i].fixed[0].n)
  }

  function RejectedRows(rs: seq<Rejected>): (rows: seq<Row>)
    ensures |rows| == |rs|
  {
    seq(|rs|, i requires 0 <= i < |rs| => Row([Num(rs[i].index), Num(rs[i].code)], []))
  }

  function RejectedOf(rows: seq<Row>): (rs: seq<Rejected>)
    requires RowsFit(RejectedFormat(), rows)
    ensures |rs| == |rows|
  {
    seq(|rows|, i requires 0 <= i < |rows| => Rejected(rows[i].fixed[0].n, rows[i].fixed[1].n))
  }

  predicate EntriesBounded(es: seq<ManifestEntry>) {
    |es| <= MAX_ROWS && forall i :: 0 <= i < |es| ==> EntryBounded(es[i])
  }

  predicate IndicesBounded(ns: seq<nat>) { |ns| <= MAX_ROWS && forall i :: 0 <= i < |ns| ==> ns[i] < U16 }

  predicate RejectedBounded(rs: seq<Rejected>) {
    |rs| <= MAX_ROWS && forall i :: 0 <= i < |rs| ==> rs[i].index < U16 && rs[i].code < U16
  }

  lemma EntriesRoundTrip(es: seq<ManifestEntry>)
    requires EntriesBounded(es)
    ensures RowsFit(EntryFormat(), EntryRows(es)) && EntriesOf(EntryRows(es)) == es
  {
    forall i | 0 <= i < |es|
      ensures RowFits(EntryFormat(), EntryRows(es)[i]) && EntryOf(EntryRows(es)[i]) == es[i]
    {
      EntryRoundTrip(es[i]);
    }
  }

  lemma EntryRowsRoundTrip(rows: seq<Row>)
    requires RowsFit(EntryFormat(), rows) && |rows| <= MAX_ROWS
    ensures EntriesBounded(EntriesOf(rows))
  {
    forall i | 0 <= i < |rows|
      ensures EntryBounded(EntriesOf(rows)[i])
    {
      RowRoundTrip(rows[i]);
    }
  }

  lemma IndicesRoundTrip(ns: seq<nat>)
    requires IndicesBounded(ns)
    ensures RowsFit(IndexFormat(), IndexRows(ns)) && IndicesOf(IndexRows(ns)) == ns
  {
    Pow256Values();
  }

  lemma IndexRowsRoundTrip(rows: seq<Row>)
    requires RowsFit(IndexFormat(), rows) && |rows| <= MAX_ROWS
    ensures IndicesBounded(IndicesOf(rows))
  {
    Pow256Values();
  }

  lemma RejectedRoundTrip(rs: seq<Rejected>)
    requires RejectedBounded(rs)
    ensures RowsFit(RejectedFormat(), RejectedRows(rs)) && RejectedOf(RejectedRows(rs)) == rs
  {
    Pow256Values();
  }

  lemma RejectedRowsRoundTrip(rows: seq<Row>)
    requires RowsFit(RejectedFormat(), rows) && |rows| <= MAX_ROWS
    ensures RejectedBounded(RejectedOf(rows))
  {
    Pow256Values();
  }

  // ---- bodies --------------------------------------------------------------

  /** Every field within its width and declared maximum. */
  predicate Bounded(m: Message) {
    && AllFit(Table(Type(m)), Values(m))
    && match m
       case GroupManifest(_, _, list) => EntriesBounded(list)
       case GroupDecision(_, needed, skipped, rejected) =>
         IndicesBounded(needed) && skipped < U16 && RejectedBounded(rejected)
       case Error(_, _, _, detail) => |detail| <= MAX_STR
       case _ => true
  }

  /** What follows the table: the lists, and the error detail. */
  function Tail(m: Message): seq<byte> {
    match m
    case GroupManifest(_, _, list) => PutList(EntryFormat(), EntryRows(list))
    case GroupDecision(_, needed, skipped, rejected) =>
      PutList(IndexFormat(), IndexRows(needed)) + (BigEndian(skipped, 2) + PutList(RejectedFormat(), RejectedRows(rejected)))
    case Error(_, _, _, detail) => PutBytes(detail, 2)
    case _ => []
  }

  /** encodeBody. */
  function Body(m: Message): seq<byte> { PutAll(Table(Type(m)), Values(m)) + Tail(m) }

  function ManifestFrom(vs: seq<Value>, b: seq<byte>, c: Cursor): Result
    requires AllShaped(Table(0x12), vs)
  {
    var (rows, c1) := GetList(EntryFormat(), b, c);
    GetListFits(EntryFormat(), b, c);
    if c1.ok then Ok(GroupManifest(vs[0].n, vs[1].n, EntriesOf(rows))) else Err(E5003)
  }

  function DecisionFrom(vs: seq<Value>, b: seq<byte>, c: Cursor): Result
    requires AllShaped(Table(0x20), vs)
  {
    var (needed, c1) := GetList(IndexFormat(), b, c);
    GetListFits(IndexFormat(), b, c);
    var (skipped, c2) := GetUint(b, c1, 2);
    var (rejected, c3) := GetList(RejectedFormat(), b, c2);
    GetListFits(RejectedFormat(), b, c2);
    if c3.ok then Ok(GroupDecision(vs[0].n, IndicesOf(needed), skipped, RejectedOf(rejected))) else Err(E5003)
  }

  /** The detail is absent when the body ends before it. */
  function ErrorFrom(vs: seq<Value>, b: seq<byte>, c: Cursor): Result
    requires AllShaped(Table(0x50), vs)
  {
    var (detail, c1) := if c.ok && |b| > c.i then GetBytes(b, c, 2, MAX_STR) else ([], c);
    if c1.ok then Ok(Error(vs[0].n, vs[1].n, vs[2].b, detail)) else Err(E5003)
  }

  function Rest(t: nat, vs: seq<Value>, b: seq<byte>, c: Cursor): Result
    requires Known(t) && AllShaped(Table(t), vs)
  {
    if t == 0x12 then ManifestFrom(vs, b, c)
    else if t == 0x20 then DecisionFrom(vs, b, c)
    else if t == 0x50 then ErrorFrom(vs, b, c)
    else if c.ok then Ok(Make(t, vs))
    else Err(E5003)
  }

  /** decodeBody. */
  function Decode(t: nat, b: seq<byte>): Result {
    if !Known(t) then Err(E5011)
    else var (vs, c) := GetAll(Table(t), b, Cursor(0, true)); Rest(t, vs, b, c)
  }

  lemma ManifestBack(m: Message, b: seq<byte>, i: nat)
    requires m.GroupManifest? && Bounded(m) && At(b, i, Tail(m))
    ensures ManifestFrom(Values(m), b, Cursor(i, true)) == Ok(m)
  {
    var rows := EntryRows(m.list);
    EntriesRoundTrip(m.list);
    ListBack(EntryFormat(), rows, b, i, i + |PutList(EntryFormat(), rows)|);
  }

  lemma DecisionChain(vs: seq<Value>, b: seq<byte>, c: Cursor, needed: seq<Row>, c1: Cursor, skipped: nat, c2: Cursor,
                      rejected: seq<Row>, c3: Cursor)
    requires AllShaped(Table(0x20), vs) && c3.ok
    requires GetList(IndexFormat(), b, c) == (needed, c1) && RowsFit(IndexFormat(), needed)
    requires GetUint(b, c1, 2) == (skipped, c2)
    requires GetList(RejectedFormat(), b, c2) == (rejected, c3) && RowsFit(RejectedFormat(), rejected)
    ensures DecisionFrom(vs, b, c) == Ok(GroupDecision(vs[0].n, IndicesOf(needed), skipped, RejectedOf(rejected)))
  {
  }

  /** A list and a 16-bit number before something else. */
  lemma ListAndNumberBack(f: Format, xs: seq<Row>, n: nat, last: seq<byte>, b: seq<byte>, i: nat) returns (j: nat)
    requires RowsFit(f, xs) && |xs| <= MAX_ROWS && n < U16
    requires At(b, i, PutList(f, xs) + (BigEndian(n, 2) + last))
    ensures GetList(f, b, Cursor(i, true)) == (xs, Cursor(j, true))
    ensures GetUint(b, Cursor(j, true), 2) == (n, Cursor(j + 2, true)) && At(b, j + 2, last)
  {
    j := i + |PutList(f, xs)|;
    AtSplit3(b, i, PutList(f, xs), BigEndian(n, 2), last);
    ListBack(f, xs, b, i, j);
    SkippedBack(b, j, n);
  }

  lemma DecisionPartsBack(vs: seq<Value>, ns: seq<nat>, skipped: nat, rs: seq<Rejected>, b: seq<byte>, i: nat)
    requires AllShaped(Table(0x20), vs) && IndicesBounded(ns) && skipped < U16 && RejectedBounded(rs)
    requires At(b, i, PutList(IndexFormat(), IndexRows(ns))
                      + (BigEndian(skipped, 2) + PutList(RejectedFormat(), RejectedRows(rs))))
    ensures DecisionFrom(vs, b, Cursor(i, true)) == Ok(GroupDecision(vs[0].n, ns, skipped, rs))
  {
    var needed, rejected := IndexRows(ns), RejectedRows(rs);
    IndicesRoundTrip(ns);
    RejectedRoundTrip(rs);
    var last := PutList(RejectedFormat(), rejected);
    var j := ListAndNumberBack(IndexFormat(), needed, skipped, last, b, i);
    ListBack(RejectedFormat(), rejected, b, j + 2, j + 2 + |last|);
    DecisionChain(vs, b, Cursor(i, true), needed, Cursor(j, true), skipped, Cursor(j + 2, true),
                  rejected, Cursor(j + 2 + |last|, true));
  }

  lemma DecisionBack(m: Message, b: seq<byte>, i: nat)
    requires m.GroupDecision? && Bounded(m) && At(b, i, Tail(m))
    ensures DecisionFrom(Values(m), b, Cursor(i, true)) == Ok(m)
  {
    DecisionPartsBack(Values(m), m.needed, m.skipped, m.rejected, b, i);
  }

  lemma SkippedBack(b: seq<byte>, i: nat, v: nat)
    requires v < U16 && At(b, i, BigEndian(v, 2))
    ensures GetUint(b, Cursor(i, true), 2) == (v, Cursor(i + 2, true))
  {
    Pow256Values();
    UintBack(b, i, v, 2);
  }

  lemma ErrorBack(m: Message, b: seq<byte>, i: nat)
    requires m.Error? && Bounded(m) && At(b, i, Tail(m))
    ensures ErrorFrom(Values(m), b, Cursor(i, true)) == Ok(m)
  {
    Pow256Values();
    BytesBack(b, i, m.detail, 2, MAX_STR);
  }

  lemma RestBack(m: Message, b: seq<byte>, i: nat)
    requires Bounded(m) && AllShaped(Table(Type(m)), Values(m)) && At(b, i, Tail(m))
    ensures Rest(Type(m), Values(m), b, Cursor(i, true)) == Ok(m)
  {
    if m.GroupManifest? {
      ManifestBack(m, b, i);
    } else if m.GroupDecision? {
      DecisionBack(m, b, i);
    } else if m.Error? {
      ErrorBack(m, b, i);
    } else {
      MakeValues(m);
    }
  }

  lemma HeadBack(fs: seq<Field>, vs: seq<Value>, b: seq<byte>, tail: seq<byte>) returns (i: nat)
    requires AllFit(fs, vs) && At(b, 0, PutAll(fs, vs) + tail)
    ensures AllShaped(fs, vs) && GetAll(fs, b, Cursor(0, true)) == (vs, Cursor(i, true)) && At(b, i, tail)
  {
    i := |PutAll(fs, vs)|;
    AtSplit(b, 0, PutAll(fs, vs), tail);
    AllBack(fs, vs, b, 0, i);
  }

  /** A body decodes to its message, whatever follows it. */
  lemma BodyBack(m: Message, b: seq<byte>)
    requires Bounded(m) && At(b, 0, Body(m))
    ensures Decode(Type(m), b) == Ok(m)
  {
    var i := HeadBack(Table(Type(m)), Values(m), b, Tail(m));
    RestBack(m, b, i);
  }

  // ---- what decoding yields ------------------------------------------------

  /** Whatever decodes is within the declared bounds. */
  lemma DecodedBounded(t: nat, b: seq<byte>)
    requires Decode(t, b).Ok?
    ensures Type(Decode(t, b).msg) == t && Bounded(Decode(t, b).msg)
  {
    var (vs, c) := GetAll(Table(t), b, Cursor(0, true));
    RestBounded(t, vs, b, c);
  }

  lemma RestBounded(t: nat, vs: seq<Value>, b: seq<byte>, c: Cursor)
    requires Known(t) && AllShaped(Table(t), vs) && (c.ok ==> AllFit(Table(t), vs))
    requires Rest(t, vs, b, c).Ok?
    ensures Type(Rest(t, vs, b, c).msg) == t && Bounded(Rest(t, vs, b, c).msg)
  {
    if t == 0x12 {
      GetListFits(EntryFormat(), b, c);
      EntryRowsRoundTrip(GetList(EntryFormat(), b, c).0);
      assert [Num(vs[0].n), Num(vs[1].n)] == vs;
    } else if t == 0x20 {
      DecisionBounded(vs, b, c);
    } else if t == 0x50 {
      assert [Num(vs[0].n), Num(vs[1].n), Data(vs[2].b)] == vs;
    } else {
      ValuesMake(t, vs);
    }
  }

  lemma DecisionBounded(vs: seq<Value>, b: seq<byte>, c: Cursor)
    requires AllShaped(Table(0x20), vs) && (c.ok ==> AllFit(Table(0x20), vs))
    requires DecisionFrom(vs, b, c).Ok?
    ensures Bounded(DecisionFrom(vs, b, c).msg)
  {
    GetListFits(IndexFormat(), b, c);
    var (needed, c1) := GetList(IndexFormat(), b, c);
    var c2 := GetUint(b, c1, 2).1;
    GetListFits(RejectedFormat(), b, c2);
    IndexRowsRoundTrip(needed);
    RejectedRowsRoundTrip(GetList(RejectedFormat(), b, c2).0);
    Pow256Values();
    assert [Num(vs[0].n)] == vs;
  }

  // ---- nothing but trailing bytes is lost ----------------------------------

  lemma RowsOfEntries(rows: seq<Row>)
    requires RowsFit(EntryFormat(), rows)
    ensures EntryRows(EntriesOf(rows)) == rows
  {
    forall i | 0 <= i < |rows|
      ensures EntryRow(EntriesOf(rows)[i]) == rows[i]
    {
      RowRoundTrip(rows[i]);
    }
  }

  lemma RowsOfIndices(rows: seq<Row>)
    requires RowsFit(IndexFormat(), rows)
    ensures IndexRows(IndicesOf(rows)) == rows
  {
    forall i | 0 <= i < |rows|
      ensures IndexRows(IndicesOf(rows))[i] == rows[i]
    {
      assert RowFits(IndexFormat(), rows[i]);
    }
  }

  lemma RowsOfRejected(rows: seq<Row>)
    requires RowsFit(RejectedFormat(), rows)
    ensures RejectedRows(RejectedOf(rows)) == rows
  {
    forall i | 0 <= i < |rows|
      ensures RejectedRows(RejectedOf(rows))[i] == rows[i]
    {
      assert RowFits(RejectedFormat(), rows[i]);
    }
  }

  lemma ManifestRead(vs: seq<Value>, b: seq<byte>, c: Cursor) returns (end: Cursor)
    requires AllShaped(Table(0x12), vs) && c.i <= |b| && ManifestFrom(vs, b, c).Ok?
    ensures Covers(b, c, end, Tail(ManifestFrom(vs, b, c).msg)) && Values(ManifestFrom(vs, b, c).msg) == vs
  {
    assert [Num(vs[0].n), Num(vs[1].n)] == vs;
    end := GetList(EntryFormat(), b, c).1;
    GetListFits(EntryFormat(), b, c);
    ListRead(EntryFormat(), b, c);
    RowsOfEntries(GetList(EntryFormat(), b, c).0);
  }

  lemma DecisionRead(vs: seq<Value>, b: seq<byte>, c: Cursor) returns (end: Cursor)
    requires AllShaped(Table(0x20), vs) && c.i <= |b| && DecisionFrom(vs, b, c).Ok?
    ensures Covers(b, c, end, Tail(DecisionFrom(vs, b, c).msg)) && Values(DecisionFrom(vs, b, c).msg) == vs
  {
    assert [Num(vs[0].n)] == vs;
    var (needed, c1) := GetList(IndexFormat(), b, c);
    var (skipped, c2) := GetUint(b, c1, 2);
    var (rejected, c3) := GetList(RejectedFormat(), b, c2);
    GetListFits(IndexFormat(), b, c);
    GetListFits(RejectedFormat(), b, c2);
    ListRead(IndexFormat(), b, c);
    UintRead(b, c1, 2);
    ListRead(RejectedFormat(), b, c2);
    RowsOfIndices(needed);
    RowsOfRejected(rejected);
    CoversTwo(b, c1, c2, c3, BigEndian(skipped, 2), PutList(RejectedFormat(), rejected));
    CoversTwo(b, c, c1, c3, PutList(IndexFormat(), needed), BigEndian(skipped, 2) + PutList(RejectedFormat(), rejected));
    end := c3;
  }

  /** An ERROR body without its optional detail. */
  predicate DetailLeftOut(m: Message, b: seq<byte>) {
    m.Error? && m.detail == [] && b == PutAll(Table(0x50), Values(m))
  }

  lemma ErrorRead(vs: seq<Value>, b: seq<byte>, c: Cursor)
    requires AllShaped(Table(0x50), vs) && c.i <= |b| && c.ok && ErrorFrom(vs, b, c).Ok?
    ensures var m := ErrorFrom(vs, b, c).msg;
            && m.Error? && Values(m) == vs
            && ((c.i == |b| && m.detail == []) || At(b, c.i, Tail(m)))
  {
    assert [Num(vs[0].n), Num(vs[1].n), Data(vs[2].b)] == vs;
    if c.i < |b| {
      BytesRead(b, c, 2, MAX_STR);
    }
  }

  lemma RestRead(t: nat, vs: seq<Value>, b: seq<byte>, c: Cursor)
    requires Known(t) && AllShaped(Table(t), vs) && c.i <= |b| && c.ok && Rest(t, vs, b, c).Ok?
    ensures var m := Rest(t, vs, b, c).msg;
            && Values(m) == vs
            && ((m.Error? && c.i == |b| && m.detail == []) || At(b, c.i, Tail(m)))
  {
    if t == 0x12 {
      var end := ManifestRead(vs, b, c);
    } else if t == 0x20 {
      var end := DecisionRead(vs, b, c);
    } else if t == 0x50 {
      ErrorRead(vs, b, c);
    } else {
      ValuesMake(t, vs);
      assert b[c.i..c.i + 0] == [];
    }
  }

  /** What decodes is an encoding: the body begins with the encoding of the message it
      decodes to, or is that of an ERROR without its detail.  So two bodies that decode
      to one message differ only in trailing bytes or in leaving out an empty detail. */
  lemma DecodedIsEncoded(t: nat, b: seq<byte>)
    requires Decode(t, b).Ok?
    ensures var m := Decode(t, b).msg; At(b, 0, Body(m)) || DetailLeftOut(m, b)
  {
    var (vs, c) := GetAll(Table(t), b, Cursor(0, true));
    RestBounded(t, vs, b, c);
    RestOkMeansHeadOk(t, vs, b, c);
    PutAllRead(Table(t), b, Cursor(0, true));
    RestRead(t, vs, b, c);
    var m := Decode(t, b).msg;
    assert b[0..c.i] == PutAll(Table(t), vs);
    if At(b, c.i, Tail(m)) {
      CoversTwo(b, Cursor(0, true), c, Cursor(c.i + |Tail(m)|, true), PutAll(Table(t), vs), Tail(m));
    } else {
      assert b[0..c.i] == b;
    }
  }

  lemma RestOkMeansHeadOk(t: nat, vs: seq<Value>, b: seq<byte>, c: Cursor)
    requires Known(t) && AllShaped(Table(t), vs) && Rest(t, vs, b, c).Ok?
    ensures c.ok
  {
    if t == 0x12 {
      GetListFits(EntryFormat(), b, c);
    } else if t == 0x20 {
      GetListFits(IndexFormat(), b, c);
      GetListFits(RejectedFormat(), b, GetUint(b, GetList(IndexFormat(), b, c).1, 2).1);
    }
  }

  // ---- frames --------------------------------------------------------------

  /** msg_type, body_len and the body. */
  function Marshal(m: Message): (r: seq<byte>)
    ensures |r| == HEADER_LEN + |Body(m)|
  {
    (BigEndian(Type(m), 1) + BigEndian(|Body(m)|, 4)) + Body(m)
  }

  function Unmarshal(p: seq<byte>): Result {
    if |p| < HEADER_LEN || |p| > MAX_PLAINTEXT then Err(E5010)
    else if FromBigEndian(p[1..5]) != |p| - HEADER_LEN then Err(E5010)
    else Decode(p[0] as nat, p[HEADER_LEN..])
  }

  lemma HeaderOf(m: Message)
    requires |Body(m)| < U32
    ensures var p := Marshal(m);
            p[0] as nat == Type(m) && FromBigEndian(p[1..5]) == |Body(m)| && p[HEADER_LEN..] == Body(m)
  {
    var p := Marshal(m);
    Pow256Values();
    assert p[1..5] == BigEndian(|Body(m)|, 4);
    BigEndianBack(|Body(m)|, 4);
    assert p[0] as nat == Type(m) by {
      assert BigEndian(Type(m), 1) == BigEndian(Type(m) / 256, 0) + [(Type(m) % 256) as byte];
    }
  }

  /** Frame decoding undoes encoding exactly for the messages within the declared
      field bounds and the frame ceiling: no other message survives the trip. */
  lemma RoundTrip(m: Message)
    ensures Unmarshal(Marshal(m)) == Ok(m) <==> Bounded(m) && |Marshal(m)| <= MAX_PLAINTEXT
  {
    if |Marshal(m)| <= MAX_PLAINTEXT {
      HeaderOf(m);
      if Bounded(m) {
        assert Body(m)[0..|Body(m)|] == Body(m);
        BodyBack(m, Body(m));
      } else if Unmarshal(Marshal(m)) == Ok(m) {
        DecodedBounded(Type(m), Body(m));
      }
    }
  }

  /** Whatever decodes is a message within the bounds, of the type the frame named. */
  lemma UnmarshalBounded(p: seq<byte>)
    requires Unmarshal(p).Ok?
    ensures |p| >= 1 && Type(Unmarshal(p).msg) == p[0] as nat && Bounded(Unmarshal(p).msg)
  {
    DecodedBounded(p[0] as nat, p[HEADER_LEN..]);
  }

  /** Bytes after a body are ignored: a longer frame of a later version decodes to
      the same message. */
  lemma TrailingBytesIgnored(m: Message, more: seq<byte>)
    requires Bounded(m)
    ensures Decode(Type(m), Body(m) + more) == Ok(m)
  {
    assert (Body(m) + more)[0..|Body(m)|] == Body(m);
    BodyBack(m, Body(m) + more);
  }

  /** An ERROR body that ends before its detail decodes with an empty one. */
  lemma ErrorWithoutDetail(m: Message)
    requires m.Error? && Bounded(m) && m.detail == []
    ensures Decode(0x50, PutAll(Table(0x50), Values(m))) == Ok(m)
  {
    var b := PutAll(Table(0x50), Values(m));
    assert b + [] == b && b[0..|b|] == b;
    AllBack(Table(0x50), Values(m), b, 0, |b|);
  }

  // ---- the code ------------------------------------------------------------

  lemma RowsAreShaped(es: seq<ManifestEntry>, ns: seq<nat>, rs: seq<Rejected>)
    ensures forall k :: 0 <= k < |es| ==> RowShaped(EntryFormat(), EntryRows(es)[k])
    ensures forall k :: 0 <= k < |ns| ==> RowShaped(IndexFormat(), IndexRows(ns)[k])
    ensures forall k :: 0 <= k < |rs| ==> RowShaped(RejectedFormat(), RejectedRows(rs)[k])
  {
  }

  method WriteTwoLists(w: Writer, f: Format, g: Format, xs: seq<Row>, n: nat, ys: seq<Row>)
    requires forall k :: 0 <= k < |xs| ==> RowShaped(f, xs[k])
    requires forall k :: 0 <= k < |ys| ==> RowShaped(g, ys[k])
    modifies w
    ensures w.b == old(w.b) + (PutList(f, xs) + (BigEndian(n, 2) + PutList(g, ys)))
  {
    WriteList(w, f, xs);
    w.Uint(n, 2);
    WriteList(w, g, ys);
    Associative4(old(w.b), PutList(f, xs), BigEndian(n, 2), PutList(g, ys));
  }

  method EncodeTail(w: Writer, m: Message)
    modifies w
    ensures w.b == old(w.b) + Tail(m)
  {
    match m
    case GroupManifest(_, _, list) =>
      RowsAreShaped(list, [], []);
      WriteList(w, EntryFormat(), EntryRows(list));
    case GroupDecision(_, needed, skipped, rejected) =>
      RowsAreShaped([], needed, rejected);
      WriteTwoLists(w, IndexFormat(), RejectedFormat(), IndexRows(needed), skipped, RejectedRows(rejected));
    case Error(_, _, _, detail) => w.LengthPrefixed(detail, 2);
    case _ =>
  }

  method EncodeBody(m: Message) returns (b: seq<byte>)
    ensures b == Body(m)
  {
    ValuesShaped(m);
    var w := NewWriter(Table(Type(m)), Values(m));
    EncodeTail(w, m);
    b := w.b;
  }

  method NewWriter(fs: seq<Field>, vs: seq<Value>) returns (w: Writer)
    requires AllShaped(fs, vs)
    ensures fresh(w) && w.b == PutAll(fs, vs)
  {
    w := new Writer();
    WriteAll(w, fs, vs);
    assert [] + PutAll(fs, vs) == PutAll(fs, vs);
  }

  method MarshalFrame(m: Message) returns (out: seq<byte>)
    ensures out == Marshal(m)
  {
    var body := EncodeBody(m);
    out := (BigEndian(Type(m), 1) + BigEndian(|body|, 4)) + body;
  }

  method DecodeDecision(r: Reader, vs: seq<Value>) returns (res: Result)
    requires r.Valid() && AllShaped(Table(0x20), vs)
    modifies r
    ensures res == DecisionFrom(vs, r.b, old(r.Position()))
  {
    ghost var c := r.Position();
    var needed := ReadList(r, IndexFormat());
    GetListFits(IndexFormat(), r.b, c);
    var skipped := r.Uint(2);
    ghost var c2 := r.Position();
    var rejected := ReadList(r, RejectedFormat());
    GetListFits(RejectedFormat(), r.b, c2);
    if r.failed {
      return Err(E5003);
    }
    res := Ok(GroupDecision(vs[0].n, IndicesOf(needed), skipped, RejectedOf(rejected)));
  }

  method DecodeManifest(r: Reader, vs: seq<Value>) returns (res: Result)
    requires r.Valid() && AllShaped(Table(0x12), vs)
    modifies r
    ensures res == ManifestFrom(vs, r.b, old(r.Position()))
  {
    ghost var c := r.Position();
    var rows := ReadList(r, EntryFormat());
    GetListFits(EntryFormat(), r.b, c);
    if r.failed {
      return Err(E5003);
    }
    res := Ok(GroupManifest(vs[0].n, vs[1].n, EntriesOf(rows)));
  }

  method DecodeError(r: Reader, vs: seq<Value>) returns (res: Result)
    requires r.Valid() && AllShaped(Table(0x50), vs)
    modifies r
    ensures res == ErrorFrom(vs, r.b, old(r.Position()))
  {
    var detail := [];
    var left := r.Remaining();
    if left > 0 {
      detail := r.LengthPrefixed(2, MAX_STR);
    }
    if r.failed {
      return Err(E5003);
    }
    res := Ok(Error(vs[0].n, vs[1].n, vs[2].b, detail));
  }

  method DecodeBody(t: nat, b: seq<byte>) returns (res: Result)
    ensures res == Decode(t, b)
  {
    if !Known(t) {
      return Err(E5011);
    }
    var r := new Reader(b);
    var vs := ReadAll(r, Table(t));
    if t == 0x12 {
      res := DecodeManifest(r, vs);
    } else if t == 0x20 {
      res := DecodeDecision(r, vs);
    } else if t == 0x50 {
      res := DecodeError(r, vs);
    } else {
      res := if r.failed then Err(E5003) else Ok(Make(t, vs));
    }
  }

  method UnmarshalFrame(p: seq<byte>) returns (res: Result)
    ensures res == Unmarshal(p)
  {
    if |p| < HEADER_LEN || |p| > MAX_PLAINTEXT {
      return Err(E5010);
    }
    var bodyLen := FromBigEndian(p[1..5]);
    if bodyLen != |p| - HEADER_LEN {
      return Err(E5010);
    }
    res := DecodeBody(p[0] as nat, p[HEADER_LEN..]);
  }
}

/** The counted lists inside GROUP_MANIFEST and GROUP_DECISION bodies: rows of fields,
    of which a manifest entry's row has optional fields that its type and flags
    announce (internal/wire/frame.go). */
module Rows {
  import opened Bytes
  import opened Codec
  import opened Fields
  import opened Lists

  const MAX_ROWS: nat := 1024

  /** The fields every row has, and those its own values announce. */
  datatype Format = Format(fixed: seq<Field>, options: seq<Value> -> seq<Field>)

  datatype Row = Row(fixed: seq<Value>, options: seq<Value>)

  predicate RowShaped(fmt: Format, row: Row) {
    AllShaped(fmt.fixed, row.fixed) && AllShaped(fmt.options(row.fixed), row.options)
  }

  predicate RowFits(fmt: Format, row: Row) {
    RowShaped(fmt, row) && AllFit(fmt.fixed, row.fixed) && AllFit(fmt.options(row.fixed), row.options)
  }

  function PutRow(fmt: Format, row: Row): seq<byte> {
    PutAll(fmt.fixed, row.fixed) + PutAll(fmt.options(row.fixed), row.options)
  }

  function GetRow(fmt: Format, b: seq<byte>, c: Cursor): (r: (Row, Cursor))
    ensures RowShaped(fmt, r.0)
    ensures c.i <= |b| ==> r.1.i <= |b|
    ensures r.1.ok ==> c.ok && RowFits(fmt, r.0)
  {
    var (fixed, c1) := GetAll(fmt.fixed, b, c);
    var (options, c2) := GetAll(fmt.options(fixed), b, c1);
    (Row(fixed, options), c2)
  }

  lemma RowBack(fmt: Format, row: Row, b: seq<byte>, i: nat, end: nat)
    requires RowFits(fmt, row) && At(b, i, PutRow(fmt, row)) && end == i + |PutRow(fmt, row)|
    ensures GetRow(fmt, b, Cursor(i, true)) == (row, Cursor(end, true))
  {
    var j := i + |PutAll(fmt.fixed, row.fixed)|;
    AtSplit(b, i, PutAll(fmt.fixed, row.fixed), PutAll(fmt.options(row.fixed), row.options));
    AllBack(fmt.fixed, row.fixed, b, i, j);
    AllBack(fmt.options(row.fixed), row.options, b, j, end);
  }

  predicate RowsFit(fmt: Format, rows: seq<Row>) { forall k :: 0 <= k < |rows| ==> RowFits(fmt, rows[k]) }

  function RowWriter(fmt: Format): Row -> seq<byte> { (row: Row) => PutRow(fmt, row) }

  function RowReader(fmt: Format, b: seq<byte>): Cursor -> (Row, Cursor) { (c: Cursor) => GetRow(fmt, b, c) }

  function PutList(fmt: Format, rows: seq<Row>): seq<byte> {
    BigEndian(|rows|, 2) + PutEach(RowWriter(fmt), rows)
  }

  /** A 16-bit count, refused above the declared maximum before any row is read. */
  function GetList(fmt: Format, b: seq<byte>, c: Cursor): (r: (seq<Row>, Cursor)) {
    var (n, c1) := GetUint(b, c, 2);
    if n > MAX_ROWS then ([], c1.(ok := false)) else GetEach(RowReader(fmt, b), c1, n)
  }

  lemma GetListFits(fmt: Format, b: seq<byte>, c: Cursor)
    ensures var (rows, end) := GetList(fmt, b, c);
            && (end.ok ==> c.ok && |rows| <= MAX_ROWS && RowsFit(fmt, rows))
            && (c.i <= |b| ==> end.i <= |b|)
  {
    var (n, c1) := GetUint(b, c, 2);
    EachHolds(RowReader(fmt, b), c1, n, |b|, row => RowFits(fmt, row));
  }

  lemma ListBack(fmt: Format, rows: seq<Row>, b: seq<byte>, i: nat, end: nat)
    requires RowsFit(fmt, rows) && |rows| <= MAX_ROWS
    requires At(b, i, PutList(fmt, rows)) && end == i + |PutList(fmt, rows)|
    ensures GetList(fmt, b, Cursor(i, true)) == (rows, Cursor(end, true))
  {
    AtSplit(b, i, BigEndian(|rows|, 2), PutEach(RowWriter(fmt), rows));
    Pow256Values();
    UintBack(b, i, |rows|, 2);
    forall k | 0 <= k < |rows|
      ensures ReadsBack(b, RowWriter(fmt), RowReader(fmt, b), rows[k])
    {
      forall j: nat | At(b, j, RowWriter(fmt)(rows[k]))
        ensures RowReader(fmt, b)(Cursor(j, true)) == (rows[k], Cursor(j + |RowWriter(fmt)(rows[k])|, true))
      {
        RowBack(fmt, rows[k], b, j, j + |PutRow(fmt, rows[k])|);
      }
    }
    EachBack(b, RowWriter(fmt), RowReader(fmt, b), rows, i + 2, end);
  }

  // ---- writing back what was read ------------------------------------------

  lemma RowRead(fmt: Format, b: seq<byte>, c: Cursor)
    requires GetRow(fmt, b, c).1.ok && c.i <= |b|
    ensures Covers(b, c, GetRow(fmt, b, c).1, PutRow(fmt, GetRow(fmt, b, c).0))
  {
    var (fixed, c1) := GetAll(fmt.fixed, b, c);
    var (options, c2) := GetAll(fmt.options(fixed), b, c1);
    PutAllRead(fmt.fixed, b, c);
    PutAllRead(fmt.options(fixed), b, c1);
    assert b[c.i..c2.i] == b[c.i..c1.i] + b[c1.i..c2.i];
  }

  lemma EachRowRead(fmt: Format, b: seq<byte>, c: Cursor, n: nat)
    requires c.i <= |b| && GetEach(RowReader(fmt, b), c, n).1.ok
    ensures var (rows, end) := GetEach(RowReader(fmt, b), c, n); Covers(b, c, end, PutEach(RowWriter(fmt), rows))
  {
    forall c: Cursor
      ensures ReadsCover(b, RowWriter(fmt), RowReader(fmt, b), c)
    {
      RowCovers(fmt, b, c);
    }
    EachRead(b, RowWriter(fmt), RowReader(fmt, b), c, n);
  }

  lemma RowCovers(fmt: Format, b: seq<byte>, c: Cursor)
    ensures ReadsCover(b, RowWriter(fmt), RowReader(fmt, b), c)
  {
    if GetRow(fmt, b, c).1.ok && c.i <= |b| {
      RowRead(fmt, b, c);
    }
  }

  lemma ListRead(fmt: Format, b: seq<byte>, c: Cursor)
    requires GetList(fmt, b, c).1.ok && c.i <= |b|
    ensures Covers(b, c, GetList(fmt, b, c).1, PutList(fmt, GetList(fmt, b, c).0))
  {
    var (n, c1) := GetUint(b, c, 2);
    var (rows, c2) := GetEach(RowReader(fmt, b), c1, n);
    EachStops(RowReader(fmt, b), c1, n);
    UintRead(b, c, 2);
    EachRowRead(fmt, b, c1, n);
    CoversTwo(b, c, c1, c2, BigEndian(n, 2), PutEach(RowWriter(fmt), rows));
  }

  // ---- the code ------------------------------------------------------------

  method WriteRow(w: Writer, fmt: Format, row: Row)
    requires RowShaped(fmt, row)
    modifies w
    ensures w.b == old(w.b) + PutRow(fmt, row)
  {
    WriteAll(w, fmt.fixed, row.fixed);
    WriteAll(w, fmt.options(row.fixed), row.options);
  }

  method WriteList(w: Writer, fmt: Format, rows: seq<Row>)
    requires forall k :: 0 <= k < |rows| ==> RowShaped(fmt, rows[k])
    modifies w
    ensures w.b == old(w.b) + PutList(fmt, rows)
  {
    w.Uint(|rows|, 2);
    WriteEach(w, fmt, rows);
    Associative(old(w.b), BigEndian(|rows|, 2), PutEach(RowWriter(fmt), rows));
  }

  method WriteEach(w: Writer, fmt: Format, rows: seq<Row>)
    requires forall k :: 0 <= k < |rows| ==> RowShaped(fmt, rows[k])
    modifies w
    ensures w.b == old(w.b) + PutEach(RowWriter(fmt), rows)
  {
    ghost var put := RowWriter(fmt);
    for k := 0 to |rows|
      invariant w.b == old(w.b) + PutEach(put, rows[..k])
    {
      assert rows[..k + 1] == rows[..k] + [rows[k]];
      PutEachAppend(put, rows[..k], rows[k]);
      WriteRow(w, fmt, rows[k]);
      Associative(old(w.b), PutEach(put, rows[..k]), put(rows[k]));
    }
    assert rows[..|rows|] == rows;
  }

  method ReadRow(r: Reader, fmt: Format) returns (row: Row)
    requires r.Valid()
    modifies r
    ensures r.Valid() && (row, r.Position()) == GetRow(fmt, r.b, old(r.Position()))
  {
    var fixed := ReadAll(r, fmt.fixed);
    var options := ReadAll(r, fmt.options(fixed));
    row := Row(fixed, options);
  }

  method ReadRows(r: Reader, fmt: Format, n: nat) returns (rows: seq<Row>)
    requires r.Valid()
    modifies r
    ensures r.Valid() && (rows, r.Position()) == GetEach(RowReader(fmt, r.b), old(r.Position()), n)
  {
    rows := [];
    ghost var get := RowReader(fmt, r.b);
    ghost var goal := GetEach(get, r.Position(), n);
    var k := 0;
    while k < n && !r.failed
      invariant k <= n && r.Valid()
      invariant ReadOn(get, r.Position(), n - k, rows, goal)
    {
      ghost var before := r.Position();
      var row := ReadRow(r, fmt);
      ReadOnStep(get, before, n - k, rows, goal, row, r.Position());
      rows := rows + [row];
      k := k + 1;
    }
    assert rows + [] == rows;
  }

  method ReadList(r: Reader, fmt: Format) returns (rows: seq<Row>)
    requires r.Valid()
    modifies r
    ensures r.Valid() && (rows, r.Position()) == GetList(fmt, r.b, old(r.Position()))
  {
    var n := r.Uint(2);
    if n > MAX_ROWS {
      r.Fail();
      return [];
    }
    rows := ReadRows(r, fmt, n);
  }
}

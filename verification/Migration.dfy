// The crash-resumable migration that splits legacy blobs into columns and then
// drops the blob column: at every crash point, after every restart and after
// the drop, every row reads as before.
module Migration {
  import opened Attempts
  import opened Records

  /** Overwrite a column only if the record populated it (StoredColumns.filled_columns). */
  function Fill(kept: Option<Json>, filled: bool, value: Option<Json>): Option<Json> {
    if filled then value else kept
  }

  /** The columns after one UPDATE with the filled columns of `rec`. */
  function Filled(c: Columns, rec: Record): Columns {
    var s := Split(rec);
    Columns(Fill(c.status, "status" in rec, s.status), Fill(c.value, "value" in rec, s.value),
            Fill(c.error, "error" in rec, s.error), Fill(c.errorDetail, "error_detail" in rec, s.errorDetail),
            Fill(c.sourceUrl, "source_url" in rec, s.sourceUrl),
            Fill(c.sourceLabel, "source_label" in rec, s.sourceLabel),
            Fill(c.provenance, s.provenance.Some?, s.provenance),
            if s.extra.Some? then s.extra else c.extra)
  }

  /** convert_row; None when the blob is not a readable record. */
  function Converted(row: Row): Option<Row> {
    match row.blob
    case Holds(rec) => Some(row.(columns := Filled(row.columns, rec)))
    case _ => None
  }

  /** A row the migration still selects. */
  predicate HoldsBlob(row: Row) {
    row.blob != Empty
  }

  /** The rows after the first `k` were converted, skipping rows without a blob, stopping at a damaged one. */
  function ConvertFirst(rows: seq<Row>, k: int): (r: seq<Row>)
    requires 0 <= k <= |rows|
    ensures |r| == |rows|
    decreases k
  {
    if k == 0 then rows
    else
      var before := ConvertFirst(rows, k - 1);
      var row := rows[k - 1];
      if HoldsBlob(row) && Converted(row).Some? then before[k - 1 := Converted(row).value] else before
  }

  /** How many rows the migration selects. */
  function Selected(rows: seq<Row>): int {
    if rows == [] then 0
    else Selected(rows[..|rows| - 1]) + if HoldsBlob(rows[|rows| - 1]) then 1 else 0
  }

  function DropBlob(rows: seq<Row>): seq<Row> {
    seq(|rows|, i requires 0 <= i < |rows| => rows[i].(blob := Empty))
  }

  const BOTH := Shape(true, true)
  const SPLIT := Shape(true, false)

  // ------------------------------------------------------------ what is kept

  /** A record as the nodes write it: a status, no optional null, provenance a tree or absent. */
  predicate WellFormedRecord(rec: Record) {
    && "status" in rec && rec["status"] != Null && NoNullOptionals(rec)
    && ("provenance" in rec ==> rec["provenance"].Object? || rec["provenance"] == Null)
  }

  /** A pre-split row: everything in the blob. */
  predicate IsLegacy(row: Row) {
    row.columns == NULLS && row.blob.Holds? && WellFormedRecord(row.blob.record)
  }

  /** A row the new code saved: `rec` in the columns, and its provenance-free mirror in the blob if there is one. */
  predicate IsSaved(row: Row, rec: Record) {
    && WellFormedRecord(rec) && row.columns == Split(rec)
    && (row.blob == Empty || row.blob == Holds(WithoutProvenance(rec)))
  }

  /** A legacy row after its conversion. */
  predicate IsConverted(row: Row) {
    row.blob.Holds? && WellFormedRecord(row.blob.record) && row.columns == Split(row.blob.record)
  }

  ghost predicate Expected(row: Row) {
    IsLegacy(row) || IsConverted(row) || exists rec :: IsSaved(row, rec)
  }

  /** A row whose blob does not decode to a record: the migration stops at it. */
  predicate Broken(row: Row) {
    row.blob == Unreadable || row.blob.NotRecord?
  }

  lemma FillsEverything(rec: Record)
    ensures Filled(NULLS, rec) == Split(rec)
    ensures Filled(Split(rec), rec) == Split(rec)
  {
  }

  /** The mirror blob never overwrites the only copy of the provenance tree. */
  lemma MirrorFillsNothingNew(rec: Record)
    ensures Filled(Split(rec), WithoutProvenance(rec)) == Split(rec)
  {
    var m := WithoutProvenance(rec);
    assert Extra(m) == Extra(rec);
  }

  /** What a row of an expected kind reads as. */
  lemma ExpectedReads(row: Row, rec: Record)
    requires ((IsLegacy(row) || IsConverted(row)) && row.blob.record == rec) || IsSaved(row, rec)
    ensures ReadRecord(BOTH, row) == Ok(WithoutProvenance(rec))
    ensures ReadProvenance(BOTH, row) == Ok(Get(rec, "provenance"))
  {
    SplitRoundTrip(rec);
  }

  /** Converting a row keeps its kind and both of its reads, before and after the blob is gone. */
  lemma ConversionKeepsReads(row: Row)
    requires Expected(row) && HoldsBlob(row)
    ensures Converted(row).Some?
    ensures var r := Converted(row).value;
      && Expected(r) && !IsLegacy(r)
      && ReadRecord(BOTH, r) == ReadRecord(BOTH, row)
      && ReadProvenance(BOTH, r) == ReadProvenance(BOTH, row)
      && Converted(r) == Some(r)
  {
    var r := Converted(row).value;
    if IsLegacy(row) || IsConverted(row) {
      var rec := row.blob.record;
      FillsEverything(rec);
      ExpectedReads(row, rec);
      ExpectedReads(r, rec);
    } else {
      var rec :| IsSaved(row, rec);
      MirrorFillsNothingNew(rec);
      assert r == row;
    }
  }

  /** Once a row is not legacy any more, dropping the blob column changes neither read. */
  lemma DropKeepsReads(row: Row)
    requires Expected(row) && !IsLegacy(row)
    ensures ReadRecord(SPLIT, row.(blob := Empty)) == ReadRecord(BOTH, row)
    ensures ReadProvenance(SPLIT, row.(blob := Empty)) == ReadProvenance(BOTH, row)
  {
    if IsConverted(row) {
      SplitRoundTrip(row.blob.record);
    } else {
      var rec :| IsSaved(row, rec);
      SplitRoundTrip(rec);
    }
  }

  // --------------------------------------------------------- every crash point

  ghost predicate AllExpected(rows: seq<Row>) {
    forall i | 0 <= i < |rows| :: Expected(rows[i])
  }

  /** Every row is one the nodes wrote, or its blob is broken. */
  ghost predicate AllKnown(rows: seq<Row>) {
    forall i | 0 <= i < |rows| :: Expected(rows[i]) || Broken(rows[i])
  }

  /** Row i reads in `b` as it read in `a`, both tables with the blob column. */
  predicate SameReads(a: seq<Row>, b: seq<Row>, i: int)
    requires 0 <= i < |a| && |a| == |b|
  {
    ReadRecord(BOTH, b[i]) == ReadRecord(BOTH, a[i]) && ReadProvenance(BOTH, b[i]) == ReadProvenance(BOTH, a[i])
  }

  lemma {:induction false} ConvertedAt(rows: seq<Row>, k: int, i: int)
    requires 0 <= k <= |rows| && 0 <= i < |rows|
    ensures ConvertFirst(rows, k)[i] ==
            if i < k && HoldsBlob(rows[i]) && Converted(rows[i]).Some? then Converted(rows[i]).value else rows[i]
    decreases k
  {
    if k > 0 {
      ConvertedAt(rows, k - 1, i);
    }
  }

  /** After any prefix of conversions every row reads as before, broken ones too; the converted ones are done. */
  lemma PrefixKeepsReads(rows: seq<Row>, k: int)
    requires AllKnown(rows) && 0 <= k <= |rows|
    ensures var r := ConvertFirst(rows, k);
      && AllKnown(r)
      && (forall i | 0 <= i < |rows| :: SameReads(rows, r, i) && r[i].blob == rows[i].blob)
      && (forall i | 0 <= i < |rows| && Expected(rows[i]) :: Expected(r[i]))
      && (forall i | 0 <= i < k :: !IsLegacy(r[i]))
      && (forall i | k <= i < |rows| :: r[i] == rows[i])
  {
    var r := ConvertFirst(rows, k);
    forall i | 0 <= i < |rows|
      ensures (Expected(r[i]) || Broken(r[i])) && SameReads(rows, r, i) && r[i].blob == rows[i].blob
      ensures Expected(rows[i]) ==> Expected(r[i])
      ensures if i < k then !IsLegacy(r[i]) else r[i] == rows[i]
    {
      ConvertedAt(rows, k, i);
      assert Expected(rows[i]) || Broken(rows[i]);
      if HoldsBlob(rows[i]) && Expected(rows[i]) {
        ConversionKeepsReads(rows[i]);
      }
    }
  }

  /**
   * Any number of interrupted runs: each list entry is how many rows a run
   * converted before it was cut off.
   */
  function Interrupted(rows: seq<Row>, cuts: seq<int>): seq<Row>
    requires forall i | 0 <= i < |cuts| :: 0 <= cuts[i] <= |rows|
    decreases |cuts|
  {
    if cuts == [] then rows else Interrupted(ConvertFirst(rows, cuts[0]), cuts[1..])
  }

  lemma {:induction false} InterruptedKeepsReads(rows: seq<Row>, cuts: seq<int>)
    requires AllKnown(rows) && forall i | 0 <= i < |cuts| :: 0 <= cuts[i] <= |rows|
    ensures var r := Interrupted(rows, cuts);
      && |r| == |rows| && AllKnown(r)
      && (forall i | 0 <= i < |rows| :: SameReads(rows, r, i) && r[i].blob == rows[i].blob)
      && (AllExpected(rows) ==> AllExpected(r))
    decreases |cuts|
  {
    if cuts != [] {
      var next := ConvertFirst(rows, cuts[0]);
      PrefixKeepsReads(rows, cuts[0]);
      InterruptedKeepsReads(next, cuts[1..]);
      forall i | 0 <= i < |rows| ensures SameReads(rows, Interrupted(next, cuts[1..]), i) {
        assert SameReads(rows, next, i) && SameReads(next, Interrupted(next, cuts[1..]), i);
      }
    }
  }

  /**
   * The whole migration: after any interrupted runs, a complete run and the
   * drop of the blob column, every row's record and provenance read as they
   * did at the start.
   */
  lemma MigrationKeepsReads(rows: seq<Row>, cuts: seq<int>, i: int)
    requires AllExpected(rows) && (forall i | 0 <= i < |cuts| :: 0 <= cuts[i] <= |rows|) && 0 <= i < |rows|
    ensures var before := Interrupted(rows, cuts);
      && |before| == |rows|
      && SameReads(rows, before, i)
      && var after := DropBlob(ConvertFirst(before, |before|));
        && ReadRecord(SPLIT, after[i]) == ReadRecord(BOTH, rows[i])
        && ReadProvenance(SPLIT, after[i]) == ReadProvenance(BOTH, rows[i])
  {
    InterruptedKeepsReads(rows, cuts);
    var before := Interrupted(rows, cuts);
    PrefixKeepsReads(before, |before|);
    var done := ConvertFirst(before, |before|);
    assert SameReads(rows, before, i) && SameReads(before, done, i);
    DropKeepsReads(done[i]);
  }

  /**
   * Resuming costs nothing but time: a run after an interrupted one ends in the
   * table an uninterrupted run ends in, whether it goes to the end or stops at
   * a broken row.
   */
  lemma ResumedRunIsTheSame(rows: seq<Row>, cut: int, end: int)
    requires AllKnown(rows) && 0 <= cut <= end <= |rows|
    ensures ConvertFirst(ConvertFirst(rows, cut), end) == ConvertFirst(rows, end)
  {
    var started := ConvertFirst(rows, cut);
    forall i | 0 <= i < |rows| ensures ConvertFirst(started, end)[i] == ConvertFirst(rows, end)[i] {
      assert Expected(rows[i]) || Broken(rows[i]);
      ConvertedAt(rows, cut, i);
      ConvertedAt(rows, end, i);
      ConvertedAt(started, end, i);
      if HoldsBlob(rows[i]) && Expected(rows[i]) {
        ConversionKeepsReads(rows[i]);
      }
    }
  }

  /** Adding the split columns to a pre-split database changes no read. */
  lemma EnsureColumnsKeepsReads(row: Row)
    requires row.columns == NULLS && row.blob != Empty
    ensures ReadRecord(BOTH, row) == ReadRecord(Shape(false, true), row)
    ensures ReadProvenance(BOTH, row) == ReadProvenance(Shape(false, true), row)
  {
  }

  /** For a legacy row of any record, the full migration preserves both reads exactly under this condition. */
  lemma MigrationPreservesExactly(rec: Record)
    ensures var row := Row(NULLS, Holds(rec));
      var after := Converted(row).value.(blob := Empty);
      && (ReadRecord(SPLIT, after) == ReadRecord(BOTH, row) <==> "status" in rec && NoNullOptionals(rec))
      && (ReadProvenance(SPLIT, after) == ReadProvenance(BOTH, row)
          <==> (Get(rec, "provenance").Some? ==> rec["provenance"].Object?))
  {
    FillsEverything(rec);
    SplitRoundTrip(rec);
  }

  // ------------------------------------------------------------- in place

  /** In the middle of a run: the first i rows are done, and what a crash falls back to is a shorter prefix. */
  ghost predicate Converting(start: seq<Row>, rows: seq<Row>, committed: seq<Row>, i: int, count: int) {
    && 0 <= i <= |rows| == |start|
    && rows == ConvertFirst(start, i) && count == Selected(start[..i])
    && (forall j | 0 <= j < i && HoldsBlob(start[j]) :: Converted(start[j]).Some?)
    && exists cut :: 0 <= cut <= i && committed == ConvertFirst(start, cut)
  }

  lemma ConvertsNext(start: seq<Row>, rows: seq<Row>, committed: seq<Row>, i: int, count: int)
    requires Converting(start, rows, committed, i, count) && i < |rows|
    ensures rows[i] == start[i]
    ensures !HoldsBlob(start[i]) ==> Converting(start, rows, committed, i + 1, count)
    ensures HoldsBlob(start[i]) && Converted(start[i]).Some? ==>
              var next := rows[i := Converted(start[i]).value];
              Converting(start, next, committed, i + 1, count + 1) && Converting(start, next, next, i + 1, count + 1)
  {
    UnconvertedTail(start, i);
    SelectedNext(start, i);
    assert ConvertFirst(start, i + 1) == if HoldsBlob(start[i]) && Converted(start[i]).Some?
                                         then rows[i := Converted(start[i]).value] else rows;
  }

  /** node_results in place; `committed` is what a crash falls back to. */
  class Table {
    var rows: seq<Row>
    var committed: seq<Row>
    var shape: Shape

    constructor (stored: seq<Row>, blobColumn: bool, splitColumns: bool)
      ensures rows == committed == stored && shape == Shape(splitColumns, blobColumn)
    {
      rows, committed, shape := stored, stored, Shape(splitColumns, blobColumn);
    }

    method EnsureSplitColumns()
      modifies this`shape
      ensures shape == Shape(true, old(shape).blob)
    {
      shape := Shape(true, shape.blob);
    }

    method ConvertRow(i: int) returns (ok: bool)
      requires 0 <= i < |rows|
      modifies this`rows
      ensures ok == Converted(old(rows)[i]).Some?
      ensures rows == if ok then old(rows)[i := Converted(old(rows)[i]).value] else old(rows)
    {
      match rows[i].blob
      case Holds(rec) =>
        rows := rows[i := rows[i].(columns := Filled(rows[i].columns, rec))];
        return true;
      case _ =>
        return false;
    }

    /**
     * Convert every pending row, committing every CHUNK rows; None at the first
     * damaged one. A crash at any moment leaves a prefix of the conversions.
     */
    method ConvertAll() returns (applied: Option<int>)
      requires rows == committed
      modifies this`rows, this`committed
      ensures applied.Some? ==>
                applied.value == Selected(old(rows)) && rows == ConvertFirst(old(rows), |old(rows)|)
      ensures applied.Some? ==>
                forall i | 0 <= i < |rows| && HoldsBlob(old(rows)[i]) :: Converted(old(rows)[i]).Some?
      ensures applied == None ==> exists k :: 0 <= k < |old(rows)| && rows == ConvertFirst(old(rows), k)
                                              && HoldsBlob(old(rows)[k]) && Converted(old(rows)[k]) == None
      ensures committed == rows
    {
      var count, i := 0, 0;
      ghost var start := rows;
      assert start == ConvertFirst(start, 0);
      while i < |rows|
        invariant Converting(start, rows, committed, i, count)
      {
        ConvertsNext(start, rows, committed, i, count);
        if HoldsBlob(rows[i]) {
          var ok := ConvertRow(i);
          if !ok {
            committed := rows;
            return None;
          }
          count := count + 1;
          if count % CHUNK == 0 {
            committed := rows;
          }
        }
        i := i + 1;
      }
      assert start[..|start|] == start;
      committed := rows;
      applied := Some(count);
    }

    /** Drop the blob column; SQLite may refuse. */
    method DropBlobColumn(refused: bool) returns (dropped: bool)
      modifies this
      ensures dropped == (old(shape).blob && !refused)
      ensures rows == if dropped then DropBlob(old(rows)) else old(rows)
      ensures shape == if dropped then Shape(old(shape).split, false) else old(shape)
      ensures dropped ==> committed == rows
      ensures !dropped ==> committed == old(committed)
    {
      if !shape.blob || refused {
        return false;
      }
      rows := DropBlob(rows);
      committed := rows;
      shape := shape.(blob := false);
      return true;
    }

    /**
     * The whole apply pass. It stops at a broken row and then keeps the blob
     * column; however it ends, every row reads as before.
     */
    method ApplyMigration(refused: bool) returns (ok: bool, dropped: bool)
      requires rows == committed && shape.blob && AllKnown(rows)
      requires !shape.split ==> forall i | 0 <= i < |rows| :: rows[i].columns == NULLS && rows[i].blob != Empty
      modifies this
      ensures ok <==> NoneBroken(old(rows))
      ensures dropped == (ok && !refused)
      ensures committed == rows && shape == if dropped then SPLIT else BOTH
      ensures ReadsAlike(old(shape), old(rows), shape, rows)
    {
      ColumnsAdded(shape, rows);
      EnsureSplitColumns();
      var applied := ConvertAll();
      RunEnds(old(shape), old(rows), applied, rows);
      ok := applied.Some?;
      if !ok {
        return false, false;
      }
      dropped := DropBlobColumn(refused);
    }
  }

  predicate NoneBroken(rows: seq<Row>) {
    forall i | 0 <= i < |rows| :: !Broken(rows[i])
  }

  /** Every row of `b` reads under its shape as the row of `a` does under its own. */
  predicate ReadsAlike(before: Shape, a: seq<Row>, after: Shape, b: seq<Row>) {
    |a| == |b| && forall i | 0 <= i < |a| ::
      && ReadRecord(after, b[i]) == ReadRecord(before, a[i])
      && ReadProvenance(after, b[i]) == ReadProvenance(before, a[i])
  }

  const CHUNK := 2_000

  lemma SelectedNext(rows: seq<Row>, i: int)
    requires 0 <= i < |rows|
    ensures Selected(rows[..i + 1]) == Selected(rows[..i]) + if HoldsBlob(rows[i]) then 1 else 0
  {
    assert rows[..i + 1][..i] == rows[..i];
  }

  lemma {:induction false} UnconvertedTail(rows: seq<Row>, k: int)
    requires 0 <= k <= |rows|
    ensures forall i | k <= i < |rows| :: ConvertFirst(rows, k)[i] == rows[i]
  {
    forall i | k <= i < |rows| ensures ConvertFirst(rows, k)[i] == rows[i] {
      ConvertedAt(rows, k, i);
    }
  }

  /** The rows that stop a run are the broken ones. */
  lemma StopsAtBroken(rows: seq<Row>)
    requires AllKnown(rows)
    ensures forall k | 0 <= k < |rows| :: HoldsBlob(rows[k]) && Converted(rows[k]) == None <==> Broken(rows[k])
  {
    forall k | 0 <= k < |rows| ensures HoldsBlob(rows[k]) && Converted(rows[k]) == None <==> Broken(rows[k]) {
      assert Expected(rows[k]) || Broken(rows[k]);
    }
  }

  lemma ColumnsAdded(shape: Shape, rows: seq<Row>)
    requires shape.blob
    requires !shape.split ==> forall i | 0 <= i < |rows| :: rows[i].columns == NULLS && rows[i].blob != Empty
    ensures ReadsAlike(shape, rows, BOTH, rows)
  {
    if !shape.split {
      forall i | 0 <= i < |rows|
        ensures ReadRecord(BOTH, rows[i]) == ReadRecord(shape, rows[i])
        ensures ReadProvenance(BOTH, rows[i]) == ReadProvenance(shape, rows[i])
      {
        EnsureColumnsKeepsReads(rows[i]);
      }
    }
  }

  /** Where a run of conversions ended, and that the drop after a complete one changes no read. */
  lemma RunEnds(shape: Shape, start: seq<Row>, applied: Option<int>, rows: seq<Row>)
    requires AllKnown(start) && ReadsAlike(shape, start, BOTH, start)
    requires applied.Some? ==> rows == ConvertFirst(start, |start|)
    requires applied.Some? ==> forall i | 0 <= i < |start| && HoldsBlob(start[i]) :: Converted(start[i]).Some?
    requires applied == None ==> exists k :: 0 <= k < |start| && rows == ConvertFirst(start, k)
                                              && HoldsBlob(start[k]) && Converted(start[k]) == None
    ensures applied.Some? <==> NoneBroken(start)
    ensures ReadsAlike(shape, start, BOTH, rows)
    ensures applied.Some? ==> ReadsAlike(shape, start, SPLIT, DropBlob(rows))
  {
    StopsAtBroken(start);
    if applied.Some? {
      PrefixReads(shape, start, |start|);
      AllDropped(start, rows);
    } else {
      var k :| 0 <= k < |start| && rows == ConvertFirst(start, k) && HoldsBlob(start[k]) && Converted(start[k]) == None;
      PrefixReads(shape, start, k);
    }
  }

  lemma PrefixReads(shape: Shape, start: seq<Row>, k: int)
    requires AllKnown(start) && ReadsAlike(shape, start, BOTH, start) && 0 <= k <= |start|
    ensures ReadsAlike(shape, start, BOTH, ConvertFirst(start, k))
  {
    PrefixKeepsReads(start, k);
    forall i | 0 <= i < |start|
      ensures ReadRecord(BOTH, ConvertFirst(start, k)[i]) == ReadRecord(shape, start[i])
      ensures ReadProvenance(BOTH, ConvertFirst(start, k)[i]) == ReadProvenance(shape, start[i])
    {
      assert SameReads(start, ConvertFirst(start, k), i);
    }
  }

  /** After a complete run the drop changes no read. */
  lemma AllDropped(rows: seq<Row>, converted: seq<Row>)
    requires AllKnown(rows) && converted == ConvertFirst(rows, |rows|)
    requires forall i | 0 <= i < |rows| :: !Broken(rows[i])
    ensures forall i | 0 <= i < |rows| ::
              && ReadRecord(SPLIT, DropBlob(converted)[i]) == ReadRecord(BOTH, rows[i])
              && ReadProvenance(SPLIT, DropBlob(converted)[i]) == ReadProvenance(BOTH, rows[i])
  {
    PrefixKeepsReads(rows, |rows|);
    forall i | 0 <= i < |rows|
      ensures ReadRecord(SPLIT, DropBlob(converted)[i]) == ReadRecord(BOTH, rows[i])
      ensures ReadProvenance(SPLIT, DropBlob(converted)[i]) == ReadProvenance(BOTH, rows[i])
    {
      assert SameReads(rows, converted, i);
      DropKeepsReads(converted[i]);
    }
  }
}

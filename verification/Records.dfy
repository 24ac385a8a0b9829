// How a node's record is split into storage columns and read back, on fresh
// databases and on databases that still carry the legacy blob column.
module Records {
  import opened Attempts

  /** A JSON value; encodings (JSON text, zlib) are injective and left out. */
  datatype Json =
    | Null
    | Text(text: string)
    | Number(n: int)
    | List(items: seq<Json>)
    | Object(members: map<string, Json>)

  type Record = map<string, Json>

  const PLAIN: set<string> := {"status", "error", "source_url", "source_label"}
  const MAPPED: set<string> := PLAIN + {"value", "error_detail", "provenance"}

  /** One row's columns; None is SQL NULL. */
  datatype Columns = Columns(
    status: Option<Json>, value: Option<Json>, error: Option<Json>, errorDetail: Option<Json>,
    sourceUrl: Option<Json>, sourceLabel: Option<Json>, provenance: Option<Json>, extra: Option<Record>)

  const NULLS := Columns(None, None, None, None, None, None, None, None)

  /** The legacy result_json column of one row: empty, or what decoding it gives. */
  datatype Blob = Empty | Unreadable | NotRecord(json: Json) | Holds(record: Record)

  datatype Row = Row(columns: Columns, blob: Blob)

  /** Which columns node_results has. */
  datatype Shape = Shape(split: bool, blob: bool)

  /** record.get(key), where a JSON null and an absent key are both None. */
  function Get(rec: Record, key: string): Option<Json> {
    if key in rec && rec[key] != Null then Some(rec[key]) else None
  }

  function Extra(rec: Record): Record {
    map k | k in rec && k !in MAPPED :: rec[k]
  }

  function WithoutProvenance(rec: Record): Record {
    rec - {"provenance"}
  }

  /** record_columns: the split columns. */
  function Split(rec: Record): Columns {
    Columns(Get(rec, "status"),
            if "value" in rec then Some(rec["value"]) else None,
            Get(rec, "error"), Get(rec, "error_detail"), Get(rec, "source_url"), Get(rec, "source_label"),
            Get(rec, "provenance"),
            if Extra(rec) == map[] then None else Some(Extra(rec)))
  }

  /** The row a save writes (save_node_result): the mirror blob only while the column exists. */
  function Saved(shape: Shape, rec: Record): Row {
    Row(if shape.split then Split(rec) else NULLS, if shape.blob then Holds(WithoutProvenance(rec)) else Empty)
  }

  datatype Read<T> = Ok(value: T) | Damaged

  function Put(rec: Record, key: string, value: Option<Json>): Record {
    if value.Some? then rec[key := value.value] else rec
  }

  /** The record of a row whose status column answers (the second half of read_node_record). */
  function Joined(c: Columns): Record {
    var rec := map["status" := if c.status.Some? then c.status.value else Null];
    var rec := Put(rec, "value", c.value);
    var rec := Put(rec, "error", c.error);
    var rec := Put(rec, "error_detail", c.errorDetail);
    var rec := Put(rec, "source_url", c.sourceUrl);
    var rec := Put(rec, "source_label", c.sourceLabel);
    if c.extra.Some? then rec + c.extra.value else rec
  }

  /** A row without a status answers from its blob, if it has one. */
  predicate ReadsBlob(shape: Shape, row: Row) {
    !shape.split || (row.columns.status == None && shape.blob && row.blob != Empty)
  }

  /** read_node_record. */
  function ReadRecord(shape: Shape, row: Row): Read<Record> {
    if ReadsBlob(shape, row) then
      match row.blob
      case Holds(rec) => Ok(WithoutProvenance(rec))
      case _ => Damaged
    else Ok(Joined(row.columns))
  }

  /** latest_node_provenance: the column first, then a dictionary kept inside the blob. */
  function ReadProvenance(shape: Shape, row: Row): Read<Option<Json>> {
    if shape.split && row.columns.provenance.Some? then Ok(row.columns.provenance)
    else if !shape.blob || row.blob == Empty then Ok(None)
    else
      match row.blob
      case Holds(rec) =>
        Ok(if "provenance" in rec && rec["provenance"].Object? then Some(rec["provenance"]) else None)
      case _ => Damaged
  }

  // ------------------------------------------------------------- round trip

  /** No optional key holds a JSON null. */
  predicate NoNullOptionals(rec: Record) {
    forall k | k in {"error", "error_detail", "source_url", "source_label"} :: k in rec ==> rec[k] != Null
  }

  /** Reading back the split columns key by key. */
  lemma JoinedAt(rec: Record, k: string)
    ensures var back := Joined(Split(rec));
      k in back <==> (k == "status" || (k == "value" && k in rec)
                      || (k in {"error", "error_detail", "source_url", "source_label"} && Get(rec, k).Some?)
                      || k in Extra(rec))
    ensures k in Joined(Split(rec)) ==> Joined(Split(rec))[k] == (if k in rec then rec[k] else Null)
  {
    var extra := Extra(rec);
    assert k in extra ==> k in rec && k !in MAPPED;
    assert Split(rec).extra == None ==> extra == map[];
  }

  /** The split columns give the record back exactly when it has a status and no optional null. */
  lemma SplitRoundTrip(rec: Record)
    ensures Joined(Split(rec)) == WithoutProvenance(rec) <==> "status" in rec && NoNullOptionals(rec)
  {
    var back, want := Joined(Split(rec)), WithoutProvenance(rec);
    if "status" in rec && NoNullOptionals(rec) {
      forall k ensures k in back <==> k in want {
        JoinedAt(rec, k);
      }
      forall k | k in back ensures back[k] == want[k] {
        JoinedAt(rec, k);
      }
      assert back.Keys == want.Keys;
      assert back == want;
    } else if "status" !in rec {
      JoinedAt(rec, "status");
      assert "status" in back && "status" !in want;
    } else {
      var k :| k in {"error", "error_detail", "source_url", "source_label"} && k in rec && rec[k] == Null;
      JoinedAt(rec, k);
      assert k in want && k !in back;
    }
  }

  /** On a fresh database the record reads back exactly when it has a status and no optional null. */
  lemma FreshRoundTrip(rec: Record)
    ensures var shape := Shape(true, false);
      && (ReadRecord(shape, Saved(shape, rec)) == Ok(WithoutProvenance(rec))
          <==> "status" in rec && NoNullOptionals(rec))
      && ReadProvenance(shape, Saved(shape, rec)) == Ok(Get(rec, "provenance"))
  {
    SplitRoundTrip(rec);
  }

  /** While the blob column exists, a record without a status reads back from its mirror as well. */
  lemma MirroredRoundTrip(rec: Record)
    ensures var shape := Shape(true, true);
      && (ReadRecord(shape, Saved(shape, rec)) == Ok(WithoutProvenance(rec))
          <==> Get(rec, "status") == None || NoNullOptionals(rec))
      && ReadProvenance(shape, Saved(shape, rec)) == Ok(Get(rec, "provenance"))
  {
    assert WithoutProvenance(WithoutProvenance(rec)) == WithoutProvenance(rec);
    SplitRoundTrip(rec);
  }

  /** Each column holds the value of its own key, a JSON null counting as absent except as the node's value. */
  lemma ColumnsHoldTheirKeys(rec: Record)
    requires forall k | k in {"status", "error", "error_detail", "source_url", "source_label", "provenance"} ::
               k in rec && rec[k] != Null
    ensures var c := Split(rec);
      && c.status == Some(rec["status"]) && c.error == Some(rec["error"])
      && c.errorDetail == Some(rec["error_detail"]) && c.sourceUrl == Some(rec["source_url"])
      && c.sourceLabel == Some(rec["source_label"]) && c.provenance == Some(rec["provenance"])
      && (c.value.Some? <==> "value" in rec) && ("value" in rec ==> c.value == Some(rec["value"]))
      && (c.extra.Some? ==> forall k | k in c.extra.value :: k in rec && c.extra.value[k] == rec[k])
  {
  }

  /** While the blob column exists it mirrors the saved record without its provenance, which only the column keeps. */
  lemma MirrorHasNoProvenance(rec: Record)
    ensures var row := Saved(Shape(true, true), rec);
      && row.blob.Holds? && "provenance" !in row.blob.record
      && (forall k | k != "provenance" :: k in row.blob.record <==> k in rec)
      && (forall k | k in row.blob.record :: row.blob.record[k] == rec[k])
  {
  }

  /** The provenance column answers whatever the blob holds. */
  lemma ProvenanceColumnWins(shape: Shape, row: Row)
    requires shape.split && row.columns.provenance.Some?
    ensures ReadProvenance(shape, row) == Ok(row.columns.provenance)
  {
  }
}

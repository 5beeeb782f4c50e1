/** The recording queries of src/lib/db-queries.ts over the `recordings` table of
    src/lib/db.ts. The table is a map from id to row; `datetime('now')` is the
    parameter `now`. */
module DbQueries {
  import opened Wrappers
  import opened Types
  import opened Text

  /** A bound SQL parameter. */
  datatype SqlValue = SqlText(text: string) | SqlInt(n: int) | SqlReal(x: real) | SqlNull

  /** `rowToRecording`: the columns under their client names, `has_webcam` read as a flag. */
  function RowToRecording(row: RecordingRow): (r: Recording)
    ensures r.id == row.id && r.title == row.title && r.blobUrl == row.blob_url
    ensures r.fileSize == row.file_size && r.duration == row.duration && r.mimeType == row.mime_type
    ensures r.width == row.width && r.height == row.height && r.thumbnail == row.thumbnail
    ensures r.viewCount == row.view_count && r.status == row.status
    ensures r.createdAt == row.created_at && r.updatedAt == row.updated_at
    ensures r.hasWebcam <==> row.has_webcam == 1
  {
    Recording(row.id, row.title, row.blob_url, row.file_size, row.duration, row.mime_type,
              row.width, row.height, row.has_webcam == 1, row.thumbnail, row.view_count,
              row.status, row.created_at, row.updated_at)
  }

  /** The row a recording is stored as, `has_webcam` as 1 or 0. */
  function RecordingToRow(r: Recording): (row: RecordingRow)
    ensures row.has_webcam == if r.hasWebcam then 1 else 0
  {
    RecordingRow(r.id, r.title, r.blobUrl, r.fileSize, r.duration, r.mimeType,
                 r.width, r.height, if r.hasWebcam then 1 else 0, r.thumbnail, r.viewCount,
                 r.status, r.createdAt, r.updatedAt)
  }

  /** Reading back a stored recording gives the recording. */
  lemma RecordingRoundTrip(r: Recording)
    ensures RowToRecording(RecordingToRow(r)) == r
  {
  }

  /** A row whose flag is 0 or 1 survives the trip through the client record. */
  lemma RowRoundTrip(row: RecordingRow)
    requires row.has_webcam == 0 || row.has_webcam == 1
    ensures RecordingToRow(RowToRecording(row)) == row
  {
  }

  /** Any other flag value reads as "no webcam", so the trip loses it. */
  lemma OtherFlagReadsFalse(row: RecordingRow)
    requires row.has_webcam == 2
    ensures !RowToRecording(row).hasWebcam && RecordingToRow(RowToRecording(row)) != row
  {
  }

  /** `getRecordingById`. */
  function GetRecordingById(rows: map<string, RecordingRow>, id: string): (r: Option<Recording>)
    ensures r.Some? <==> id in rows
    ensures r.Some? ==> r.value == RowToRecording(rows[id])
  {
    if id in rows then Some(RowToRecording(rows[id])) else None
  }

  /** The fields `createRecording` accepts; `None` is a field left out. */
  datatype CreateData = CreateData(
    title: Option<string>, duration: Option<real>, hasWebcam: Option<bool>,
    width: Option<int>, height: Option<int>, mimeType: Option<string>)

  const DefaultTitle: string := "Untitled Recording"
  const DefaultMimeType: string := "video/webm"

  /** `x || null` on a number: an absent or zero size is stored as NULL. */
  function OrNull(x: Option<int>): (v: SqlValue)
    ensures x.Some? && x.value != 0 ==> v == SqlInt(x.value)
    ensures x.None? || x.value == 0 ==> v == SqlNull
  {
    if x.Some? && x.value != 0 then SqlInt(x.value) else SqlNull
  }

  /** The seven arguments of the INSERT, in column order
      id, title, duration, has_webcam, width, height, mime_type. */
  function InsertArgs(id: string, data: CreateData): (args: seq<SqlValue>)
    ensures |args| == 7 && args[0] == SqlText(id)
    ensures args[1] == SqlText(OrDefault(data.title, DefaultTitle))
    ensures args[2] == SqlReal(data.duration.GetOr(0.0))
    ensures args[3] == SqlInt(if data.hasWebcam == Some(true) then 1 else 0)
    ensures args[4] == OrNull(data.width) && args[5] == OrNull(data.height)
    ensures args[6] == SqlText(OrDefault(data.mimeType, DefaultMimeType))
  {
    [SqlText(id), SqlText(OrDefault(data.title, DefaultTitle)), SqlReal(data.duration.GetOr(0.0)),
     SqlInt(if data.hasWebcam == Some(true) then 1 else 0), OrNull(data.width), OrNull(data.height),
     SqlText(OrDefault(data.mimeType, DefaultMimeType))]
  }

  function AsOptionInt(v: SqlValue): Option<int> {
    if v.SqlInt? then Some(v.n) else None
  }

  /** The row the INSERT creates: the arguments, and the table's defaults for the
      other columns (no file yet, no views, still processing). */
  function InsertedRow(args: seq<SqlValue>, now: string): RecordingRow
    requires |args| == 7 && args[0].SqlText? && args[1].SqlText? && args[2].SqlReal?
    requires args[3].SqlInt? && args[6].SqlText?
  {
    RecordingRow(args[0].text, args[1].text, "", 0, args[2].x, args[6].text,
                 AsOptionInt(args[4]), AsOptionInt(args[5]), args[3].n, None, 0,
                 "processing", now, now)
  }

  /** `createRecording` on the table: inserts the row and reads it back. The id is
      the table's primary key, so an INSERT of an id that already has a row throws
      and the table stays as it was: the result is `None`. */
  function CreateRecording(rows: map<string, RecordingRow>, id: string, data: CreateData, now: string):
    (result: Option<(map<string, RecordingRow>, Recording)>)
  {
    if id in rows then None
    else
      var row := InsertedRow(InsertArgs(id, data), now);
      Some((rows[id := row], RowToRecording(row)))
  }

  /** The insert fails exactly on an id already in the table; otherwise it adds one
      row and leaves every other row alone. */
  lemma CreateRecordingFresh(rows: map<string, RecordingRow>, id: string, data: CreateData, now: string)
    ensures CreateRecording(rows, id, data, now).None? <==> id in rows
    ensures CreateRecording(rows, id, data, now).Some? ==>
              var rows' := CreateRecording(rows, id, data, now).value.0;
              rows'.Keys == rows.Keys + {id} && |rows'.Keys| == |rows.Keys| + 1 &&
              (forall k :: k in rows ==> rows'[k] == rows[k])
  {
  }

  /** What a new recording looks like: never an empty title or type, the webcam
      flag as given, no size of 0, and the table's starting values. */
  lemma CreatedRecording(rows: map<string, RecordingRow>, id: string, data: CreateData, now: string)
    requires id !in rows
    ensures CreateRecording(rows, id, data, now).Some?
    ensures var (rows', r) := CreateRecording(rows, id, data, now).value;
            id in rows' && GetRecordingById(rows', id) == Some(r) &&
            r.id == id && r.title != "" && r.mimeType != "" &&
            (data.title.Some? && data.title.value != "" ==> r.title == data.title.value) &&
            (data.title.None? || data.title.value == "" ==> r.title == DefaultTitle) &&
            (r.hasWebcam <==> data.hasWebcam == Some(true)) &&
            r.width != Some(0) && r.height != Some(0) &&
            r.blobUrl == "" && r.fileSize == 0 && r.viewCount == 0 && r.status == "processing" &&
            r.thumbnail.None? && r.createdAt == now && r.updatedAt == now
  {
  }

  /** The fields `updateRecording` accepts; `None` is `undefined`. */
  datatype UpdateData = UpdateData(
    title: Option<string>, fileSize: Option<int>, duration: Option<real>,
    status: Option<string>, blobUrl: Option<string>, thumbnail: Option<string>)

  /** What `updateRecording` sends: nothing (it only reads the record back), or an
      UPDATE with its SET clauses and bound values. */
  datatype UpdatePlan = ReadOnly | Execute(sets: seq<string>, values: seq<SqlValue>)

  const TouchClause: string := "updated_at = datetime('now')"

  /** The SET clause of each column that takes a parameter. */
  const TitleClause: string := "title = ?"
  const FileSizeClause: string := "file_size = ?"
  const DurationClause: string := "duration = ?"
  const StatusClause: string := "status = ?"
  const BlobUrlClause: string := "blob_url = ?"
  const ThumbnailClause: string := "thumbnail = ?"

  /** A field's SET clause and value when it is given. */
  function Field(clause: string, v: Option<SqlValue>): (fs: seq<(string, SqlValue)>)
    ensures v.None? ==> fs == []
    ensures v.Some? ==> fs == [(clause, v.value)]
  {
    if v.Some? then [(clause, v.value)] else []
  }

  function TextValue(o: Option<string>): Option<SqlValue> {
    if o.Some? then Some(SqlText(o.value)) else None
  }

  function IntValue(o: Option<int>): Option<SqlValue> {
    if o.Some? then Some(SqlInt(o.value)) else None
  }

  function RealValue(o: Option<real>): Option<SqlValue> {
    if o.Some? then Some(SqlReal(o.value)) else None
  }

  /** The given fields as SET clauses with their values, in the fixed column order. */
  function Present(data: UpdateData): (fs: seq<(string, SqlValue)>)
    ensures |fs| <= 6
  {
    Field(TitleClause, TextValue(data.title)) + Field(FileSizeClause, IntValue(data.fileSize)) +
    Field(DurationClause, RealValue(data.duration)) + Field(StatusClause, TextValue(data.status)) +
    Field(BlobUrlClause, TextValue(data.blobUrl)) + Field(ThumbnailClause, TextValue(data.thumbnail))
  }

  /** Only an update with no field given skips the UPDATE. */
  lemma NothingGiven(data: UpdateData)
    ensures Present(data) == [] <==>
              data.title.None? && data.fileSize.None? && data.duration.None? &&
              data.status.None? && data.blobUrl.None? && data.thumbnail.None?
  {
  }

  function Clauses(fs: seq<(string, SqlValue)>): (cs: seq<string>)
    ensures |cs| == |fs|
  {
    seq(|fs|, i requires 0 <= i < |fs| => fs[i].0)
  }

  function Values(fs: seq<(string, SqlValue)>): (vs: seq<SqlValue>)
    ensures |vs| == |fs|
  {
    seq(|fs|, i requires 0 <= i < |fs| => fs[i].1)
  }

  /** What `updateRecording` sends for `data`: nothing when no field is given,
      otherwise the given fields' clauses, the timestamp clause last, and their
      values followed by the id for `WHERE id = ?`. */
  function PlanFor(id: string, data: UpdateData): UpdatePlan
  {
    var fs := Present(data);
    if fs == [] then ReadOnly else Execute(Clauses(fs) + [TouchClause], Values(fs) + [SqlText(id)])
  }

  lemma {:induction false} ClausesAppend(a: seq<(string, SqlValue)>, b: seq<(string, SqlValue)>)
    ensures Clauses(a + b) == Clauses(a) + Clauses(b)
    ensures Values(a + b) == Values(a) + Values(b)
  {
  }

  /** One `if (data.x !== undefined) { sets.push(clause); values.push(x) }` step. */
  method PushIfGiven(sets: seq<string>, values: seq<SqlValue>, clause: string, v: Option<SqlValue>)
    returns (sets': seq<string>, values': seq<SqlValue>)
    ensures sets' == sets + Clauses(Field(clause, v))
    ensures values' == values + Values(Field(clause, v))
  {
    sets', values' := sets, values;
    if v.Some? {
      sets' := sets' + [clause];
      values' := values' + [v.value];
    }
  }

  /** `updateRecording`'s builder, pushing one clause and one value per given field. */
  method BuildUpdate(id: string, data: UpdateData) returns (plan: UpdatePlan)
    ensures plan == PlanFor(id, data)
  {
    var sets: seq<string> := [];
    var values: seq<SqlValue> := [];
    ghost var fs := Field(TitleClause, TextValue(data.title));
    sets, values := PushIfGiven(sets, values, TitleClause, TextValue(data.title));
    assert sets == Clauses(fs) && values == Values(fs);
    ghost var g := Field(FileSizeClause, IntValue(data.fileSize));
    sets, values := PushIfGiven(sets, values, FileSizeClause, IntValue(data.fileSize));
    ClausesAppend(fs, g);
    fs := fs + g;
    g := Field(DurationClause, RealValue(data.duration));
    sets, values := PushIfGiven(sets, values, DurationClause, RealValue(data.duration));
    ClausesAppend(fs, g);
    fs := fs + g;
    g := Field(StatusClause, TextValue(data.status));
    sets, values := PushIfGiven(sets, values, StatusClause, TextValue(data.status));
    ClausesAppend(fs, g);
    fs := fs + g;
    g := Field(BlobUrlClause, TextValue(data.blobUrl));
    sets, values := PushIfGiven(sets, values, BlobUrlClause, TextValue(data.blobUrl));
    ClausesAppend(fs, g);
    fs := fs + g;
    g := Field(ThumbnailClause, TextValue(data.thumbnail));
    sets, values := PushIfGiven(sets, values, ThumbnailClause, TextValue(data.thumbnail));
    ClausesAppend(fs, g);
    fs := fs + g;
    assert fs == Present(data);
    if |sets| == 0 {
      return ReadOnly;
    }
    sets := sets + [TouchClause];
    values := values + [SqlText(id)];
    plan := Execute(sets, values);
  }

  /** Whether a clause ends in a `?` placeholder. */
  predicate BindsParameter(clause: string) {
    |clause| > 0 && clause[|clause| - 1] == '?'
  }

  /** Each column clause binds one value at its end; the timestamp clause binds none. */
  lemma ClausesBind()
    ensures BindsParameter(TitleClause) && BindsParameter(FileSizeClause)
    ensures BindsParameter(DurationClause) && BindsParameter(StatusClause)
    ensures BindsParameter(BlobUrlClause) && BindsParameter(ThumbnailClause)
    ensures '?' !in TouchClause
  {
  }

  /** The values line up with the placeholders: every SET clause but the last binds
      the value at its own position, the timestamp clause comes last and binds
      nothing, and the one value left over is the id for `WHERE id = ?`. */
  lemma UpdateBindsEveryValue(id: string, data: UpdateData)
    ensures PlanFor(id, data).Execute? ==>
              var p := PlanFor(id, data);
              |p.sets| == |p.values| > 0 &&
              (forall i :: 0 <= i < |p.sets| - 1 ==> BindsParameter(p.sets[i])) &&
              p.sets[|p.sets| - 1] == TouchClause && '?' !in TouchClause &&
              p.values[|p.values| - 1] == SqlText(id)
  {
    ClausesBind();
    var fs := Present(data);
    if fs != [] {
      var p := PlanFor(id, data);
      forall i | 0 <= i < |p.sets| - 1
        ensures BindsParameter(p.sets[i])
      {
        assert p.sets[i] == fs[i].0;
        assert fs[i].0 in {TitleClause, FileSizeClause, DurationClause, StatusClause, BlobUrlClause, ThumbnailClause};
      }
    }
  }

  /** A field given as the empty string is still written. */
  lemma EmptyStringIsGiven(id: string, data: UpdateData)
    requires data.title == Some("")
    ensures PlanFor(id, data).Execute?
    ensures PlanFor(id, data).sets[0] == TitleClause && PlanFor(id, data).values[0] == SqlText("")
  {
  }

  /** One SET clause applied to a row. */
  function Assign(row: RecordingRow, clause: string, v: SqlValue): RecordingRow
  {
    if clause == TitleClause && v.SqlText? then row.(title := v.text)
    else if clause == FileSizeClause && v.SqlInt? then row.(file_size := v.n)
    else if clause == DurationClause && v.SqlReal? then row.(duration := v.x)
    else if clause == StatusClause && v.SqlText? then row.(status := v.text)
    else if clause == BlobUrlClause && v.SqlText? then row.(blob_url := v.text)
    else if clause == ThumbnailClause && v.SqlText? then row.(thumbnail := Some(v.text))
    else row
  }

  /** The column clauses applied in order. */
  function AssignAll(row: RecordingRow, fs: seq<(string, SqlValue)>): RecordingRow
    decreases |fs|
  {
    if fs == [] then row else AssignAll(Assign(row, fs[0].0, fs[0].1), fs[1..])
  }

  /** The row after the update as a reader would state it: every given field
      replaced, the others kept, and the touch time when anything was given. */
  function UpdatedRow(row: RecordingRow, data: UpdateData, now: string): RecordingRow
  {
    var r := row.(title := data.title.GetOr(row.title),
                  file_size := data.fileSize.GetOr(row.file_size),
                  duration := data.duration.GetOr(row.duration),
                  status := data.status.GetOr(row.status),
                  blob_url := data.blobUrl.GetOr(row.blob_url),
                  thumbnail := if data.thumbnail.Some? then data.thumbnail else row.thumbnail);
    if Present(data) == [] then row else r.(updated_at := now)
  }

  lemma {:induction false} AssignAllAppend(row: RecordingRow, a: seq<(string, SqlValue)>, b: seq<(string, SqlValue)>)
    ensures AssignAll(row, a + b) == AssignAll(AssignAll(row, a), b)
    decreases |a|
  {
    if a == [] {
      assert a + b == b;
    } else {
      assert (a + b)[0] == a[0];
      assert (a + b)[1..] == a[1..] + b;
      AssignAllAppend(Assign(row, a[0].0, a[0].1), a[1..], b);
    }
  }

  lemma AssignOne(row: RecordingRow, c: string, v: Option<SqlValue>)
    ensures AssignAll(row, Field(c, v)) == if v.Some? then Assign(row, c, v.value) else row
  {
    if v.Some? {
      assert Field(c, v)[1..] == [];
    }
  }

  /** The title, file size and duration clauses, applied in order. */
  lemma AssignFirstThree(row: RecordingRow, data: UpdateData)
    ensures AssignAll(row, Field(TitleClause, TextValue(data.title)) + Field(FileSizeClause, IntValue(data.fileSize)) +
                           Field(DurationClause, RealValue(data.duration)))
         == row.(title := data.title.GetOr(row.title), file_size := data.fileSize.GetOr(row.file_size),
                 duration := data.duration.GetOr(row.duration))
  {
    var t := Field(TitleClause, TextValue(data.title));
    var f := Field(FileSizeClause, IntValue(data.fileSize));
    var d := Field(DurationClause, RealValue(data.duration));
    AssignAllAppend(row, t + f, d);
    AssignAllAppend(row, t, f);
    var r1 := AssignAll(row, t);
    AssignOne(row, TitleClause, TextValue(data.title));
    assert r1 == row.(title := data.title.GetOr(row.title));
    var r2 := AssignAll(r1, f);
    AssignOne(r1, FileSizeClause, IntValue(data.fileSize));
    assert r2 == r1.(file_size := data.fileSize.GetOr(row.file_size));
    AssignOne(r2, DurationClause, RealValue(data.duration));
  }

  /** The status, blob URL and thumbnail clauses, applied in order. */
  lemma AssignLastThree(row: RecordingRow, data: UpdateData)
    ensures AssignAll(row, Field(StatusClause, TextValue(data.status)) + Field(BlobUrlClause, TextValue(data.blobUrl)) +
                           Field(ThumbnailClause, TextValue(data.thumbnail)))
         == row.(status := data.status.GetOr(row.status), blob_url := data.blobUrl.GetOr(row.blob_url),
                 thumbnail := if data.thumbnail.Some? then data.thumbnail else row.thumbnail)
  {
    var s := Field(StatusClause, TextValue(data.status));
    var b := Field(BlobUrlClause, TextValue(data.blobUrl));
    var h := Field(ThumbnailClause, TextValue(data.thumbnail));
    AssignAllAppend(row, s + b, h);
    AssignAllAppend(row, s, b);
    var r1 := AssignAll(row, s);
    AssignOne(row, StatusClause, TextValue(data.status));
    assert r1 == row.(status := data.status.GetOr(row.status));
    var r2 := AssignAll(r1, b);
    AssignOne(r1, BlobUrlClause, TextValue(data.blobUrl));
    assert r2 == r1.(blob_url := data.blobUrl.GetOr(row.blob_url));
    AssignOne(r2, ThumbnailClause, TextValue(data.thumbnail));
  }

  /** Running the built clauses on a row gives the row the update describes. */
  lemma PresentAssignsFields(row: RecordingRow, data: UpdateData, now: string)
    requires Present(data) != []
    ensures AssignAll(row, Present(data)).(updated_at := now) == UpdatedRow(row, data, now)
  {
    var first := Field(TitleClause, TextValue(data.title)) + Field(FileSizeClause, IntValue(data.fileSize)) +
                 Field(DurationClause, RealValue(data.duration));
    var last := Field(StatusClause, TextValue(data.status)) + Field(BlobUrlClause, TextValue(data.blobUrl)) +
                Field(ThumbnailClause, TextValue(data.thumbnail));
    assert Present(data) == first + last;
    AssignAllAppend(row, first, last);
    AssignFirstThree(row, data);
    AssignLastThree(AssignAll(row, first), data);
  }

  /** `updateRecording` on the table: reads the record back unchanged when nothing
      is given, otherwise applies the clauses and the touch time first. */
  method UpdateRecording(rows: map<string, RecordingRow>, id: string, data: UpdateData, now: string)
    returns (rows': map<string, RecordingRow>, r: Option<Recording>)
    ensures Present(data) == [] ==> rows' == rows
    ensures id in rows ==> rows' == rows[id := UpdatedRow(rows[id], data, now)]
    ensures id !in rows ==> rows' == rows && r.None?
    ensures r == GetRecordingById(rows', id)
  {
    var plan := BuildUpdate(id, data);
    rows' := rows;
    if plan.Execute? && id in rows {
      var n := |plan.sets| - 1;
      var fs := seq(n, i requires 0 <= i < n => (plan.sets[i], plan.values[i]));
      assert fs == Present(data);
      PresentAssignsFields(rows[id], data, now);
      rows' := rows[id := AssignAll(rows[id], fs).(updated_at := now)];
    }
    r := GetRecordingById(rows', id);
  }

  /** `deleteRecording`: true iff a row went. */
  function DeleteRecording(rows: map<string, RecordingRow>, id: string): (result: (map<string, RecordingRow>, bool))
    ensures result.0 == rows - {id}
    ensures result.1 <==> id in rows
  {
    var rowsAffected := if id in rows then 1 else 0;
    (rows - {id}, rowsAffected > 0)
  }
}

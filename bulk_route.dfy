/** `DELETE` of src/app/api/recordings/bulk/route.ts: deletes the recordings whose
    ids are given, one after another, and reports how many rows went. The
    database is the `recordings` map of DbQueries; which storage and database
    calls throw is given as `Faults`. */
module BulkRoute {
  import opened Wrappers
  import opened Types
  import opened DbQueries

  const IdsRequired: string := "ids array is required"

  /** The calls that reach storage or the database, in order. */
  datatype Call = BlobDelete(url: string) | RowDelete(id: string)

  /** Which calls throw, by the position in `ids` of the pass that makes them: the
      lookup, the deletion of the blob, the deletion of the row. A failure belongs to
      one pass, so an id given twice can fail once and go through the second time. */
  datatype Faults = Faults(lookupFails: set<nat>, blobFails: set<nat>, deleteFails: set<nat>)

  datatype BulkResponse = BadRequest(error: string) | Deleted(deleted: nat)

  /** The table, the calls made so far and the `deleted` counter. */
  datatype BulkState = BulkState(rows: map<string, RecordingRow>, calls: seq<Call>, deleted: nat)

  /** The `i`-th pass of the loop body, for `id`; a throw ends it at the failing call. */
  function Step(st: BulkState, id: string, i: nat, faults: Faults): BulkState
  {
    if i in faults.lookupFails then st
    else
      var url := if id in st.rows then st.rows[id].blob_url else "";
      if url != "" && i in faults.blobFails then st.(calls := st.calls + [BlobDelete(url)])
      else
        var calls := st.calls + (if url != "" then [BlobDelete(url)] else []) + [RowDelete(id)];
        if i in faults.deleteFails then st.(calls := calls)
        else st.(rows := st.rows - {id}, calls := calls, deleted := st.deleted + if id in st.rows then 1 else 0)
  }

  /** The loop run over `ids` in order. */
  function Run(rows: map<string, RecordingRow>, ids: seq<string>, faults: Faults): BulkState
  {
    if ids == [] then BulkState(rows, [], 0)
    else Step(Run(rows, ids[..|ids| - 1], faults), ids[|ids| - 1], |ids| - 1, faults)
  }

  /** The handler: `ids` is `None` when the body's `ids` is not an array. */
  method BulkDelete(rows: map<string, RecordingRow>, ids: Option<seq<string>>, faults: Faults)
    returns (response: BulkResponse, rows': map<string, RecordingRow>, calls: seq<Call>)
    ensures ids.None? || ids.value == [] ==> response == BadRequest(IdsRequired) && rows' == rows && calls == []
    ensures ids.Some? && ids.value != [] ==>
              var st := Run(rows, ids.value, faults);
              response == Deleted(st.deleted) && rows' == st.rows && calls == st.calls
  {
    if ids.None? || |ids.value| == 0 {
      return BadRequest(IdsRequired), rows, [];
    }
    var list := ids.value;
    var deleted: nat := 0;
    rows', calls := rows, [];
    for i := 0 to |list|
      invariant Run(rows, list[..i], faults) == BulkState(rows', calls, deleted)
    {
      var id := list[i];
      assert list[..i + 1][..i] == list[..i];
      if i in faults.lookupFails {
        continue;
      }
      var recording := GetRecordingById(rows', id);
      if recording.Some? && recording.value.blobUrl != "" {
        calls := calls + [BlobDelete(recording.value.blobUrl)];
        if i in faults.blobFails {
          continue;
        }
      }
      calls := calls + [RowDelete(id)];
      if i in faults.deleteFails {
        continue;
      }
      var result := DeleteRecording(rows', id);
      rows' := result.0;
      if result.1 {
        deleted := deleted + 1;
      }
    }
    assert list[..|list|] == list;
    response := Deleted(deleted);
  }

  /** Whether the `i`-th pass, made for `id` while its row is still there, gets
      through to a successful row delete. */
  predicate Deletable(rows: map<string, RecordingRow>, id: string, i: nat, faults: Faults)
    requires id in rows
  {
    i !in faults.lookupFails && i !in faults.deleteFails &&
    (rows[id].blob_url == "" || i !in faults.blobFails)
  }

  /** The count never exceeds the number of ids. */
  lemma {:induction false} DeletedAtMostIds(rows: map<string, RecordingRow>, ids: seq<string>, faults: Faults)
    ensures Run(rows, ids, faults).deleted <= |ids|
  {
    if ids != [] {
      DeletedAtMostIds(rows, ids[..|ids| - 1], faults);
    }
  }

  /** One pass either leaves the table and the count alone, or removes the row of
      `id` and counts it if it was there. */
  lemma StepRemovesAtMostId(st: BulkState, id: string, i: nat, faults: Faults)
    ensures var st' := Step(st, id, i, faults);
            (st'.rows == st.rows && st'.deleted == st.deleted) ||
            (st'.rows == st.rows - {id} && st'.deleted == st.deleted + if id in st.rows then 1 else 0)
  {
  }

  lemma RemoveKeyCard(m: map<string, RecordingRow>, id: string)
    ensures |(m - {id}).Keys| == |m.Keys| - if id in m then 1 else 0
  {
    if id in m {
      assert (m - {id}).Keys == m.Keys - {id};
    } else {
      assert (m - {id}).Keys == m.Keys;
    }
  }

  /** Rows are only removed, never changed, and `deleted` counts exactly the rows
      that went. */
  lemma {:induction false} DeletedCountsRemovedRows(rows: map<string, RecordingRow>, ids: seq<string>, faults: Faults)
    ensures var st := Run(rows, ids, faults);
            st.rows.Keys <= rows.Keys &&
            (forall k :: k in st.rows ==> st.rows[k] == rows[k]) &&
            st.deleted + |st.rows.Keys| == |rows.Keys|
  {
    if ids != [] {
      var prev := Run(rows, ids[..|ids| - 1], faults);
      DeletedCountsRemovedRows(rows, ids[..|ids| - 1], faults);
      var id := ids[|ids| - 1];
      StepRemovesAtMostId(prev, id, |ids| - 1, faults);
      RemoveKeyCard(prev.rows, id);
    }
  }

  /** Some pass for `k`, made while its row was still there, got through every call. */
  predicate SomePassDeletes(rows: map<string, RecordingRow>, ids: seq<string>, faults: Faults, k: string)
    requires k in rows
  {
    exists i :: 0 <= i < |ids| && ids[i] == k && Deletable(rows, k, i, faults)
  }

  /** The `i`-th pass removes a row that is still there exactly when it is the pass
      for that row's id and it gets through. */
  lemma StepRemovesIff(st: BulkState, id: string, i: nat, faults: Faults, k: string)
    requires k in st.rows
    ensures k !in Step(st, id, i, faults).rows <==> id == k && Deletable(st.rows, k, i, faults)
  {
  }

  /** A recording is deleted exactly when some pass for its id got through every
      call; a failure in one pass costs no other pass, and no other id, its deletion. */
  lemma {:induction false} RemovedIff(rows: map<string, RecordingRow>, ids: seq<string>, faults: Faults, k: string)
    requires k in rows
    ensures k !in Run(rows, ids, faults).rows <==> SomePassDeletes(rows, ids, faults, k)
  {
    if ids != [] {
      var n := |ids| - 1;
      var init := ids[..n];
      var prev := Run(rows, init, faults);
      RemovedIff(rows, init, faults, k);
      DeletedCountsRemovedRows(rows, init, faults);
      StepRemovesAtMostId(prev, ids[n], n, faults);
      if SomePassDeletes(rows, init, faults, k) {
        var i :| 0 <= i < |init| && init[i] == k && Deletable(rows, k, i, faults);
        assert ids[i] == init[i];
      } else {
        StepRemovesIff(prev, ids[n], n, faults, k);
        if SomePassDeletes(rows, ids, faults, k) {
          var i :| 0 <= i < |ids| && ids[i] == k && Deletable(rows, k, i, faults);
          assert i == n;
        }
      }
    }
  }

  /** A lookup that throws on the first of two passes for `k` does not stop the
      second: the row goes and is counted once. */
  lemma TransientFailureRetried(rows: map<string, RecordingRow>, k: string)
    requires k in rows
    ensures var st := Run(rows, [k, k], Faults({0}, {}, {}));
            st.rows == rows - {k} && st.deleted == 1
  {
    var f := Faults({0}, {}, {});
    assert [k, k][..1] == [k];
    assert [k][..0] == [];
    assert Run(rows, [k], f) == BulkState(rows, [], 0);
  }

  /** Ids are handled in input order: the calls for a prefix of the ids are a
      prefix of the calls. */
  lemma {:induction false} CallsInOrder(rows: map<string, RecordingRow>, ids: seq<string>, faults: Faults, n: nat)
    requires n <= |ids|
    ensures Run(rows, ids[..n], faults).calls <= Run(rows, ids, faults).calls
    decreases |ids|
  {
    if n < |ids| {
      var init := ids[..|ids| - 1];
      assert ids[..n] == init[..n];
      CallsInOrder(rows, init, faults, n);
    } else {
      assert ids[..n] == ids;
    }
  }

  /** Storage is asked to delete a blob only for a non-empty URL, and a row delete
      for a recording with a blob comes right after its blob's deletion. */
  lemma StepCalls(st: BulkState, id: string, i: nat, faults: Faults)
    ensures var st' := Step(st, id, i, faults);
            var url := if id in st.rows then st.rows[id].blob_url else "";
            st.calls <= st'.calls &&
            (BlobDelete(url) in st'.calls[|st.calls|..] ==> url != "") &&
            (url != "" && RowDelete(id) in st'.calls[|st.calls|..] ==>
               st'.calls[|st.calls|..] == [BlobDelete(url), RowDelete(id)])
  {
  }
}

/** `RecordingGrid` of src/components/dashboard/recording-grid.tsx: the dashboard's
    list of recordings and the updates a delete or a rename makes to it. */
module RecordingGrid {
  import opened Wrappers
  import opened Types
  import RecordingCard

  /** `prev.filter((r) => r.id !== id)`. */
  function RemoveById(rs: seq<Recording>, id: string): (r: seq<Recording>)
    ensures |r| <= |rs|
  {
    if rs == [] then []
    else (if rs[0].id != id then [rs[0]] else []) + RemoveById(rs[1..], id)
  }

  /** Exactly the recordings with another id remain. */
  lemma {:induction false} RemoveByIdMembers(rs: seq<Recording>, id: string, x: Recording)
    ensures x in RemoveById(rs, id) <==> x in rs && x.id != id
  {
    if rs != [] {
      RemoveByIdMembers(rs[1..], id, x);
      assert rs == [rs[0]] + rs[1..];
    }
  }

  /** The recordings left keep their order. */
  lemma {:induction false} RemoveByIdAppend(a: seq<Recording>, b: seq<Recording>, id: string)
    ensures RemoveById(a + b, id) == RemoveById(a, id) + RemoveById(b, id)
  {
    if a == [] {
      assert a + b == b;
    } else {
      assert (a + b)[0] == a[0];
      assert (a + b)[1..] == a[1..] + b;
      RemoveByIdAppend(a[1..], b, id);
    }
  }

  /** Deleting an id that is not listed changes nothing. */
  lemma {:induction false} RemoveByIdAbsent(rs: seq<Recording>, id: string)
    requires forall i :: 0 <= i < |rs| ==> rs[i].id != id
    ensures RemoveById(rs, id) == rs
  {
    if rs != [] {
      RemoveByIdAbsent(rs[1..], id);
      assert rs == [rs[0]] + rs[1..];
    }
  }

  /** `prev.map((r) => (r.id === id ? { ...r, title } : r))`. */
  function RenameById(rs: seq<Recording>, id: string, title: string): (r: seq<Recording>)
    ensures |r| == |rs|
  {
    if rs == [] then []
    else [if rs[0].id == id then rs[0].(title := title) else rs[0]] + RenameById(rs[1..], id, title)
  }

  /** Only the titles of the recordings with that id change. */
  lemma {:induction false} RenameByIdAt(rs: seq<Recording>, id: string, title: string, i: int)
    requires 0 <= i < |rs|
    ensures rs[i].id != id ==> RenameById(rs, id, title)[i] == rs[i]
    ensures rs[i].id == id ==> RenameById(rs, id, title)[i] == rs[i].(title := title)
  {
    if i > 0 {
      RenameByIdAt(rs[1..], id, title, i - 1);
    }
  }

  /** The list after `handleDelete`: `ok` is whether the DELETE succeeded. */
  function AfterDelete(rs: seq<Recording>, id: string, ok: bool): seq<Recording>
  {
    if ok then RemoveById(rs, id) else rs
  }

  /** The list after `handleRename`: `ok` is whether the PATCH succeeded. */
  function AfterRename(rs: seq<Recording>, id: string, title: string, ok: bool): seq<Recording>
  {
    if ok then RenameById(rs, id, title) else rs
  }

  /** A failed request leaves the list as it was; a rename never changes its length. */
  lemma FailedRequestsKeepList(rs: seq<Recording>, id: string, title: string, ok: bool)
    ensures AfterDelete(rs, id, false) == rs && AfterRename(rs, id, title, false) == rs
    ensures |AfterRename(rs, id, title, ok)| == |rs|
    ensures |AfterDelete(rs, id, ok)| <= |rs|
  {
  }

  /** The ids of the cards rendered, in list order; `None` is the grid rendering nothing. */
  function Cards(rs: seq<Recording>): (r: Option<seq<string>>)
    ensures r.None? <==> rs == []
    ensures r.Some? ==> |r.value| == |rs| && forall i :: 0 <= i < |rs| ==> r.value[i] == rs[i].id
  {
    if rs == [] then None else Some(seq(|rs|, i requires 0 <= i < |rs| => rs[i].id))
  }

  /** Deleting the only recording leaves a grid that renders nothing. */
  lemma DeleteLastEmptiesGrid(x: Recording)
    ensures Cards(AfterDelete([x], x.id, true)).None?
  {
    assert [x][1..] == [];
  }

  /** The ids of the rendered cards that show "Processing...", in list order. */
  function ProcessingIds(rs: seq<Recording>): seq<string>
  {
    if rs == [] then []
    else (if RecordingCard.ProcessingBadge(rs[0].status) then [rs[0].id] else []) + ProcessingIds(rs[1..])
  }

  /** A card carries the badge exactly when its recording is still processing. */
  lemma {:induction false} ProcessingIdsMembers(rs: seq<Recording>, x: string)
    ensures x in ProcessingIds(rs) <==>
            exists i :: 0 <= i < |rs| && rs[i].id == x && rs[i].status == RecordingCard.ProcessingStatus
  {
    if rs != [] {
      ProcessingIdsMembers(rs[1..], x);
      if x in ProcessingIds(rs[1..]) {
        var i :| 0 <= i < |rs[1..]| && rs[1..][i].id == x && rs[1..][i].status == RecordingCard.ProcessingStatus;
        assert rs[i + 1] == rs[1..][i];
      }
      if exists i :: 0 <= i < |rs| && rs[i].id == x && rs[i].status == RecordingCard.ProcessingStatus {
        var i :| 0 <= i < |rs| && rs[i].id == x && rs[i].status == RecordingCard.ProcessingStatus;
        if i > 0 {
          assert rs[1..][i - 1] == rs[i];
        }
      }
    }
  }

  /** A rename never adds or removes a badge. */
  lemma {:induction false} RenameKeepsBadges(rs: seq<Recording>, id: string, title: string)
    ensures ProcessingIds(RenameById(rs, id, title)) == ProcessingIds(rs)
  {
    if rs != [] {
      RenameKeepsBadges(rs[1..], id, title);
    }
  }

  /** Badges of a split list are the badges of its parts. */
  lemma {:induction false} ProcessingIdsAppend(a: seq<Recording>, b: seq<Recording>)
    ensures ProcessingIds(a + b) == ProcessingIds(a) + ProcessingIds(b)
  {
    if a == [] {
      assert a + b == b;
    } else {
      assert (a + b)[1..] == a[1..] + b;
      ProcessingIdsAppend(a[1..], b);
    }
  }

  /** A delete takes the deleted recording's badge away and keeps the others in order. */
  lemma {:induction false} DeleteDropsBadge(rs: seq<Recording>, id: string)
    ensures ProcessingIds(RemoveById(rs, id)) == RemoveString(ProcessingIds(rs), id)
  {
    if rs != [] {
      DeleteDropsBadge(rs[1..], id);
      var kept := if rs[0].id != id then [rs[0]] else [];
      ProcessingIdsAppend(kept, RemoveById(rs[1..], id));
      var head := if RecordingCard.ProcessingBadge(rs[0].status) then [rs[0].id] else [];
      RemoveStringAppend(head, ProcessingIds(rs[1..]), id);
      assert kept != [] ==> kept[1..] == [];
      assert ProcessingIds(kept) == RemoveString(head, id);
    }
  }

  /** `xs` without the occurrences of `x`. */
  function RemoveString(xs: seq<string>, x: string): seq<string>
  {
    if xs == [] then [] else (if xs[0] != x then [xs[0]] else []) + RemoveString(xs[1..], x)
  }

  lemma {:induction false} RemoveStringAppend(a: seq<string>, b: seq<string>, x: string)
    ensures RemoveString(a + b, x) == RemoveString(a, x) + RemoveString(b, x)
  {
    if a == [] {
      assert a + b == b;
    } else {
      assert (a + b)[1..] == a[1..] + b;
      RemoveStringAppend(a[1..], b, x);
    }
  }

  lemma {:induction false} RemoveStringDrops(xs: seq<string>, x: string)
    ensures x !in RemoveString(xs, x)
  {
    if xs != [] {
      RemoveStringDrops(xs[1..], x);
    }
  }
}

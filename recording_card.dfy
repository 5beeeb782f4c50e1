/** `RecordingCard` of src/components/dashboard/recording-card.tsx: one recording on
    the dashboard, with its menu and inline rename. */
module RecordingCard {
  import opened Types
  import Text

  /** The status for which the card shows "Processing...". */
  const ProcessingStatus: string := "processing"

  /** Whether the card shows the "Processing..." badge. */
  predicate ProcessingBadge(status: string) {
    status == ProcessingStatus
  }

  /** The rename guard: the text is not blank and differs, as typed, from the title. */
  predicate ShouldRename(title: string, original: string) {
    Text.Trim(title) != "" && title != original
  }

  /** The guard lets through exactly the non-blank edits. */
  lemma ShouldRenameIff(title: string, original: string)
    ensures ShouldRename(title, original) <==> !Text.IsBlank(title) && title != original
  {
    Text.TrimEmptyIffBlank(title);
  }

  /** The comparison is made before trimming: the title with a space typed after it
      passes the guard and is sent, trimmed, as the title it already has. */
  lemma PaddedTitlePasses(original: string)
    requires original != [] && !Text.IsSpace(original[0]) && !Text.IsSpace(original[|original| - 1])
    ensures ShouldRename(original + " ", original)
    ensures Text.Trim(original + " ") == original
  {
    var padded := original + " ";
    assert padded[0] == original[0];
    assert padded[..|padded| - 1] == original;
    assert Text.TrimStart(padded) == padded;
    assert Text.TrimEnd(padded) == Text.TrimEnd(original);
    assert |padded| != |original|;
  }

  class RecordingCard {
    /** The `recording` prop, replaced when the grid re-renders the card. */
    var recording: Recording
    var showMenu: bool
    var isRenaming: bool
    /** The text in the rename box. */
    var title: string
    /** The `onRename(id, title)` and `onDelete(id)` calls, in order. */
    ghost var renameCalls: seq<(string, string)>
    ghost var deleteCalls: seq<string>

    constructor (recording: Recording)
      ensures this.recording == recording && title == recording.title
      ensures !showMenu && !isRenaming && renameCalls == [] && deleteCalls == []
    {
      this.recording := recording;
      showMenu := false;
      isRenaming := false;
      title := recording.title;
      renameCalls := [];
      deleteCalls := [];
    }

    method ToggleMenu()
      modifies this`showMenu
      ensures showMenu == !old(showMenu)
    {
      showMenu := !showMenu;
    }

    /** The backdrop behind the open menu, and "Copy Link" (whose clipboard write
        is not part of this model). */
    method CloseMenu()
      modifies this`showMenu
      ensures !showMenu
    {
      showMenu := false;
    }

    /** "Rename" in the menu. */
    method StartRename()
      modifies this`isRenaming, this`showMenu
      ensures isRenaming && !showMenu
    {
      isRenaming := true;
      showMenu := false;
    }

    method OnTitleChange(value: string)
      modifies this`title
      ensures title == value
    {
      title := value;
    }

    /** `handleRename` (blur or Enter): ask for the trimmed title when the guard
        holds, and leave rename mode in every case. */
    method HandleRename()
      modifies this`renameCalls, this`isRenaming
      ensures recording == old(recording) && title == old(title)
      ensures renameCalls == old(renameCalls) +
                (if ShouldRename(title, recording.title) then [(recording.id, Text.Trim(title))] else [])
      ensures !isRenaming
    {
      if ShouldRename(title, recording.title) {
        renameCalls := renameCalls + [(recording.id, Text.Trim(title))];
      }
      isRenaming := false;
    }

    /** A re-render with a new `recording` prop, such as the grid's update after a
        successful rename. The grid keys cards by id, so the same card only ever sees
        its own id, and the text in the box is state the new prop does not reset. */
    method OnRecordingChange(r: Recording)
      requires r.id == recording.id
      modifies this`recording
      ensures recording == r
    {
      recording := r;
    }

    /** "Delete" in the menu. */
    method Delete()
      modifies this`deleteCalls, this`showMenu
      ensures deleteCalls == old(deleteCalls) + [recording.id] && !showMenu
    {
      deleteCalls := deleteCalls + [recording.id];
      showMenu := false;
    }
  }

  /** Renaming a card titled `a` to `b`, the grid passing the renamed recording back
      in, then renaming it back: the second rename is compared with the new title, so
      both reach `onRename`. */
  method RenameThereAndBack(c: RecordingCard, b: string)
    requires c.recording.title != b && !Text.IsBlank(b) && !Text.IsBlank(c.recording.title)
    requires Text.Trim(b) == b && Text.Trim(c.recording.title) == c.recording.title
    modifies c
    ensures c.renameCalls == old(c.renameCalls) + [(c.recording.id, b), (c.recording.id, old(c.recording.title))]
    ensures c.recording == old(c.recording).(title := b)
  {
    var a := c.recording.title;
    ShouldRenameIff(b, a);
    c.StartRename();
    c.OnTitleChange(b);
    c.HandleRename();
    c.OnRecordingChange(c.recording.(title := b));
    ShouldRenameIff(a, b);
    c.StartRename();
    c.OnTitleChange(a);
    c.HandleRename();
  }
}

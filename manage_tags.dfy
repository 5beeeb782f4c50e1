/** `ManageTagsDialog` of src/components/dashboard/manage-tags-dialog.tsx: rename,
    recolour, delete and create tags. Requests become outcome parameters; the
    list handed to `onTagsChange` becomes the dialog's new `tags`. */
module ManageTags {
  import opened Wrappers
  import opened Types
  import Text

  /** The tag being edited. */
  datatype EditingTag = EditingTag(id: string, name: string, color: string, icon: string)

  /** The new-tag form. */
  datatype Draft = Draft(name: string, color: string, icon: string)

  /** How a request went: a 2xx with its body, another status, or a throw. */
  datatype Response = Ok(body: Tag) | NotOk | Threw

  /** The list after a successful save: the server's name, color and icon on
      the tags with the saved id, everything else as it was. */
  function ApplyUpdate(tags: seq<TagWithCount>, updated: Tag): (r: seq<TagWithCount>)
    ensures |r| == |tags|
  {
    if tags == [] then []
    else
      var t := tags[0];
      [if t.id == updated.id then TagWithCount(t.id, updated.name, updated.color, updated.icon, t.count) else t]
        + ApplyUpdate(tags[1..], updated)
  }

  /** Only the tags with the saved id change, and only in name, color and icon. */
  lemma {:induction false} ApplyUpdateAt(tags: seq<TagWithCount>, updated: Tag, i: int)
    requires 0 <= i < |tags|
    ensures tags[i].id != updated.id ==> ApplyUpdate(tags, updated)[i] == tags[i]
    ensures tags[i].id == updated.id ==>
              ApplyUpdate(tags, updated)[i] == TagWithCount(tags[i].id, updated.name, updated.color, updated.icon, tags[i].count)
  {
    if i > 0 {
      ApplyUpdateAt(tags[1..], updated, i - 1);
    }
  }

  /** The list after a successful delete. */
  function RemoveTag(tags: seq<TagWithCount>, id: string): (r: seq<TagWithCount>)
    ensures |r| <= |tags|
  {
    if tags == [] then []
    else (if tags[0].id != id then [tags[0]] else []) + RemoveTag(tags[1..], id)
  }

  /** Exactly the tags with another id remain. */
  lemma {:induction false} RemoveTagMembers(tags: seq<TagWithCount>, id: string, t: TagWithCount)
    ensures t in RemoveTag(tags, id) <==> t in tags && t.id != id
  {
    if tags != [] {
      RemoveTagMembers(tags[1..], id, t);
      assert tags == [tags[0]] + tags[1..];
    }
  }

  /** Removing keeps the order of the rest. */
  lemma {:induction false} RemoveTagAppend(a: seq<TagWithCount>, b: seq<TagWithCount>, id: string)
    ensures RemoveTag(a + b, id) == RemoveTag(a, id) + RemoveTag(b, id)
  {
    if a == [] {
      assert a + b == b;
    } else {
      assert (a + b)[0] == a[0];
      assert (a + b)[1..] == a[1..] + b;
      RemoveTagAppend(a[1..], b, id);
    }
  }

  /** A list without the id is left as it is. */
  lemma {:induction false} RemoveTagAbsent(tags: seq<TagWithCount>, id: string)
    requires forall i :: 0 <= i < |tags| ==> tags[i].id != id
    ensures RemoveTag(tags, id) == tags
  {
    if tags != [] {
      RemoveTagAbsent(tags[1..], id);
      assert tags == [tags[0]] + tags[1..];
    }
  }

  /** The list after a successful create: the new tag last, with no recordings. */
  function AppendCreated(tags: seq<TagWithCount>, created: Tag): (r: seq<TagWithCount>)
    ensures |r| == |tags| + 1 && r[..|tags|] == tags
    ensures r[|tags|] == TagWithCount(created.id, created.name, created.color, created.icon, 0)
  {
    tags + [TagWithCount(created.id, created.name, created.color, created.icon, 0)]
  }

  /** The PATCH body of a save: the edited tag with its name trimmed. */
  function TrimmedEdit(e: EditingTag): (b: EditingTag)
    ensures b.id == e.id && b.color == e.color && b.icon == e.icon && b.name == Text.Trim(e.name)
  {
    EditingTag(e.id, Text.Trim(e.name), e.color, e.icon)
  }

  /** The POST body of a create: the form with its name trimmed. */
  function TrimmedDraft(d: Draft): (b: Draft)
    ensures b.color == d.color && b.icon == d.icon && b.name == Text.Trim(d.name)
  {
    Draft(Text.Trim(d.name), d.color, d.icon)
  }

  /** What pressing Escape does. */
  datatype EscapeEffect = LeaveEditing | LeaveCreating | CloseDialog

  function OnEscape(editing: bool, creating: bool): (e: EscapeEffect)
    ensures e == LeaveEditing <==> editing
    ensures e == LeaveCreating <==> !editing && creating
    ensures e == CloseDialog <==> !editing && !creating
  {
    if editing then LeaveEditing else if creating then LeaveCreating else CloseDialog
  }

  class ManageTagsDialog {
    /** `TAG_COLORS[0]`; the palette is not part of this model. */
    const firstColor: string
    var open: bool
    var tags: seq<TagWithCount>
    var editing: Option<EditingTag>
    var deleteTarget: Option<TagWithCount>
    var deleting: bool
    var saving: bool
    var showIconPicker: bool
    var creating: bool
    var newTag: Draft
    /** The `onClose` calls made. */
    ghost var closeCalls: nat
    /** The request bodies sent: PATCH for saves, POST for creates. */
    ghost var saveRequests: seq<EditingTag>
    ghost var createRequests: seq<Draft>

    /** The empty form. */
    function BlankDraft(): Draft
      reads this
    {
      Draft("", firstColor, "tag")
    }

    constructor (firstColor: string, open: bool, tags: seq<TagWithCount>)
      ensures this.firstColor == firstColor && this.open == open && this.tags == tags
      ensures editing.None? && deleteTarget.None? && !deleting && !saving
      ensures !showIconPicker && !creating && newTag == Draft("", firstColor, "tag")
      ensures closeCalls == 0 && saveRequests == [] && createRequests == []
    {
      this.firstColor := firstColor;
      this.open := open;
      this.tags := tags;
      editing := None;
      deleteTarget := None;
      deleting := false;
      saving := false;
      showIconPicker := false;
      creating := false;
      newTag := Draft("", firstColor, "tag");
      closeCalls := 0;
      saveRequests := [];
      createRequests := [];
    }

    /** The `open` prop changes; closing resets the editing, deletion, icon picker
        and creation state and the form. */
    method SetOpen(o: bool)
      modifies this`open, this`editing, this`deleteTarget, this`showIconPicker, this`creating, this`newTag
      ensures open == o
      ensures !o ==> editing.None? && deleteTarget.None? && !showIconPicker && !creating && newTag == BlankDraft()
      ensures o ==> editing == old(editing) && deleteTarget == old(deleteTarget) &&
                    showIconPicker == old(showIconPicker) && creating == old(creating) && newTag == old(newTag)
    {
      open := o;
      if !o {
        editing := None;
        deleteTarget := None;
        showIconPicker := false;
        creating := false;
        newTag := BlankDraft();
      }
    }

    /** The Escape key while open: leave editing, else leave creating, else ask the
        parent to close. */
    method Escape()
      modifies this`editing, this`showIconPicker, this`creating, this`closeCalls
      ensures !open ==> editing == old(editing) && showIconPicker == old(showIconPicker) &&
                        creating == old(creating) && closeCalls == old(closeCalls)
      ensures open && OnEscape(old(editing).Some?, old(creating)) == LeaveEditing ==>
                editing.None? && !showIconPicker && creating == old(creating) && closeCalls == old(closeCalls)
      ensures open && OnEscape(old(editing).Some?, old(creating)) == LeaveCreating ==>
                editing == old(editing) && showIconPicker == old(showIconPicker) && !creating && closeCalls == old(closeCalls)
      ensures open && OnEscape(old(editing).Some?, old(creating)) == CloseDialog ==>
                editing == old(editing) && showIconPicker == old(showIconPicker) &&
                creating == old(creating) && closeCalls == old(closeCalls) + 1
    {
      if !open {
        return;
      }
      match OnEscape(editing.Some?, creating)
      case LeaveEditing =>
        editing := None;
        showIconPicker := false;
      case LeaveCreating =>
        creating := false;
      case CloseDialog =>
        closeCalls := closeCalls + 1;
    }

    /** The pencil on a tag: edit a copy of it. */
    method StartEdit(t: TagWithCount)
      modifies this`editing, this`showIconPicker
      ensures editing == Some(EditingTag(t.id, t.name, t.color, t.icon)) && !showIconPicker
    {
      editing := Some(EditingTag(t.id, t.name, t.color, t.icon));
      showIconPicker := false;
    }

    /** "New Tag": leave editing and open the form. */
    method StartCreate()
      modifies this`editing, this`showIconPicker, this`creating
      ensures editing.None? && !showIconPicker && creating
    {
      editing := None;
      showIconPicker := false;
      creating := true;
    }

    /** Cancel in the form: close it and clear it. */
    method CancelCreate()
      modifies this`creating, this`newTag
      ensures !creating && newTag == BlankDraft()
    {
      creating := false;
      newTag := BlankDraft();
    }

    /** The trash can on a tag, and Cancel in the confirmation. */
    method SetDeleteTarget(t: Option<TagWithCount>)
      modifies this`deleteTarget
      ensures deleteTarget == t
    {
      deleteTarget := t;
    }

    /** `handleSave`: send the trimmed name with the color and icon. Success
        applies the server's version to the list and leaves editing; a failure
        leaves the list and the editor as they were. */
    method HandleSave(response: Response)
      modifies this`tags, this`editing, this`showIconPicker, this`saving, this`saveRequests
      ensures old(editing).None? ==> unchanged(this)
      ensures old(editing).Some? ==>
                !saving && saveRequests == old(saveRequests) + [TrimmedEdit(old(editing).value)]
      ensures old(editing).Some? && response.Ok? ==>
                tags == ApplyUpdate(old(tags), response.body) && editing.None? && !showIconPicker
      ensures old(editing).Some? && !response.Ok? ==>
                tags == old(tags) && editing == old(editing) && showIconPicker == old(showIconPicker)
    {
      if editing.None? {
        return;
      }
      var e := editing.value;
      saving := true;
      saveRequests := saveRequests + [TrimmedEdit(e)];
      if response.Ok? {
        tags := ApplyUpdate(tags, response.body);
        editing := None;
        showIconPicker := false;
      }
      saving := false;
    }

    /** `handleDelete` (the confirmation's confirm): success drops the target's id
        from the list; the target is cleared whatever happened. */
    method HandleDelete(ok: bool, threw: bool)
      modifies this`tags, this`deleting, this`deleteTarget
      ensures old(deleteTarget).None? ==> tags == old(tags) && deleting == old(deleting) && deleteTarget.None?
      ensures old(deleteTarget).Some? && ok && !threw ==> tags == RemoveTag(old(tags), old(deleteTarget).value.id)
      ensures old(deleteTarget).Some? && (!ok || threw) ==> tags == old(tags)
      ensures old(deleteTarget).Some? ==> !deleting && deleteTarget.None?
    {
      if deleteTarget.None? {
        return;
      }
      deleting := true;
      if ok && !threw {
        tags := RemoveTag(tags, deleteTarget.value.id);
      }
      deleting := false;
      deleteTarget := None;
    }

    /** `handleCreate`: a blank name does nothing. Otherwise the trimmed name is
        posted; success appends the new tag and resets the form, a failure keeps
        the list and the form. */
    method HandleCreate(response: Response)
      modifies this`tags, this`creating, this`newTag, this`saving, this`createRequests
      ensures Text.IsBlank(old(newTag).name) ==>
                tags == old(tags) && creating == old(creating) &&
                newTag == old(newTag) && saving == old(saving) && createRequests == old(createRequests)
      ensures !Text.IsBlank(old(newTag).name) ==>
                !saving && createRequests == old(createRequests) + [TrimmedDraft(old(newTag))]
      ensures !Text.IsBlank(old(newTag).name) && response.Ok? ==>
                tags == AppendCreated(old(tags), response.body) && !creating && newTag == BlankDraft()
      ensures !Text.IsBlank(old(newTag).name) && !response.Ok? ==>
                tags == old(tags) && creating == old(creating) && newTag == old(newTag)
    {
      var draft := newTag;
      Text.TrimEmptyIffBlank(draft.name);
      if Text.Trim(draft.name) == "" {
        return;
      }
      saving := true;
      createRequests := createRequests + [TrimmedDraft(draft)];
      if response.Ok? {
        tags := AppendCreated(tags, response.body);
        creating := false;
        newTag := BlankDraft();
      }
      saving := false;
    }
  }
}

/** `TagInput` of src/components/ui/tag-input.tsx: a search box over the existing
    tags that suggests unselected matches and offers to create a missing name. */
module TagInput {
  import opened Wrappers
  import opened Types
  import opened Text

  /** The ids of the selected tags (`selectedIds`). */
  function SelectedIds(selected: seq<Tag>): (ids: set<string>)
    ensures forall t :: t in selected ==> t.id in ids
    ensures forall id :: id in ids ==> exists t :: t in selected && t.id == id
  {
    set t | t in selected :: t.id
  }

  /** Whether a tag's name contains the query, ignoring case. */
  predicate Matches(t: Tag, query: string) {
    Includes(Lower(t.name), Lower(query))
  }

  /** `suggestions`: the existing tags that are not selected and match the query. */
  function Suggestions(existing: seq<Tag>, ids: set<string>, query: string): (r: seq<Tag>)
    ensures |r| <= |existing|
  {
    if existing == [] then []
    else (if existing[0].id !in ids && Matches(existing[0], query) then [existing[0]] else [])
         + Suggestions(existing[1..], ids, query)
  }

  /** A tag is suggested exactly when it exists, is not selected and matches. */
  lemma {:induction false} SuggestionsMembers(existing: seq<Tag>, ids: set<string>, query: string, t: Tag)
    ensures t in Suggestions(existing, ids, query) <==> t in existing && t.id !in ids && Matches(t, query)
  {
    if existing != [] {
      SuggestionsMembers(existing[1..], ids, query, t);
      assert existing == [existing[0]] + existing[1..];
    }
  }

  /** Suggestions keep the order of the existing tags. */
  lemma {:induction false} SuggestionsAppend(a: seq<Tag>, b: seq<Tag>, ids: set<string>, query: string)
    ensures Suggestions(a + b, ids, query) == Suggestions(a, ids, query) + Suggestions(b, ids, query)
  {
    if a == [] {
      assert a + b == b;
    } else {
      assert (a + b)[0] == a[0];
      assert (a + b)[1..] == a[1..] + b;
      SuggestionsAppend(a[1..], b, ids, query);
    }
  }

  /** An empty query matches every name, so every unselected tag is suggested. */
  lemma EmptyQuerySuggestsUnselected(existing: seq<Tag>, ids: set<string>, t: Tag)
    ensures t in Suggestions(existing, ids, "") <==> t in existing && t.id !in ids
  {
    SuggestionsMembers(existing, ids, "", t);
    IncludesEmpty(Lower(t.name));
  }

  /** Whether some tag's name equals `name`, ignoring case. */
  function AnyNamed(existing: seq<Tag>, name: string): bool
  {
    existing != [] && (Lower(existing[0].name) == Lower(name) || AnyNamed(existing[1..], name))
  }

  lemma {:induction false} AnyNamedIff(existing: seq<Tag>, name: string)
    ensures AnyNamed(existing, name) <==> exists t :: t in existing && Lower(t.name) == Lower(name)
  {
    if existing != [] {
      AnyNamedIff(existing[1..], name);
      assert existing == [existing[0]] + existing[1..];
    }
  }

  /** `showCreateOption`. */
  predicate ShowCreateOption(existing: seq<Tag>, query: string) {
    Trim(query) != "" && !AnyNamed(existing, Trim(query))
  }

  /** The create option is offered exactly for a non-blank query whose trimmed
      form names no tag, selected or not, ignoring case. */
  lemma ShowCreateOptionIff(existing: seq<Tag>, query: string)
    ensures ShowCreateOption(existing, query) <==>
              !IsBlank(query) && !exists t :: t in existing && Lower(t.name) == Lower(Trim(query))
  {
    TrimEmptyIffBlank(query);
    AnyNamedIff(existing, Trim(query));
  }

  /** The dropdown under the input. */
  predicate DropdownVisible(showSuggestions: bool, existing: seq<Tag>, ids: set<string>, query: string) {
    showSuggestions && (|Suggestions(existing, ids, query)| > 0 || ShowCreateOption(existing, query))
  }

  /** A tag just named in full, while unselected, is suggested and not offered
      for creation, so the dropdown shows while suggestions are on. */
  lemma ExactNameSuggested(existing: seq<Tag>, ids: set<string>, t: Tag, show: bool)
    requires t in existing && t.id !in ids
    ensures t in Suggestions(existing, ids, t.name)
    ensures Trim(t.name) == t.name ==> !ShowCreateOption(existing, t.name)
    ensures DropdownVisible(show, existing, ids, t.name) <==> show
  {
    IncludesIff(Lower(t.name), Lower(t.name));
    assert OccursAt(Lower(t.name), Lower(t.name), 0);
    SuggestionsMembers(existing, ids, t.name, t);
    if Trim(t.name) == t.name {
      AnyNamedIff(existing, t.name);
    }
  }

  class TagInput {
    var query: string
    var showSuggestions: bool
    /** The `onAddTag` calls, in order. */
    ghost var added: seq<string>
    /** The `onCreateTag(name, color)` calls, in order. */
    ghost var createRequests: seq<(string, string)>

    constructor ()
      ensures query == "" && !showSuggestions && added == [] && createRequests == []
    {
      query := "";
      showSuggestions := false;
      added := [];
      createRequests := [];
    }

    /** Typing shows the suggestions for the new text. */
    method OnChange(value: string)
      modifies this`query, this`showSuggestions
      ensures query == value && showSuggestions
    {
      query := value;
      showSuggestions := true;
    }

    method OnFocus()
      modifies this`showSuggestions
      ensures showSuggestions
    {
      showSuggestions := true;
    }

    /** A `mousedown` anywhere: outside the component it hides the suggestions. */
    method OnMouseDown(inside: bool)
      modifies this`showSuggestions
      ensures showSuggestions == (old(showSuggestions) && inside)
    {
      if !inside {
        showSuggestions := false;
      }
    }

    /** `handleSelect`: add the tag and reset the box. */
    method HandleSelect(tagId: string)
      modifies this`added, this`query, this`showSuggestions
      ensures added == old(added) + [tagId]
      ensures query == "" && !showSuggestions
    {
      added := added + [tagId];
      query := "";
      showSuggestions := false;
    }

    /** `handleCreate`: ask for a tag named by the trimmed query in `color` (the
        caller's random pick); `created` is what `onCreateTag` resolves with. The
        new tag is added only if one came back; the box is reset either way. */
    method HandleCreate(color: string, created: Option<Tag>)
      modifies this`createRequests, this`added, this`query, this`showSuggestions
      ensures createRequests == old(createRequests) + [(Trim(old(query)), color)]
      ensures added == old(added) + (if created.Some? then [created.value.id] else [])
      ensures query == "" && !showSuggestions
    {
      createRequests := createRequests + [(Trim(query), color)];
      if created.Some? {
        added := added + [created.value.id];
      }
      query := "";
      showSuggestions := false;
    }
  }
}

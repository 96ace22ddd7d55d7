/** The Search page's tag filter: a list of selected tags that a tag
    click adds to or removes from. */
module Search {
  import opened Common

  /** The state update `handleTagToggle` passes to `setSelectedTags`. */
  function Toggled(prev: seq<string>, tag: string): seq<string> {
    if tag in prev then RemoveAll(prev, tag) else prev + [tag]
  }

  /** A toggle flips the tag's membership. */
  lemma ToggleFlips(prev: seq<string>, tag: string)
    ensures tag in Toggled(prev, tag) <==> tag !in prev
  {
  }

  /** The other tags stay, in the same order and multiplicity. */
  lemma {:induction false} ToggleKeepsOthers(prev: seq<string>, tag: string)
    ensures RemoveAll(Toggled(prev, tag), tag) == RemoveAll(prev, tag)
  {
    if tag in prev {
      RemoveAbsent(RemoveAll(prev, tag), tag);
    } else {
      RemoveAllAppend(prev, [tag], tag);
      assert RemoveAll([tag], tag) == [];
    }
  }

  /** A list without duplicates keeps none. */
  lemma ToggleKeepsNoDuplicates(prev: seq<string>, tag: string)
    requires NoDuplicates(prev)
    ensures NoDuplicates(Toggled(prev, tag))
  {
    if tag !in prev {
      assert multiset(prev + [tag]) == multiset(prev) + multiset{tag};
    }
  }

  /** Toggling an absent tag twice restores the list. */
  lemma {:induction false} ToggleTwiceAbsent(prev: seq<string>, tag: string)
    requires tag !in prev
    ensures Toggled(Toggled(prev, tag), tag) == prev
  {
    RemoveAllAppend(prev, [tag], tag);
    assert RemoveAll([tag], tag) == [];
    RemoveAbsent(prev, tag);
  }

  /** Toggling a selected tag twice moves it to the end. */
  lemma ToggleTwicePresent(prev: seq<string>, tag: string)
    requires tag in prev
    ensures Toggled(Toggled(prev, tag), tag) == RemoveAll(prev, tag) + [tag]
  {
  }

  class TagSelection {
    var selectedTags: seq<string>

    constructor ()
      ensures selectedTags == []
    {
      selectedTags := [];
    }

    method HandleTagToggle(tag: string)
      modifies this
      ensures selectedTags == Toggled(old(selectedTags), tag)
    {
      if tag in selectedTags {
        selectedTags := RemoveAll(selectedTags, tag);
      } else {
        selectedTags := selectedTags + [tag];
      }
    }
  }
}

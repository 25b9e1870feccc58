/** The dialog that edits a saved entry: four text fields filled from the entry, and a
    save that normalises them into an update. */
module EditEntry {
  import opened Wrappers
  import opened Text
  import opened Tags
  import opened Knowledge

  /** The fields `handleSave` passes to `onSave`; an absent content or image
      description is stored as null. */
  datatype EntryUpdate = EntryUpdate(
    title: string, content: Option<string>, tags: seq<string>, imageDescription: Option<string>)

  /** The update a save sends for the four fields, or None when the trimmed title is
      empty and nothing is sent. */
  function UpdateOf(title: string, content: string, tags: string, imageDescription: string): Option<EntryUpdate> {
    if Trim(title) == [] then None
    else Some(EntryUpdate(Trim(title), BlankToNull(content), ParseTags(tags), BlankToNull(imageDescription)))
  }

  /** A whitespace-only title sends nothing; otherwise the update has the trimmed title,
      the parsed tags and each optional text trimmed or null. */
  lemma UpdateOfSpec(title: string, content: string, tags: string, imageDescription: string)
    ensures var u := UpdateOf(title, content, tags, imageDescription);
      && (u.None? <==> AllWhitespace(title))
      && (u.Some? ==>
            && u.value.title == Trim(title) && u.value.title != [] && IsTrimmed(u.value.title)
            && u.value.tags == ParseTags(tags)
            && IsNormalText(u.value.content) && IsNormalText(u.value.imageDescription)
            && (u.value.content.None? <==> AllWhitespace(content)))
  {
    TrimBlank(title);
    TrimChars(title);
    BlankToNullSpec(content);
    BlankToNullSpec(imageDescription);
  }

  /** The text an optional field shows: `value || ''`. */
  function Shown(t: Option<string>): string {
    OrElse(t, "")
  }

  /** Saving an entry right after its fields were filled from it sends back exactly its
      values, when these are already normal: a non-blank trimmed title, normal texts and
      tags that a parse produces. */
  lemma ResetThenSave(e: Entry)
    requires e.title != [] && IsTrimmed(e.title)
    requires IsNormalText(e.content) && IsNormalText(e.imageDescription)
    requires forall i :: 0 <= i < |e.tags| ==> IsTag(e.tags[i])
    ensures UpdateOf(e.title, Shown(e.content), FormatTags(e.tags), Shown(e.imageDescription))
            == Some(EntryUpdate(e.title, e.content, e.tags, e.imageDescription))
  {
    TrimTrimmed(e.title);
    if e.content.Some? { TrimTrimmed(e.content.value); }
    if e.imageDescription.Some? { TrimTrimmed(e.imageDescription.value); }
    assert Trim("") == "";
    ParseFormatRoundTrip(e.tags);
  }

  class EditEntryDialog {
    /** The `open` prop, written back through `onOpenChange`. */
    var open: bool
    var title: string
    var content: string
    var tags: string
    var imageDescription: string
    var isSaving: bool

    /** The form as first shown: every field from the entry. */
    constructor(entry: Entry, isOpen: bool)
      ensures open == isOpen && !isSaving
      ensures title == entry.title && content == Shown(entry.content)
      ensures tags == FormatTags(entry.tags) && imageDescription == Shown(entry.imageDescription)
    {
      open := isOpen;
      title := entry.title;
      content := Shown(entry.content);
      tags := FormatTags(entry.tags);
      imageDescription := Shown(entry.imageDescription);
      isSaving := false;
    }

    /** The effect on a change of entry: all four fields are refilled from it. */
    method Reset(entry: Entry)
      modifies this
      ensures title == entry.title && content == Shown(entry.content)
      ensures tags == FormatTags(entry.tags) && imageDescription == Shown(entry.imageDescription)
      ensures open == old(open) && isSaving == old(isSaving)
    {
      title := entry.title;
      content := Shown(entry.content);
      tags := FormatTags(entry.tags);
      imageDescription := Shown(entry.imageDescription);
    }

    /** `handleSave`. `saveFails` is whether `onSave` reports an error. A blank title
        sends nothing and changes nothing; otherwise the update is sent, and the dialog
        closes only when the save succeeds. The fields are never changed. */
    method HandleSave(saveFails: bool) returns (sent: Option<EntryUpdate>)
      modifies this
      ensures sent == UpdateOf(old(title), old(content), old(tags), old(imageDescription))
      ensures title == old(title) && content == old(content)
      ensures tags == old(tags) && imageDescription == old(imageDescription)
      ensures sent.None? ==> open == old(open) && isSaving == old(isSaving)
      ensures sent.Some? ==> !isSaving && open == (old(open) && saveFails)
    {
      if Trim(title) == [] {
        return None;
      }
      isSaving := true;
      sent := UpdateOf(title, content, tags, imageDescription);
      isSaving := false;
      if !saveFails {
        open := false;
      }
    }
  }
}

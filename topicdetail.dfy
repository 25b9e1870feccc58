/** The topic screen: its list of subtopics with an add field and delete buttons, and
    the entries panel of the selected subtopic with its add-entry form. */
module TopicDetail {
  import opened Wrappers
  import opened Text
  import opened Tags
  import opened Knowledge

  /** The selection after a successful delete of `id`: cleared when it was the deleted
      subtopic, kept otherwise. */
  function SelectionAfterDelete(selected: Option<Subtopic>, id: string): Option<Subtopic> {
    if selected.Some? && selected.value.id == id then None else selected
  }

  /** No selection survives the delete of its own subtopic, and another selection is
      kept. */
  lemma SelectionAfterDeleteSpec(selected: Option<Subtopic>, id: string)
    ensures var s := SelectionAfterDelete(selected, id);
      && (s.Some? ==> s == selected && s.value.id != id)
      && (selected.Some? && selected.value.id != id ==> s == selected)
  {
  }

  class TopicDetailView {
    var selectedSubtopic: Option<Subtopic>
    var newSubtopicName: string
    var isAddingSubtopic: bool

    constructor()
      ensures selectedSubtopic == None && newSubtopicName == "" && !isAddingSubtopic
    {
      selectedSubtopic := None;
      newSubtopicName := "";
      isAddingSubtopic := false;
    }

    /** Clicking a subtopic selects it. */
    method Select(s: Subtopic)
      modifies this
      ensures selectedSubtopic == Some(s)
      ensures newSubtopicName == old(newSubtopicName) && isAddingSubtopic == old(isAddingSubtopic)
    {
      selectedSubtopic := Some(s);
    }

    /** `handleAddSubtopic`. `addFails` is whether `addSubtopic` reports an error. A
        blank name adds nothing, any other is added trimmed (see `Text.BlankToNullSpec`);
        the field is cleared only after a successful add. */
    method HandleAddSubtopic(addFails: bool) returns (added: Option<string>)
      modifies this
      ensures added == BlankToNull(old(newSubtopicName))
      ensures selectedSubtopic == old(selectedSubtopic)
      ensures added.None? ==> newSubtopicName == old(newSubtopicName) && isAddingSubtopic == old(isAddingSubtopic)
      ensures added.Some? ==> !isAddingSubtopic && newSubtopicName == (if addFails then old(newSubtopicName) else "")
    {
      if Trim(newSubtopicName) == [] {
        return None;
      }
      isAddingSubtopic := true;
      added := Some(Trim(newSubtopicName));
      isAddingSubtopic := false;
      if addFails {
        return;
      }
      newSubtopicName := "";
    }

    /** `handleDeleteSubtopic`. `deleteFails` is whether `deleteSubtopic` reports an
        error; a failed delete changes nothing. */
    method HandleDeleteSubtopic(id: string, deleteFails: bool)
      modifies this
      ensures selectedSubtopic == if deleteFails then old(selectedSubtopic) else SelectionAfterDelete(old(selectedSubtopic), id)
      ensures newSubtopicName == old(newSubtopicName) && isAddingSubtopic == old(isAddingSubtopic)
    {
      if deleteFails {
        return;
      }
      if selectedSubtopic.Some? && selectedSubtopic.value.id == id {
        selectedSubtopic := None;
      }
    }
  }

  /** The three fields of the add-entry form. */
  datatype EntryForm = EntryForm(title: string, content: string, tags: string)

  const EmptyForm: EntryForm := EntryForm("", "", "")

  /** The arguments `handleAddEntry` passes to `addEntry`. */
  datatype EntryArgs = EntryArgs(title: string, content: string, tags: seq<string>)

  /** The guard and the arguments of `handleAddEntry`. */
  function AddEntryRequest(form: EntryForm): Result<EntryArgs> {
    if Trim(form.title) == [] then Err("Please enter a title")
    else Ok(EntryArgs(Trim(form.title), Trim(form.content), ParseTags(form.tags)))
  }

  /** A blank title is refused before any add; otherwise the title and content are
      trimmed and the tags are non-empty, trimmed pieces in the order typed: the tags of
      a text with a comma are those before it followed by those after it. */
  lemma AddEntryRequestSpec(form: EntryForm)
    ensures var r := AddEntryRequest(form);
      && (r.Err? <==> AllWhitespace(form.title))
      && (r.Err? ==> r.message == "Please enter a title")
      && (r.Ok? ==> r.value.title != [] && IsTrimmed(r.value.title) && IsTrimmed(r.value.content))
      && (r.Ok? ==> forall i :: 0 <= i < |r.value.tags| ==> IsTag(r.value.tags[i]))
  {
    TrimBlank(form.title);
  }

  /** Tags keep the order they were typed in. */
  lemma AddEntryTagsInOrder(title: string, content: string, before: string, after: string)
    requires !AllWhitespace(title)
    ensures var r := AddEntryRequest(EntryForm(title, content, before + "," + after));
      r.Ok? && r.value.tags == ParseTags(before) + ParseTags(after)
  {
    TrimBlank(title);
    ParseTagsConcat(before, after);
  }

  /** The add-entry dialog of the entries panel. */
  class EntriesPanel {
    var isAddDialogOpen: bool
    var newEntry: EntryForm
    var isAdding: bool

    constructor()
      ensures !isAddDialogOpen && newEntry == EmptyForm && !isAdding
    {
      isAddDialogOpen := false;
      newEntry := EmptyForm;
      isAdding := false;
    }

    /** `handleAddEntry`. `addFails` is whether `addEntry` reports an error. A blank
        title is refused with nothing added; a successful add resets the form and
        closes the dialog; a failed one keeps both. */
    method HandleAddEntry(addFails: bool) returns (refusal: Option<string>, added: Option<EntryArgs>)
      modifies this
      ensures var r := AddEntryRequest(old(newEntry));
        && (r.Err? ==> refusal == Some(r.message) && added == None)
        && (r.Ok? ==> refusal == None && added == Some(r.value))
      ensures added.None? ==> newEntry == old(newEntry) && isAddDialogOpen == old(isAddDialogOpen) && isAdding == old(isAdding)
      ensures added.Some? && addFails ==> newEntry == old(newEntry) && isAddDialogOpen == old(isAddDialogOpen) && !isAdding
      ensures added.Some? && !addFails ==> newEntry == EmptyForm && !isAddDialogOpen && !isAdding
    {
      var request := AddEntryRequest(newEntry);
      if request.Err? {
        return Some(request.message), None;
      }
      isAdding := true;
      refusal, added := None, Some(request.value);
      isAdding := false;
      if addFails {
        return;
      }
      newEntry := EmptyForm;
      isAddDialogOpen := false;
    }
  }
}

/** What quick-capture and voice-transcribe do once the AI reply is parsed: choose the
    category (the AI's id, else a new "General" category when the user has none, else the
    first one), choose its first child or create a notes subcategory under it, and save
    the entry under that subcategory. */
module Capture {
  import opened Wrappers
  import opened Hierarchy
  import opened Serverless

  const General: string := "General"
  const GeneralColor: string := "#6366f1"

  /** The subcategory a function creates when the target category has no child: its
      name and colour. */
  datatype Notes = Notes(name: string, color: string)

  const QuickNotes: Notes := Notes("Quick Notes", "#8b5cf6")
  const VoiceNotes: Notes := Notes("Voice Notes", "#ec4899")

  /** The "General" row inserted for a user without categories, at position (2, 0, 0). */
  function GeneralRow(userId: string): NewCategory {
    NewCategory(userId, None, General, GeneralColor, 2, 0, 0)
  }

  /** The notes row inserted under `parentId`, at position (2, 0, 0). */
  function NotesRow(userId: string, parentId: string, notes: Notes): NewCategory {
    NewCategory(userId, Some(parentId), notes.name, notes.color, 2, 0, 0)
  }

  /** The results of the store calls after the AI reply, each used only when the call is
      made: the id of the created "General" row, the children of the target, the id of
      the created notes row, and the id of the saved entry. An error carries the message
      that ends up in the response. */
  datatype Store = Store(
    createdCategory: Result<string>,
    children: Result<seq<Category>>,
    createdSubcategory: Result<string>,
    savedEntry: Result<string>)

  /** A chosen category: its id and the name the response reports. */
  datatype Chosen = Chosen(id: string, name: Option<string>)

  /** The saved entry (the row the insert returns: its id and the inserted fields) and
      the category and subcategory it was filed under. */
  datatype Saved = Saved(entryId: string, entry: NewEntry, category: Chosen, subcategory: Chosen)

  /** The AI named no category and the user has none: "General" is created. */
  predicate NeedsGeneral(ai: AiFields, categories: seq<Category>) {
    !Truthy(ai.categoryId) && categories == []
  }

  /** The target category, given the id of "General" where that was created. */
  function TargetCategory(ai: AiFields, categories: seq<Category>, generalId: string): Chosen {
    if Truthy(ai.categoryId) then Chosen(ai.categoryId.value, ai.categoryName)
    else if categories == [] then Chosen(generalId, Some(General))
    else Chosen(categories[0].id, Some(categories[0].name))
  }

  /** The target subcategory: the first child, or the created notes row. */
  function TargetSubcategory(children: seq<Category>, notesId: string, notes: Notes): Chosen {
    if children == [] then Chosen(notesId, Some(notes.name))
    else Chosen(children[0].id, Some(children[0].name))
  }

  /** The whole step as a value: the outcome and the store calls made, in order.
      `owner` restricts the children query to one user (quick-capture) or leaves it to
      the row-level policy (voice-transcribe); `tags` are the entry's tags. */
  function Resolution(userId: string, ai: AiFields, categories: seq<Category>, owner: Option<string>,
                      notes: Notes, tags: seq<string>, st: Store): (Outcome<Saved>, seq<Call>)
  {
    var general := NeedsGeneral(ai, categories);
    var created := if general then [InsertCategory(GeneralRow(userId))] else [];
    if general && st.createdCategory.Err? then (Throw(st.createdCategory.message), created)
    else
      var target := TargetCategory(ai, categories, if general then st.createdCategory.value else "");
      var fetched := created + [FetchChildren(owner, target.id)];
      if st.children.Err? then (Throw(st.children.message), fetched)
      else
        var children := st.children.value;
        var makeNotes := children == [];
        var filed := fetched + if makeNotes then [InsertCategory(NotesRow(userId, target.id, notes))] else [];
        if makeNotes && st.createdSubcategory.Err? then (Throw(st.createdSubcategory.message), filed)
        else
          var sub := TargetSubcategory(children, if makeNotes then st.createdSubcategory.value else "", notes);
          var row := NewEntry(userId, sub.id, ai.title, ai.refinedContent, tags);
          var saved := filed + [InsertEntry(row)];
          if st.savedEntry.Err? then (Throw(st.savedEntry.message), saved)
          else (Continue(Saved(st.savedEntry.value, row, target, sub)), saved)
  }

  /** The step as the functions write it: `targetCategoryId` and `targetCategoryName`
      start from the AI reply and are reassigned by the two fallbacks, then the
      subcategory is found or created, then the entry is inserted; each failed store call
      throws its error. */
  method ResolveAndSave(userId: string, ai: AiFields, categories: seq<Category>, owner: Option<string>,
                        notes: Notes, tags: seq<string>, st: Store)
    returns (o: Outcome<Saved>, calls: seq<Call>)
    ensures (o, calls) == Resolution(userId, ai, categories, owner, notes, tags, st)
  {
    calls := [];
    var targetCategoryId := ai.categoryId;
    var targetCategoryName := ai.categoryName;
    if !Truthy(targetCategoryId) && |categories| == 0 {
      calls := calls + [InsertCategory(GeneralRow(userId))];
      assert calls == [InsertCategory(GeneralRow(userId))];
      assert NeedsGeneral(ai, categories);
      if st.createdCategory.Err? {
        return Throw(st.createdCategory.message), calls;
      }
      targetCategoryId := Some(st.createdCategory.value);
      targetCategoryName := Some(General);
    }
    if !Truthy(targetCategoryId) && |categories| > 0 {
      targetCategoryId := Some(categories[0].id);
      targetCategoryName := Some(categories[0].name);
    }
    var target := Chosen(targetCategoryId.value, targetCategoryName);
    assert target == TargetCategory(ai, categories, if NeedsGeneral(ai, categories) then st.createdCategory.value else "");
    calls := calls + [FetchChildren(owner, target.id)];
    if st.children.Err? {
      return Throw(st.children.message), calls;
    }
    var subcats := st.children.value;
    var targetSubcategoryId, targetSubcategoryName;
    if |subcats| > 0 {
      targetSubcategoryId := subcats[0].id;
      targetSubcategoryName := subcats[0].name;
      assert calls + [] == calls;
    } else {
      calls := calls + [InsertCategory(NotesRow(userId, target.id, notes))];
      if st.createdSubcategory.Err? {
        return Throw(st.createdSubcategory.message), calls;
      }
      targetSubcategoryId := st.createdSubcategory.value;
      targetSubcategoryName := notes.name;
    }
    var row := NewEntry(userId, targetSubcategoryId, ai.title, ai.refinedContent, tags);
    calls := calls + [InsertEntry(row)];
    if st.savedEntry.Err? {
      return Throw(st.savedEntry.message), calls;
    }
    o := Continue(Saved(st.savedEntry.value, row, target, Chosen(targetSubcategoryId, Some(targetSubcategoryName))));
  }

  /** An id the AI supplies is the target unchanged, with the AI's name: no "General" is
      created and the children of exactly that id are fetched first. */
  lemma AiCategoryKept(userId: string, ai: AiFields, categories: seq<Category>, owner: Option<string>,
                       notes: Notes, tags: seq<string>, st: Store)
    requires Truthy(ai.categoryId)
    ensures var (o, calls) := Resolution(userId, ai, categories, owner, notes, tags, st);
      && calls[0] == FetchChildren(owner, ai.categoryId.value)
      && (o.Continue? ==> o.value.category == Chosen(ai.categoryId.value, ai.categoryName))
  {
  }

  /** Without an AI id and without categories, "General" (#6366f1 at 2, 0, 0) is created
      first and becomes the target; a failed insert stops there. */
  lemma GeneralCreated(userId: string, ai: AiFields, categories: seq<Category>, owner: Option<string>,
                       notes: Notes, tags: seq<string>, st: Store)
    requires !Truthy(ai.categoryId) && categories == []
    ensures var (o, calls) := Resolution(userId, ai, categories, owner, notes, tags, st);
      && calls[0] == InsertCategory(NewCategory(userId, None, "General", "#6366f1", 2, 0, 0))
      && (st.createdCategory.Err? ==> o == Throw(st.createdCategory.message) && |calls| == 1)
      && (st.createdCategory.Ok? ==> calls[1] == FetchChildren(owner, st.createdCategory.value))
      && (o.Continue? ==> o.value.category == Chosen(st.createdCategory.value, Some("General")))
  {
  }

  /** Without an AI id, a user with categories gets the first fetched one, and nothing is
      created for the category. */
  lemma FirstCategoryUsed(userId: string, ai: AiFields, categories: seq<Category>, owner: Option<string>,
                          notes: Notes, tags: seq<string>, st: Store)
    requires !Truthy(ai.categoryId) && categories != []
    ensures var (o, calls) := Resolution(userId, ai, categories, owner, notes, tags, st);
      && calls[0] == FetchChildren(owner, categories[0].id)
      && (o.Continue? ==> o.value.category == Chosen(categories[0].id, Some(categories[0].name)))
  {
  }

  /** The first existing child of the target is used and nothing is created for it;
      without a child the notes row is created under the target and used. */
  lemma SubcategoryChosen(userId: string, ai: AiFields, categories: seq<Category>, owner: Option<string>,
                          notes: Notes, tags: seq<string>, st: Store)
    requires Resolution(userId, ai, categories, owner, notes, tags, st).0.Continue?
    ensures var (o, calls) := Resolution(userId, ai, categories, owner, notes, tags, st);
      var target := o.value.category.id;
      && st.children.Ok?
      && (st.children.value != [] ==>
            && o.value.subcategory == Chosen(st.children.value[0].id, Some(st.children.value[0].name))
            && InsertCategory(NotesRow(userId, target, notes)) !in calls)
      && (st.children.value == [] ==>
            && o.value.subcategory == Chosen(st.createdSubcategory.value, Some(notes.name))
            && calls[|calls| - 2] == InsertCategory(NewCategory(userId, Some(target), notes.name, notes.color, 2, 0, 0)))
  {
  }

  /** The saved entry is the last call: it goes under the chosen subcategory rather than
      the category, with the AI's title and refined text and the given tags. */
  lemma EntryUnderSubcategory(userId: string, ai: AiFields, categories: seq<Category>, owner: Option<string>,
                              notes: Notes, tags: seq<string>, st: Store)
    requires Resolution(userId, ai, categories, owner, notes, tags, st).0.Continue?
    ensures var (o, calls) := Resolution(userId, ai, categories, owner, notes, tags, st);
      var s := o.value;
      && s.entryId == st.savedEntry.value
      && s.entry == NewEntry(userId, s.subcategory.id, ai.title, ai.refinedContent, tags)
      && calls[|calls| - 1] == InsertEntry(s.entry)
  {
  }

  /** The number of rows a run writes: at most one new category, at most one new
      subcategory, and the entry, which is written last. */
  function Writes(calls: seq<Call>): nat {
    if calls == [] then 0 else (if IsWrite(calls[0]) then 1 else 0) + Writes(calls[1..])
  }

  /** Every run writes at most three rows, and a
      successful run writes one row for each created category plus the entry. */
  lemma WriteCount(userId: string, ai: AiFields, categories: seq<Category>, owner: Option<string>,
                   notes: Notes, tags: seq<string>, st: Store)
    ensures var (o, calls) := Resolution(userId, ai, categories, owner, notes, tags, st);
      && Writes(calls) <= 3
      && (o.Continue? ==>
            Writes(calls) == (if NeedsGeneral(ai, categories) then 1 else 0)
                             + (if st.children.value == [] then 1 else 0) + 1)
  {
    var (o, calls) := Resolution(userId, ai, categories, owner, notes, tags, st);
    var general := NeedsGeneral(ai, categories);
    var created: seq<Call> := if general then [InsertCategory(GeneralRow(userId))] else [];
    if !(general && st.createdCategory.Err?) {
      var target := TargetCategory(ai, categories, if general then st.createdCategory.value else "");
      var fetched := created + [FetchChildren(owner, target.id)];
      WritesAppend(created, [FetchChildren(owner, target.id)]);
      if st.children.Ok? {
        var makeNotes := st.children.value == [];
        var notesCall: seq<Call> := if makeNotes then [InsertCategory(NotesRow(userId, target.id, notes))] else [];
        WritesAppend(fetched, notesCall);
        var filed := fetched + notesCall;
        if !(makeNotes && st.createdSubcategory.Err?) {
          var sub := TargetSubcategory(st.children.value, if makeNotes then st.createdSubcategory.value else "", notes);
          WritesAppend(filed, [InsertEntry(NewEntry(userId, sub.id, ai.title, ai.refinedContent, tags))]);
        }
      }
    }
  }

  lemma {:induction false} WritesAppend(a: seq<Call>, b: seq<Call>)
    ensures Writes(a + b) == Writes(a) + Writes(b)
  {
    if a == [] {
      assert a + b == b;
    } else {
      assert (a + b)[1..] == a[1..] + b;
      WritesAppend(a[1..], b);
    }
  }
}

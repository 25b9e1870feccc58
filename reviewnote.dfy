/** ReviewNoteModal.tsx: the dialog in which a note the AI has produced is reviewed,
    given a category and saved as an entry. */
module ReviewNote {
  import opened Wrappers
  import opened Text
  import opened Hierarchy
  import Seqs

  /** An item of the category select box. */
  datatype SelectOption = SelectOption(id: string, caption: string, isSubcategory: bool)

  /** The indent in front of a subcategory's label. */
  const SubPrefix: string := "  └─ "

  function OptionOf(r: Row): SelectOption {
    SelectOption(r.category.id, if r.isSub then SubPrefix + r.category.name else r.category.name, r.isSub)
  }

  function OptionsOf(rows: seq<Row>): (opts: seq<SelectOption>)
    ensures |opts| == |rows|
    ensures forall i :: 0 <= i < |rows| ==> opts[i] == OptionOf(rows[i])
  {
    seq(|rows|, i requires 0 <= i < |rows| => OptionOf(rows[i]))
  }

  lemma OptionsOfAppend(a: seq<Row>, b: seq<Row>)
    ensures OptionsOf(a + b) == OptionsOf(a) + OptionsOf(b)
  {
  }

  /** The inner loop of `categoryOptions`: one indented option per child appended to
      `options`, which holds the options of the rows `before`. */
  method AppendChildOptions(options: seq<SelectOption>, ghost before: seq<Row>, children: seq<Category>)
    returns (out: seq<SelectOption>)
    requires options == OptionsOf(before)
    ensures out == OptionsOf(before + SubRows(children))
  {
    out := options;
    assert before + SubRows(children[..0]) == before;
    for k := 0 to |children|
      invariant out == OptionsOf(before + SubRows(children[..k]))
    {
      var sub := children[k];
      SubRowsSnoc(children, k);
      Seqs.ConcatAssoc(before, SubRows(children[..k]), [Row(sub, true)]);
      OptionsOfAppend(before + SubRows(children[..k]), [Row(sub, true)]);
      out := out + [SelectOption(sub.id, SubPrefix + sub.name, true)];
    }
    assert children[..|children|] == children;
  }

  /** The `categoryOptions` memo: two nested loops pushing one option per top-level
      category and then one per child of it. The options are the flattened hierarchy,
      row by row. */
  method BuildCategoryOptions(categories: seq<Category>) returns (options: seq<SelectOption>)
    ensures options == OptionsOf(Flatten(categories))
  {
    var mains := Mains(categories);
    var subs := Subs(categories);
    options := [];
    for i := 0 to |mains|
      invariant options == OptionsOf(FlattenFrom(mains[..i], subs))
    {
      var main := mains[i];
      ghost var top := FlattenFrom(mains[..i], subs) + [Row(main, false)];
      OptionsOfAppend(FlattenFrom(mains[..i], subs), [Row(main, false)]);
      options := options + [SelectOption(main.id, main.name, false)];
      options := AppendChildOptions(options, top, ChildrenOf(subs, main));
      FlattenFromSnoc(mains[..i], main, subs);
      Seqs.TakeSnoc(mains, i);
    }
    assert mains[..|mains|] == mains;
  }

  predicate IsTopOption(o: SelectOption) {
    !o.isSubcategory
  }

  /** The option a top-level category gets: its own name, not indented. */
  function TopOptions(mains: seq<Category>): (opts: seq<SelectOption>)
    ensures |opts| == |mains|
    ensures forall i :: 0 <= i < |mains| ==> opts[i] == SelectOption(mains[i].id, mains[i].name, false)
  {
    seq(|mains|, i requires 0 <= i < |mains| => SelectOption(mains[i].id, mains[i].name, false))
  }

  lemma {:induction false} TopOptionsOfRows(rows: seq<Row>)
    ensures Seqs.Filter(OptionsOf(rows), IsTopOption) == TopOptions(MainsOfRows(rows))
  {
    if rows != [] {
      var opts, rest := OptionsOf(rows), MainsOfRows(rows[1..]);
      assert opts[1..] == OptionsOf(rows[1..]);
      TopOptionsOfRows(rows[1..]);
      if rows[0].isSub {
        assert Seqs.Filter(opts, IsTopOption) == Seqs.Filter(opts[1..], IsTopOption);
        assert MainsOfRows(rows) == [] + rest;
      } else {
        var c := rows[0].category;
        assert Seqs.Filter(opts, IsTopOption) == [opts[0]] + Seqs.Filter(opts[1..], IsTopOption);
        assert MainsOfRows(rows) == [c] + rest;
        assert TopOptions([c] + rest) == [SelectOption(c.id, c.name, false)] + TopOptions(rest);
      }
    }
  }

  /** The options that are not subcategories are exactly one per top-level category,
      labelled with its name, in input order. */
  lemma TopLevelOptions(categories: seq<Category>)
    ensures Seqs.Filter(OptionsOf(Flatten(categories)), IsTopOption) == TopOptions(Mains(categories))
  {
    TopOptionsOfRows(Flatten(categories));
    TopLevelRowsInOrder(categories);
  }

  /** The option a child gets: indented name, flagged as a subcategory. */
  function ChildOptions(children: seq<Category>): (opts: seq<SelectOption>)
    ensures |opts| == |children|
    ensures forall i :: 0 <= i < |children| ==> opts[i] == SelectOption(children[i].id, SubPrefix + children[i].name, true)
  {
    seq(|children|, i requires 0 <= i < |children| => SelectOption(children[i].id, SubPrefix + children[i].name, true))
  }

  /** Directly after the option of the j-th top-level category come the options of
      exactly its children, in input order. */
  lemma OptionsBlock(categories: seq<Category>, j: nat)
    requires j < |Mains(categories)|
    ensures var mains, subs := Mains(categories), Subs(categories);
      OptionsOf(Flatten(categories))
      == OptionsOf(FlattenFrom(mains[..j], subs))
         + [SelectOption(mains[j].id, mains[j].name, false)]
         + ChildOptions(ChildrenOf(subs, mains[j]))
         + OptionsOf(FlattenFrom(mains[j + 1..], subs))
  {
    var mains, subs := Mains(categories), Subs(categories);
    BlockOfMain(categories, j);
    OptionsOfBlock(FlattenFrom(mains[..j], subs), mains[j], ChildrenOf(subs, mains[j]), FlattenFrom(mains[j + 1..], subs));
  }

  lemma OptionsOfBlock(before: seq<Row>, main: Category, children: seq<Category>, after: seq<Row>)
    ensures OptionsOf(before + [Row(main, false)] + SubRows(children) + after)
         == OptionsOf(before) + [SelectOption(main.id, main.name, false)] + ChildOptions(children) + OptionsOf(after)
  {
    var b, c := [Row(main, false)], SubRows(children);
    OptionsOfAppend(before + b + c, after);
    OptionsOfAppend(before + b, c);
    OptionsOfAppend(before, b);
    OptionsOfSubRows(children);
  }

  lemma OptionsOfSubRows(children: seq<Category>)
    ensures OptionsOf(SubRows(children)) == ChildOptions(children)
  {
  }

  /** With distinct ids, a subcategory whose parent is not a top-level category of the
      list gets no option. */
  lemma OrphanHasNoOption(categories: seq<Category>, c: Category)
    requires forall i, j :: 0 <= i < j < |categories| ==> categories[i].id != categories[j].id
    requires c in categories && IsSub(c)
    requires forall m :: m in Mains(categories) ==> m.id != c.parentId.value
    ensures forall k :: 0 <= k < |OptionsOf(Flatten(categories))| ==> OptionsOf(Flatten(categories))[k].id != c.id
  {
    forall k | 0 <= k < |Flatten(categories)| ensures OptionsOf(Flatten(categories))[k].id != c.id {
      RowsComeFromInput(categories, k);
      OrphansNeverShown(categories, c);
    }
  }

  /** One option per top-level category plus one per child. */
  lemma OptionCount(categories: seq<Category>)
    ensures |OptionsOf(Flatten(categories))| == RowCount(Mains(categories), Subs(categories))
  {
    RowCountOfFlatten(categories);
  }

  /** What the AI made of a recording or a thought. */
  datatype ProcessedNote = ProcessedNote(
    title: string, content: string,
    suggestedCategoryId: Option<string>, suggestedCategoryName: Option<string>,
    parentCategoryName: Option<string>)

  /** The row `handleSave` inserts into `entries`. */
  datatype NewEntry = NewEntry(userId: string, categoryId: string, title: string, content: string, tags: seq<string>)

  /** The guards and the payload of `handleSave`. */
  function SaveRequest(userId: string, title: string, content: string, selected: string): Result<NewEntry> {
    if Trim(title) == [] then Err("Please enter a title")
    else if selected == "" then Err("Please select a category")
    else Ok(NewEntry(userId, selected, Trim(title), Trim(content), []))
  }

  /** A blank title is refused first, a missing selection second; otherwise the entry
      carries the trimmed title and content, the selected category and no tags. */
  lemma SaveRequestGuards(userId: string, title: string, content: string, selected: string)
    ensures var r := SaveRequest(userId, title, content, selected);
      && (r.Ok? <==> !AllWhitespace(title) && selected != "")
      && (AllWhitespace(title) ==> r == Err("Please enter a title"))
      && (!AllWhitespace(title) && selected == "" ==> r == Err("Please select a category"))
      && (r.Ok? ==> r.value.title != [] && IsTrimmed(r.value.title) && IsTrimmed(r.value.content))
      && (r.Ok? ==> r.value.categoryId == selected && r.value.userId == userId && r.value.tags == [])
  {
    TrimBlank(title);
  }

  /** `categories.find(c => c.id === id)?.name || 'category'`. */
  function SavedCategoryName(categories: seq<Category>, id: string): string {
    if categories == [] then "category"
    else if categories[0].id == id then (if categories[0].name != "" then categories[0].name else "category")
    else SavedCategoryName(categories[1..], id)
  }

  /** The toast `handleSave` ends with. */
  datatype SaveOutcome = Refused(message: string) | SaveFailed | SavedTo(categoryName: string)

  class ReviewNoteModal {
    /** The `open` prop, written back through `onOpenChange`. */
    var open: bool
    var title: string
    var content: string
    var selectedCategoryId: string
    var isSaving: bool

    constructor(isOpen: bool)
      ensures open == isOpen && title == "" && content == "" && selectedCategoryId == "" && !isSaving
    {
      open := isOpen;
      title := "";
      content := "";
      selectedCategoryId := "";
      isSaving := false;
    }

    /** The sync memo: when the dialog is open with a note, the fields take the note's
        title and content and the selection its suggested category, or none. */
    method Sync(note: Option<ProcessedNote>, isOpen: bool)
      modifies this
      ensures open == isOpen && isSaving == old(isSaving)
      ensures note.Some? && isOpen ==>
        title == note.value.title && content == note.value.content
        && selectedCategoryId == OrElse(note.value.suggestedCategoryId, "")
      ensures !(note.Some? && isOpen) ==>
        title == old(title) && content == old(content) && selectedCategoryId == old(selectedCategoryId)
    {
      open := isOpen;
      if note.Some? && isOpen {
        title := note.value.title;
        content := note.value.content;
        selectedCategoryId := OrElse(note.value.suggestedCategoryId, "");
      }
    }

    /** `handleSave`. `insertFails` is the store's answer to the insert. A refused save
        inserts nothing and changes nothing; a successful one closes the dialog; a
        failed one leaves it open. The form fields are never changed. */
    method HandleSave(userId: string, categories: seq<Category>, insertFails: bool)
      returns (outcome: SaveOutcome, inserted: Option<NewEntry>)
      modifies this
      ensures title == old(title) && content == old(content) && selectedCategoryId == old(selectedCategoryId)
      ensures var req := SaveRequest(userId, old(title), old(content), old(selectedCategoryId));
        if req.Err? then
          outcome == Refused(req.message) && inserted == None
          && open == old(open) && isSaving == old(isSaving)
        else
          inserted == Some(req.value) && !isSaving
          && (insertFails ==> outcome == SaveFailed && open == old(open))
          && (!insertFails ==> outcome == SavedTo(SavedCategoryName(categories, selectedCategoryId)) && !open)
    {
      var req := SaveRequest(userId, title, content, selectedCategoryId);
      if req.Err? {
        return Refused(req.message), None;
      }
      isSaving := true;
      inserted := Some(req.value);
      if insertFails {
        outcome := SaveFailed;
      } else {
        outcome := SavedTo(SavedCategoryName(categories, selectedCategoryId));
        open := false;
      }
      isSaving := false;
    }

    /** `handleDiscard`: close and clear the form. */
    method HandleDiscard()
      modifies this
      ensures !open && title == "" && content == "" && selectedCategoryId == "" && isSaving == old(isSaving)
    {
      open := false;
      title := "";
      content := "";
      selectedCategoryId := "";
    }
  }
}

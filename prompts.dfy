/** The category context the serverless functions put into the AI prompt: the
    indented hierarchy of process-voice and process-thought, and the flat list of
    quick-capture and voice-transcribe. */
module Prompts {
  import opened Text
  import opened Hierarchy
  import Seqs

  /** `- ${name} (ID: ${id})` */
  function MainLine(c: Category): string {
    "- " + c.name + " (ID: " + c.id + ")"
  }

  /** `  └─ ${name} (ID: ${id})` */
  function SubLine(c: Category): string {
    "  └─ " + c.name + " (ID: " + c.id + ")"
  }

  function LineOf(r: Row): string {
    if r.isSub then SubLine(r.category) else MainLine(r.category)
  }

  /** A row as a line ending in a newline. */
  function LineText(r: Row): string {
    LineOf(r) + "\n"
  }

  /** Every row as a line ending in a newline. */
  function LinesText(rows: seq<Row>): string {
    if rows == [] then "" else LineText(rows[0]) + LinesText(rows[1..])
  }

  const NoCategoriesYet: string := "No categories exist yet"

  /** The `categoryHierarchy` text: one line per row of the flattened hierarchy, or the
      fallback when that is empty. */
  function HierarchyText(categories: seq<Category>): string {
    var text := LinesText(Flatten(categories));
    if text == "" then NoCategoriesYet else text
  }

  lemma {:induction false} LinesTextAppend(a: seq<Row>, b: seq<Row>)
    ensures LinesText(a + b) == LinesText(a) + LinesText(b)
  {
    if a == [] {
      assert a + b == b;
    } else {
      assert (a + b)[1..] == a[1..] + b;
      LinesTextAppend(a[1..], b);
    }
  }

  lemma LinesTextSnoc(rows: seq<Row>, r: Row)
    ensures LinesText(rows + [r]) == LinesText(rows) + LineText(r)
  {
    LinesTextAppend(rows, [r]);
  }

  /** The inner loop of the hierarchy builder: one `  └─ ` line per child appended to
      `text`, which holds the lines of the rows `before`. */
  method AppendChildLines(text: string, ghost before: seq<Row>, children: seq<Category>) returns (out: string)
    requires text == LinesText(before)
    ensures out == LinesText(before + SubRows(children))
  {
    out := text;
    assert before + SubRows(children[..0]) == before;
    for k := 0 to |children|
      invariant out == LinesText(before + SubRows(children[..k]))
    {
      var sub := children[k];
      SubRowsSnoc(children, k);
      Seqs.ConcatAssoc(before, SubRows(children[..k]), [Row(sub, true)]);
      LinesTextSnoc(before + SubRows(children[..k]), Row(sub, true));
      out := out + LineText(Row(sub, true));
    }
    assert children[..|children|] == children;
  }

  /** The nested loops of process-voice and process-thought, appending `+=` one line
      per top-level category and one per child, then the fallback for an empty text. */
  method BuildCategoryHierarchy(categories: seq<Category>) returns (text: string)
    ensures text == HierarchyText(categories)
  {
    var mains := Mains(categories);
    var subs := Subs(categories);
    text := "";
    for i := 0 to |mains|
      invariant text == LinesText(FlattenFrom(mains[..i], subs))
    {
      var main := mains[i];
      ghost var top := FlattenFrom(mains[..i], subs) + [Row(main, false)];
      LinesTextSnoc(FlattenFrom(mains[..i], subs), Row(main, false));
      text := text + LineText(Row(main, false));
      text := AppendChildLines(text, top, ChildrenOf(subs, main));
      FlattenFromSnoc(mains[..i], main, subs);
      Seqs.TakeSnoc(mains, i);
    }
    assert mains[..|mains|] == mains;
    if text == "" {
      text := NoCategoriesYet;
    }
  }

  /** The fallback is used exactly when there is no top-level category; otherwise the
      text starts with the first top-level category's line. */
  lemma HierarchyFallback(categories: seq<Category>)
    ensures HierarchyText(categories) == NoCategoriesYet <==> Mains(categories) == []
    ensures Mains(categories) != [] ==>
      HierarchyText(categories)[..|MainLine(Mains(categories)[0])|] == MainLine(Mains(categories)[0])
  {
    var rows := Flatten(categories);
    if Mains(categories) != [] {
      var m := Mains(categories)[0];
      assert rows[0] == Row(m, false);
      assert LinesText(rows) == LineText(rows[0]) + LinesText(rows[1..]);
      assert LinesText(rows)[0] == '-';
      assert NoCategoriesYet[0] == 'N';
    }
  }

  /** The lines without their newlines. */
  function LineBodies(rows: seq<Row>): (lines: seq<string>)
    ensures |lines| == |rows|
    ensures forall i :: 0 <= i < |rows| ==> lines[i] == LineOf(rows[i])
  {
    seq(|rows|, i requires 0 <= i < |rows| => LineOf(rows[i]))
  }

  lemma {:induction false} LinesTextIsJoin(rows: seq<Row>)
    requires rows != []
    ensures LinesText(rows) == Join(LineBodies(rows), "\n") + "\n"
  {
    if |rows| == 1 {
      assert LinesText(rows[1..]) == "";
    } else {
      LinesTextIsJoin(rows[1..]);
      assert LineBodies(rows) == [LineOf(rows[0])] + LineBodies(rows[1..]);
      JoinCons(LineOf(rows[0]), LineBodies(rows[1..]), "\n");
      Seqs.ConcatAssoc(LineOf(rows[0]) + "\n", Join(LineBodies(rows[1..]), "\n"), "\n");
    }
  }

  /** Neither a name nor an id spans lines. */
  predicate SingleLine(c: Category) {
    '\n' !in c.name && '\n' !in c.id
  }

  lemma LineOfSingleLine(r: Row)
    requires SingleLine(r.category)
    ensures '\n' !in LineOf(r)
  {
  }

  /** Read line by line, the hierarchy text is one line per row of the flattened
      hierarchy, in order, followed by the empty piece after the final newline. */
  lemma HierarchyLines(categories: seq<Category>)
    requires Mains(categories) != []
    requires forall i :: 0 <= i < |categories| ==> SingleLine(categories[i])
    ensures Split(HierarchyText(categories), '\n') == LineBodies(Flatten(categories)) + [""]
  {
    var rows := Flatten(categories);
    HierarchyFallback(categories);
    assert rows != [] by {
      assert rows[0] == Row(Mains(categories)[0], false);
    }
    LinesTextIsJoin(rows);
    var bodies := LineBodies(rows);
    forall i | 0 <= i < |bodies| ensures '\n' !in bodies[i] {
      RowsComeFromInput(categories, i);
      LineOfSingleLine(rows[i]);
    }
    SplitJoin(bodies, '\n');
    SplitConcat(Join(bodies, "\n"), "", '\n');
    assert Join(bodies, "\n") + ['\n'] + "" == Join(bodies, "\n") + "\n";
  }

  const NoCategories: string := "No categories exist"

  /** `categories.map(c => `- ${c.name} (ID: ${c.id})`)` */
  function ListLines(categories: seq<Category>): (lines: seq<string>)
    ensures |lines| == |categories|
    ensures forall i :: 0 <= i < |categories| ==> lines[i] == MainLine(categories[i])
  {
    seq(|categories|, i requires 0 <= i < |categories| => MainLine(categories[i]))
  }

  /** The `categoryList` text of quick-capture and voice-transcribe: the lines joined
      by newlines, or the fallback when the joined text is empty. */
  function CategoryList(categories: seq<Category>): string {
    var text := Join(ListLines(categories), "\n");
    if text == "" then NoCategories else text
  }

  /** The fallback is used exactly when there are no categories. */
  lemma CategoryListFallback(categories: seq<Category>)
    ensures CategoryList(categories) == NoCategories <==> categories == []
  {
    if categories != [] {
      var lines := ListLines(categories);
      if |lines| > 1 {
        JoinCons(lines[0], lines[1..], "\n");
        assert lines == [lines[0]] + lines[1..];
      }
      assert Join(lines, "\n")[0] == '-';
      assert NoCategories[0] == 'N';
    }
  }

  /** Read line by line, the list is one line per category, in order. */
  lemma CategoryListLines(categories: seq<Category>)
    requires categories != []
    requires forall i :: 0 <= i < |categories| ==> SingleLine(categories[i])
    ensures Split(CategoryList(categories), '\n') == ListLines(categories)
  {
    CategoryListFallback(categories);
    SplitJoin(ListLines(categories), '\n');
  }
}

/** The two-level category hierarchy as the select box of ReviewNoteModal.tsx and the
    prompts of the process-voice and process-thought functions lay it out: each
    top-level category, followed by its own subcategories, in input order. */
module Hierarchy {
  import opened Wrappers
  import Seqs

  /** A row of the `categories` table, as far as the hierarchy needs it. */
  datatype Category = Category(id: string, name: string, color: string, parentId: Option<string>)

  /** `!c.parent_id`: a top-level category (a null or empty parent). */
  predicate IsMain(c: Category) {
    !Truthy(c.parentId)
  }

  /** `c.parent_id` is truthy: a subcategory. */
  predicate IsSub(c: Category) {
    Truthy(c.parentId)
  }

  /** `s.parent_id === main.id` for a subcategory `s`. */
  predicate IsChildOf(main: Category, c: Category) {
    IsSub(c) && c.parentId.value == main.id
  }

  /** `categories.filter(c => !c.parent_id)` */
  function Mains(cs: seq<Category>): seq<Category> {
    Seqs.Filter(cs, IsMain)
  }

  /** `categories.filter(c => c.parent_id)` */
  function Subs(cs: seq<Category>): seq<Category> {
    Seqs.Filter(cs, IsSub)
  }

  /** `subcategories.filter(s => s.parent_id === main.id)` */
  function ChildrenOf(subs: seq<Category>, main: Category): (children: seq<Category>)
    ensures forall i :: 0 <= i < |children| ==> children[i] in subs && IsChildOf(main, children[i])
    ensures forall i :: 0 <= i < |subs| && IsChildOf(main, subs[i]) ==> subs[i] in children
  {
    var isChild := c => IsChildOf(main, c);
    Seqs.FilterMembers(subs, isChild);
    Seqs.Filter(subs, isChild)
  }

  /** One line of the flattened hierarchy: a category and whether it is shown indented. */
  datatype Row = Row(category: Category, isSub: bool)

  function SubRows(children: seq<Category>): (rows: seq<Row>)
    ensures |rows| == |children|
    ensures forall i :: 0 <= i < |rows| ==> rows[i] == Row(children[i], true)
  {
    seq(|children|, i requires 0 <= i < |children| => Row(children[i], true))
  }

  lemma SubRowsSnoc(children: seq<Category>, k: nat)
    requires k < |children|
    ensures SubRows(children[..k + 1]) == SubRows(children[..k]) + [Row(children[k], true)]
  {
  }

  /** The rows for the given top-level categories, each followed by its children. */
  function FlattenFrom(mains: seq<Category>, subs: seq<Category>): seq<Row> {
    if mains == [] then []
    else [Row(mains[0], false)] + SubRows(ChildrenOf(subs, mains[0])) + FlattenFrom(mains[1..], subs)
  }

  /** The flattened hierarchy of a category list. */
  function Flatten(cs: seq<Category>): seq<Row> {
    FlattenFrom(Mains(cs), Subs(cs))
  }

  /** Appending one more top-level category appends its block of rows: the shape the
      nested loops build the result in. */
  lemma {:induction false} FlattenFromSnoc(mains: seq<Category>, m: Category, subs: seq<Category>)
    ensures FlattenFrom(mains + [m], subs)
         == FlattenFrom(mains, subs) + [Row(m, false)] + SubRows(ChildrenOf(subs, m))
  {
    if mains == [] {
      assert [m][1..] == [];
      assert mains + [m] == [m];
    } else {
      assert (mains + [m])[1..] == mains[1..] + [m];
      FlattenFromSnoc(mains[1..], m, subs);
    }
  }

  /** FlattenFrom distributes over a split of the top-level list. */
  lemma {:induction false} FlattenFromAppend(a: seq<Category>, b: seq<Category>, subs: seq<Category>)
    ensures FlattenFrom(a + b, subs) == FlattenFrom(a, subs) + FlattenFrom(b, subs)
  {
    if a == [] {
      assert a + b == b;
    } else {
      assert (a + b)[1..] == a[1..] + b;
      FlattenFromAppend(a[1..], b, subs);
    }
  }

  /** The top-level categories of a list of rows, in order. */
  function MainsOfRows(rows: seq<Row>): seq<Category> {
    if rows == [] then []
    else (if rows[0].isSub then [] else [rows[0].category]) + MainsOfRows(rows[1..])
  }

  lemma {:induction false} MainsOfRowsAppend(a: seq<Row>, b: seq<Row>)
    ensures MainsOfRows(a + b) == MainsOfRows(a) + MainsOfRows(b)
  {
    if a == [] {
      assert a + b == b;
    } else {
      assert (a + b)[1..] == a[1..] + b;
      MainsOfRowsAppend(a[1..], b);
    }
  }

  lemma {:induction false} MainsOfSubRows(children: seq<Category>)
    ensures MainsOfRows(SubRows(children)) == []
  {
    if children != [] {
      assert SubRows(children)[1..] == SubRows(children[1..]);
      MainsOfSubRows(children[1..]);
    }
  }

  lemma {:induction false} MainsOfFlattenFrom(mains: seq<Category>, subs: seq<Category>)
    ensures MainsOfRows(FlattenFrom(mains, subs)) == mains
  {
    if mains != [] {
      var block := [Row(mains[0], false)] + SubRows(ChildrenOf(subs, mains[0]));
      MainsOfRowsAppend(block, FlattenFrom(mains[1..], subs));
      MainsOfRowsAppend([Row(mains[0], false)], SubRows(ChildrenOf(subs, mains[0])));
      MainsOfSubRows(ChildrenOf(subs, mains[0]));
      MainsOfFlattenFrom(mains[1..], subs);
      assert mains == [mains[0]] + mains[1..];
    }
  }

  /** The unindented rows are exactly the top-level categories, each once and in input
      order. */
  lemma TopLevelRowsInOrder(cs: seq<Category>)
    ensures MainsOfRows(Flatten(cs)) == Mains(cs)
  {
    MainsOfFlattenFrom(Mains(cs), Subs(cs));
  }

  /** Directly after the row of the j-th top-level category come the rows of its
      children (the subcategories whose parent is its id, in input order) and nothing
      else, then the block of the next top-level category. */
  lemma BlockOfMain(cs: seq<Category>, j: nat)
    requires j < |Mains(cs)|
    ensures var mains := Mains(cs);
      Flatten(cs) == FlattenFrom(mains[..j], Subs(cs))
                     + [Row(mains[j], false)] + SubRows(ChildrenOf(Subs(cs), mains[j]))
                     + FlattenFrom(mains[j + 1..], Subs(cs))
  {
    BlockAt(Mains(cs), Subs(cs), j);
  }

  lemma BlockAt(mains: seq<Category>, subs: seq<Category>, j: nat)
    requires j < |mains|
    ensures FlattenFrom(mains, subs)
         == FlattenFrom(mains[..j], subs) + [Row(mains[j], false)] + SubRows(ChildrenOf(subs, mains[j]))
            + FlattenFrom(mains[j + 1..], subs)
  {
    var pre, post := mains[..j], mains[j..];
    assert mains == pre + post;
    FlattenFromAppend(pre, post, subs);
    assert post[0] == mains[j];
    assert post[1..] == mains[j + 1..];
  }

  /** How many rows a list of top-level categories yields: one per top-level category
      plus one per child. */
  function RowCount(mains: seq<Category>, subs: seq<Category>): nat {
    if mains == [] then 0 else 1 + |ChildrenOf(subs, mains[0])| + RowCount(mains[1..], subs)
  }

  lemma {:induction false} FlattenFromLength(mains: seq<Category>, subs: seq<Category>)
    ensures |FlattenFrom(mains, subs)| == RowCount(mains, subs)
  {
    if mains != [] {
      FlattenFromLength(mains[1..], subs);
    }
  }

  /** The number of rows is the sum over top-level categories of one plus the number
      of their children. */
  lemma RowCountOfFlatten(cs: seq<Category>)
    ensures |Flatten(cs)| == RowCount(Mains(cs), Subs(cs))
  {
    FlattenFromLength(Mains(cs), Subs(cs));
  }

  /** Every row of FlattenFrom is either one of the given top-level categories, not
      indented, or a child of one of them, indented. */
  lemma {:induction false} FlattenFromRows(mains: seq<Category>, subs: seq<Category>, k: nat)
    requires k < |FlattenFrom(mains, subs)|
    ensures var r := FlattenFrom(mains, subs)[k];
      if r.isSub then r.category in subs && exists m :: m in mains && IsChildOf(m, r.category)
      else r.category in mains
  {
    var children := ChildrenOf(subs, mains[0]);
    var head := [Row(mains[0], false)] + SubRows(children);
    if k == 0 {
    } else if k <= |children| {
      assert FlattenFrom(mains, subs)[k] == Row(children[k - 1], true);
      assert children[k - 1] in subs && IsChildOf(mains[0], children[k - 1]);
    } else {
      assert FlattenFrom(mains, subs)[k] == FlattenFrom(mains[1..], subs)[k - |head|];
      FlattenFromRows(mains[1..], subs, k - |head|);
      var r := FlattenFrom(mains, subs)[k];
      if r.isSub {
        var m :| m in mains[1..] && IsChildOf(m, r.category);
        assert m in mains;
      }
    }
  }

  /** Every row shows a category of the input, indented exactly when it is a
      subcategory; an indented row always has its parent among the top-level
      categories of the input. */
  lemma RowsComeFromInput(cs: seq<Category>, k: nat)
    requires k < |Flatten(cs)|
    ensures var r := Flatten(cs)[k];
      && r.category in cs
      && r.isSub == IsSub(r.category)
      && (r.isSub ==> exists m :: m in Mains(cs) && IsChildOf(m, r.category))
  {
    FlattenFromRows(Mains(cs), Subs(cs), k);
    Seqs.FilterMembers(cs, IsMain);
    Seqs.FilterMembers(cs, IsSub);
  }

  /** A subcategory whose parent is not a top-level category of the list never shows. */
  lemma OrphansNeverShown(cs: seq<Category>, c: Category)
    requires IsSub(c)
    requires forall m :: m in Mains(cs) ==> m.id != c.parentId.value
    ensures forall k :: 0 <= k < |Flatten(cs)| ==> Flatten(cs)[k].category != c
  {
    forall k | 0 <= k < |Flatten(cs)| ensures Flatten(cs)[k].category != c {
      RowsComeFromInput(cs, k);
    }
  }

  /** Every top-level category of the input shows, unindented. */
  lemma {:induction false} MainsShown(mains: seq<Category>, subs: seq<Category>, m: Category)
    requires m in mains
    ensures Row(m, false) in FlattenFrom(mains, subs)
  {
    if mains[0] != m {
      MainsShown(mains[1..], subs, m);
    }
  }

  /** Every child of a top-level category of the input shows, indented. */
  lemma {:induction false} ChildrenShown(mains: seq<Category>, subs: seq<Category>, m: Category, c: Category)
    requires m in mains && c in subs && IsChildOf(m, c)
    ensures Row(c, true) in FlattenFrom(mains, subs)
  {
    if mains[0] == m {
      var children := ChildrenOf(subs, m);
      assert c in children;
      var i :| 0 <= i < |children| && children[i] == c;
      assert FlattenFrom(mains, subs)[1 + i] == Row(c, true);
    } else {
      ChildrenShown(mains[1..], subs, m, c);
    }
  }

  /** Completeness: every top-level category, and every subcategory whose parent is a
      top-level category of the list, has its row. */
  lemma AllReachableShown(cs: seq<Category>, c: Category)
    requires c in cs
    ensures IsMain(c) ==> Row(c, false) in Flatten(cs)
    ensures (IsSub(c) && exists m :: m in Mains(cs) && IsChildOf(m, c)) ==> Row(c, true) in Flatten(cs)
  {
    Seqs.FilterMembers(cs, IsMain);
    Seqs.FilterMembers(cs, IsSub);
    if IsMain(c) {
      MainsShown(Mains(cs), Subs(cs), c);
    }
    if IsSub(c) && exists m :: m in Mains(cs) && IsChildOf(m, c) {
      var m :| m in Mains(cs) && IsChildOf(m, c);
      ChildrenShown(Mains(cs), Subs(cs), m, c);
    }
  }
}

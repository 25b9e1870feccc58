/** The local list updates the four data hooks apply after a successful store call:
    `[...prev, row]` or `[row, ...prev]` on add, `prev.map(x => x.id === id ? row : x)` on
    update, and `prev.filter(x => x.id !== id)` on delete. `idOf` reads a row's id. */
module ListCache {
  import Seqs

  /** The `created_at` order a list query asks for. */
  datatype Order = Ascending | Descending

  /** `prev.map(x => x.id === id ? row : x)`. */
  function Replaced<T>(xs: seq<T>, id: string, row: T, idOf: T -> string): (r: seq<T>)
    ensures |r| == |xs|
  {
    seq(|xs|, i requires 0 <= i < |xs| => if idOf(xs[i]) == id then row else xs[i])
  }

  /** `prev.filter(x => x.id !== id)`. */
  function Removed<T>(xs: seq<T>, id: string, idOf: T -> string): seq<T> {
    Seqs.Filter(xs, x => idOf(x) != id)
  }

  /** No row of `xs` has this id. */
  predicate Fresh<T>(xs: seq<T>, id: string, idOf: T -> string) {
    forall i :: 0 <= i < |xs| ==> idOf(xs[i]) != id
  }

  /** An update replaces every row with that id by the new row, keeps every other row
      where it was, and keeps the length; without a row of that id it changes nothing. */
  lemma ReplacedSpec<T>(xs: seq<T>, id: string, row: T, idOf: T -> string)
    ensures forall i :: 0 <= i < |xs| && idOf(xs[i]) == id ==> Replaced(xs, id, row, idOf)[i] == row
    ensures forall i :: 0 <= i < |xs| && idOf(xs[i]) != id ==> Replaced(xs, id, row, idOf)[i] == xs[i]
    ensures Fresh(xs, id, idOf) ==> Replaced(xs, id, row, idOf) == xs
  {
  }

  /** A delete leaves no row with that id, keeps every other row as often as it was
      there, and keeps their order: deleting from a concatenation deletes from each part. */
  lemma RemovedSpec<T>(xs: seq<T>, ys: seq<T>, id: string, idOf: T -> string, x: T)
    ensures Fresh(Removed(xs, id, idOf), id, idOf)
    ensures multiset(Removed(xs, id, idOf))[x] == if idOf(x) != id then multiset(xs)[x] else 0
    ensures Removed(xs + ys, id, idOf) == Removed(xs, id, idOf) + Removed(ys, id, idOf)
    ensures Fresh(xs, id, idOf) ==> Removed(xs, id, idOf) == xs
  {
    Seqs.FilterCount(xs, x => idOf(x) != id, x);
    Seqs.FilterAppend(xs, ys, x => idOf(x) != id);
    if Fresh(xs, id, idOf) {
      Seqs.FilterAll(xs, x => idOf(x) != id);
    }
  }

  /** Deleting a row just added, under an id no other row has, gives back the list, for
      an append and for a prepend alike. */
  lemma AddThenRemove<T>(xs: seq<T>, row: T, idOf: T -> string)
    requires Fresh(xs, idOf(row), idOf)
    ensures Removed(xs + [row], idOf(row), idOf) == xs
    ensures Removed([row] + xs, idOf(row), idOf) == xs
  {
    var p := x => idOf(x) != idOf(row);
    Seqs.FilterAll(xs, p);
    Seqs.FilterAppend(xs, [row], p);
    Seqs.FilterAppend([row], xs, p);
    assert Seqs.Filter([row], p) == [];
  }

  /** Updating a row and then deleting it is the same as deleting it. */
  lemma ReplaceThenRemove<T>(xs: seq<T>, id: string, row: T, idOf: T -> string)
    requires idOf(row) == id
    ensures Removed(Replaced(xs, id, row, idOf), id, idOf) == Removed(xs, id, idOf)
  {
    ReplacedRemoved(xs, id, row, idOf);
  }

  lemma {:induction false} ReplacedRemoved<T>(xs: seq<T>, id: string, row: T, idOf: T -> string)
    requires idOf(row) == id
    ensures Seqs.Filter(Replaced(xs, id, row, idOf), x => idOf(x) != id) == Seqs.Filter(xs, x => idOf(x) != id)
  {
    if xs != [] {
      ReplacedRemoved(xs[1..], id, row, idOf);
      assert Replaced(xs, id, row, idOf)[1..] == Replaced(xs[1..], id, row, idOf);
    }
  }
}

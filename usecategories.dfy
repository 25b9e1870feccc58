/** The categories hook: the cached list of one user's categories under one parent (the
    top level when the parent is None), kept in step with the inserts, updates and
    deletes made through it. The store's answers are parameters of the methods. */
module UseCategories {
  import opened Wrappers
  import opened Hierarchy
  import opened ListCache

  const NotAuthenticated: string := "Not authenticated"

  /** The list query: the rows of `owner` whose parent is `parentId` (`is null` when
      None), in `created_at` order. */
  datatype Query = Query(owner: string, parentId: Option<string>, order: Order)

  /** The inserted row; its random sphere position is not modelled. */
  datatype Insert = Insert(userId: string, parentId: Option<string>, name: string, color: string)

  function IdOf(c: Category): string { c.id }

  class CategoriesHook {
    var categories: seq<Category>
    var loading: bool

    constructor()
      ensures categories == [] && loading
    {
      categories := [];
      loading := true;
    }

    /** `fetchCategories`: without a user the list is emptied; otherwise the query is
        made and its rows replace the list, while an error leaves the list as it was.
        Either way loading ends. */
    method Fetch(userId: Option<string>, parentId: Option<string>, rows: Result<seq<Category>>)
      returns (query: Option<Query>)
      modifies this
      ensures !Truthy(userId) ==> query.None? && categories == []
      ensures Truthy(userId) ==> query == Some(Query(userId.value, parentId, Ascending))
      ensures Truthy(userId) ==> categories == if rows.Ok? then rows.value else old(categories)
      ensures !loading
    {
      if !Truthy(userId) {
        categories := [];
        loading := false;
        return None;
      }
      loading := true;
      query := Some(Query(userId.value, parentId, Ascending));
      if rows.Err? {
        loading := false;
        return;
      }
      categories := rows.value;
      loading := false;
    }

    /** `addCategory`: refused without a user; otherwise the row is inserted and the
        stored row is appended to the list, which a failed insert leaves alone. */
    method Add(userId: Option<string>, name: string, color: string, parentId: Option<string>,
               stored: Result<Category>)
      returns (insert: Option<Insert>, r: Result<Category>)
      modifies this
      ensures !Truthy(userId) ==> insert.None? && r == Err(NotAuthenticated)
      ensures Truthy(userId) ==> insert == Some(Insert(userId.value, parentId, name, color)) && r == stored
      ensures categories == if r.Ok? then old(categories) + [r.value] else old(categories)
      ensures loading == old(loading)
    {
      if !Truthy(userId) {
        return None, Err(NotAuthenticated);
      }
      insert, r := Some(Insert(userId.value, parentId, name, color)), stored;
      if stored.Ok? {
        categories := categories + [stored.value];
      }
    }

    /** `updateCategory`: on success the stored row takes the place of every row with
        that id. */
    method Update(id: string, stored: Result<Category>) returns (r: Result<Category>)
      modifies this
      ensures r == stored
      ensures categories == if stored.Ok? then Replaced(old(categories), id, stored.value, IdOf) else old(categories)
      ensures loading == old(loading)
    {
      r := stored;
      if stored.Ok? {
        categories := Replaced(categories, id, stored.value, IdOf);
      }
    }

    /** `deleteCategory`: on success every row with that id leaves the list. */
    method Delete(id: string, error: Option<string>) returns (r: Option<string>)
      modifies this
      ensures r == error
      ensures categories == if error.None? then Removed(old(categories), id, IdOf) else old(categories)
      ensures loading == old(loading)
    {
      r := error;
      if error.None? {
        categories := Removed(categories, id, IdOf);
      }
    }
  }
}

/** The entries hook: the cached list of the entries of the selected subtopic, newest
    first, kept in step with the inserts, updates and deletes made through it. */
module UseEntries {
  import opened Wrappers
  import opened Knowledge
  import opened ListCache

  const NoSubtopic: string := "Not authenticated or no subtopic selected"

  /** The list query: the entries of one subtopic in `created_at` order. */
  datatype Query = Query(subtopicId: string, order: Order)

  /** The inserted row. */
  datatype Insert = Insert(userId: string, subtopicId: string, title: string, content: string, tags: seq<string>)

  function IdOf(e: Entry): string { e.id }

  class EntriesHook {
    var entries: seq<Entry>
    var loading: bool

    constructor()
      ensures entries == [] && loading
    {
      entries := [];
      loading := true;
    }

    /** `fetchEntries`: without a user or a subtopic the list is emptied and loading
        ends; otherwise the query is made, newest first, and its rows replace the list.
        A failed query changes nothing, so loading stays as it was. */
    method Fetch(user: Option<string>, subtopicId: Option<string>, rows: Result<seq<Entry>>)
      returns (query: Option<Query>)
      modifies this
      ensures !(user.Some? && Truthy(subtopicId)) ==> query.None? && entries == [] && !loading
      ensures user.Some? && Truthy(subtopicId) ==> query == Some(Query(subtopicId.value, Descending))
      ensures user.Some? && Truthy(subtopicId) && rows.Ok? ==> entries == rows.value && !loading
      ensures user.Some? && Truthy(subtopicId) && rows.Err? ==>
        entries == old(entries) && loading == old(loading)
    {
      if !(user.Some? && Truthy(subtopicId)) {
        entries := [];
        loading := false;
        return None;
      }
      query := Some(Query(subtopicId.value, Descending));
      if rows.Err? {
        return;
      }
      entries := rows.value;
      loading := false;
    }

    /** `addEntry`: refused without a user or a subtopic; otherwise the row is inserted
        and the stored entry goes to the front of the list. */
    method Add(user: Option<string>, subtopicId: Option<string>, title: string, content: string,
               tags: seq<string>, stored: Result<Entry>)
      returns (insert: Option<Insert>, r: Result<Entry>)
      modifies this
      ensures !(user.Some? && Truthy(subtopicId)) ==> insert.None? && r == Err(NoSubtopic)
      ensures user.Some? && Truthy(subtopicId) ==>
        insert == Some(Insert(user.value, subtopicId.value, title, content, tags)) && r == stored
      ensures entries == if r.Ok? then [r.value] + old(entries) else old(entries)
      ensures loading == old(loading)
    {
      if !(user.Some? && Truthy(subtopicId)) {
        return None, Err(NoSubtopic);
      }
      insert, r := Some(Insert(user.value, subtopicId.value, title, content, tags)), stored;
      if stored.Ok? {
        entries := [stored.value] + entries;
      }
    }

    /** `updateEntry`: on success the stored entry takes the place of every entry with
        that id. */
    method Update(id: string, stored: Result<Entry>) returns (r: Result<Entry>)
      modifies this
      ensures r == stored
      ensures entries == if stored.Ok? then Replaced(old(entries), id, stored.value, IdOf) else old(entries)
      ensures loading == old(loading)
    {
      r := stored;
      if stored.Ok? {
        entries := Replaced(entries, id, stored.value, IdOf);
      }
    }

    /** `deleteEntry`: on success every entry with that id leaves the list. */
    method Delete(id: string, error: Option<string>) returns (r: Option<string>)
      modifies this
      ensures r == error
      ensures entries == if error.None? then Removed(old(entries), id, IdOf) else old(entries)
      ensures loading == old(loading)
    {
      r := error;
      if error.None? {
        entries := Removed(entries, id, IdOf);
      }
    }
  }
}

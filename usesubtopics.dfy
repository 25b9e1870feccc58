/** The subtopics hook: the cached list of the subtopics of the selected topic, oldest
    first, kept in step with the inserts and deletes made through it. */
module UseSubtopics {
  import opened Wrappers
  import opened Knowledge
  import opened ListCache

  const NoTopic: string := "Not authenticated or no topic selected"

  /** The list query: the subtopics of one topic in `created_at` order. */
  datatype Query = Query(topicId: string, order: Order)

  /** The inserted row. */
  datatype Insert = Insert(userId: string, topicId: string, name: string)

  function IdOf(s: Subtopic): string { s.id }

  class SubtopicsHook {
    var subtopics: seq<Subtopic>
    var loading: bool

    constructor()
      ensures subtopics == [] && loading
    {
      subtopics := [];
      loading := true;
    }

    /** `fetchSubtopics`: without a user or a topic the list is emptied and loading
        ends; otherwise the query is made and its rows replace the list. A failed query
        changes nothing. */
    method Fetch(user: Option<string>, topicId: Option<string>, rows: Result<seq<Subtopic>>)
      returns (query: Option<Query>)
      modifies this
      ensures !(user.Some? && Truthy(topicId)) ==> query.None? && subtopics == [] && !loading
      ensures user.Some? && Truthy(topicId) ==> query == Some(Query(topicId.value, Ascending))
      ensures user.Some? && Truthy(topicId) && rows.Ok? ==> subtopics == rows.value && !loading
      ensures user.Some? && Truthy(topicId) && rows.Err? ==>
        subtopics == old(subtopics) && loading == old(loading)
    {
      if !(user.Some? && Truthy(topicId)) {
        subtopics := [];
        loading := false;
        return None;
      }
      query := Some(Query(topicId.value, Ascending));
      if rows.Err? {
        return;
      }
      subtopics := rows.value;
      loading := false;
    }

    /** `addSubtopic`: refused without a user or a topic; otherwise the row is inserted
        and the stored subtopic is appended to the list. */
    method Add(user: Option<string>, topicId: Option<string>, name: string, stored: Result<Subtopic>)
      returns (insert: Option<Insert>, r: Result<Subtopic>)
      modifies this
      ensures !(user.Some? && Truthy(topicId)) ==> insert.None? && r == Err(NoTopic)
      ensures user.Some? && Truthy(topicId) ==> insert == Some(Insert(user.value, topicId.value, name)) && r == stored
      ensures subtopics == if r.Ok? then old(subtopics) + [r.value] else old(subtopics)
      ensures loading == old(loading)
    {
      if !(user.Some? && Truthy(topicId)) {
        return None, Err(NoTopic);
      }
      insert, r := Some(Insert(user.value, topicId.value, name)), stored;
      if stored.Ok? {
        subtopics := subtopics + [stored.value];
      }
    }

    /** `deleteSubtopic`: on success every subtopic with that id leaves the list. */
    method Delete(id: string, error: Option<string>) returns (r: Option<string>)
      modifies this
      ensures r == error
      ensures subtopics == if error.None? then Removed(old(subtopics), id, IdOf) else old(subtopics)
      ensures loading == old(loading)
    {
      r := error;
      if error.None? {
        subtopics := Removed(subtopics, id, IdOf);
      }
    }
  }
}

/** The topics hook: the cached list of the topics the row-level policy lets the user
    see, oldest first, kept in step with the inserts and deletes made through it. */
module UseTopics {
  import opened Wrappers
  import opened Knowledge
  import opened ListCache

  const NotAuthenticated: string := "Not authenticated"

  /** The inserted row; its random sphere position is not modelled. */
  datatype Insert = Insert(userId: string, name: string, color: string)

  function IdOf(t: Topic): string { t.id }

  class TopicsHook {
    var topics: seq<Topic>
    var loading: bool

    constructor()
      ensures topics == [] && loading
    {
      topics := [];
      loading := true;
    }

    /** `fetchTopics`: without a user nothing happens and no query is made; otherwise
        the topics are queried in ascending `created_at` order and replace the list. A
        failed query changes nothing. */
    method Fetch(user: Option<string>, rows: Result<seq<Topic>>) returns (query: Option<Order>)
      modifies this
      ensures user.None? ==> query.None? && topics == old(topics) && loading == old(loading)
      ensures user.Some? ==> query == Some(Ascending)
      ensures user.Some? && rows.Ok? ==> topics == rows.value && !loading
      ensures user.Some? && rows.Err? ==> topics == old(topics) && loading == old(loading)
    {
      if user.None? {
        return None;
      }
      query := Some(Ascending);
      if rows.Err? {
        return;
      }
      topics := rows.value;
      loading := false;
    }

    /** `addTopic`: refused without a user; otherwise the row is inserted and the stored
        topic is appended to the list. */
    method Add(user: Option<string>, name: string, color: string, stored: Result<Topic>)
      returns (insert: Option<Insert>, r: Result<Topic>)
      modifies this
      ensures user.None? ==> insert.None? && r == Err(NotAuthenticated)
      ensures user.Some? ==> insert == Some(Insert(user.value, name, color)) && r == stored
      ensures topics == if r.Ok? then old(topics) + [r.value] else old(topics)
      ensures loading == old(loading)
    {
      if user.None? {
        return None, Err(NotAuthenticated);
      }
      insert, r := Some(Insert(user.value, name, color)), stored;
      if stored.Ok? {
        topics := topics + [stored.value];
      }
    }

    /** `deleteTopic`: on success every topic with that id leaves the list. */
    method Delete(id: string, error: Option<string>) returns (r: Option<string>)
      modifies this
      ensures r == error
      ensures topics == if error.None? then Removed(old(topics), id, IdOf) else old(topics)
      ensures loading == old(loading)
    {
      r := error;
      if error.None? {
        topics := Removed(topics, id, IdOf);
      }
    }
  }
}

/** The quick-capture function: for a typed thought and a user id, ask the AI for a
    category, file the polished thought as an entry under a subcategory of it (creating
    the category or subcategory when needed) and report where it went. */
module QuickCapture {
  import opened Wrappers
  import opened Hierarchy
  import opened Serverless
  import opened Capture

  const MissingInput: string := "Missing thought or userId"

  /** The results of the platform calls, each used only when the call is made: the
      `LOVABLE_API_KEY` setting, the query for the user's top-level categories, the chat
      response with its reply text, and the store calls after the reply. */
  datatype Platform = Platform(
    apiKey: Option<string>,
    categories: Result<seq<Category>>,
    chat: GatewayStatus,
    replyContent: Option<string>,
    parse: string -> Option<AiFields>,
    store: Store)

  /** The `try` block of the handler; `thought` and `userId` are the fields of the
      request body. */
  function Steps(thought: Option<string>, userId: Option<string>, p: Platform): (Outcome<Saved>, seq<Call>) {
    if !Truthy(thought) || !Truthy(userId) then (Respond(Failure(400, MissingInput, None)), [])
    else if !Truthy(p.apiKey) then (Throw(ApiKeyMissing), [])
    else
      var fetch := [FetchTopLevel(Some(userId.value))];
      if p.categories.Err? then (Throw(p.categories.message), fetch)
      else
        var categories := p.categories.value;
        var asked := fetch + [Chat(ListOf(categories), thought.value)];
        var ai := AskAi(p.chat, p.replyContent, p.parse);
        if !ai.Continue? then (Stop(ai), asked)
        else
          var (saved, calls) := Resolution(userId.value, ai.value, categories, Some(userId.value), QuickNotes, [], p.store);
          (saved, asked + calls)
  }

  /** The handler: the `try` block, with a thrown error answered as 500 and no code. */
  function Handle(thought: Option<string>, userId: Option<string>, p: Platform): Handled<Saved> {
    var (o, calls) := Steps(thought, userId, p);
    Handled(Catch(o, None), calls)
  }

  /** A missing thought or user id is answered with 400 and nothing else happens. */
  lemma MissingInputRefused(thought: Option<string>, userId: Option<string>, p: Platform)
    requires !Truthy(thought) || !Truthy(userId)
    ensures Handle(thought, userId, p) == Handled(Error(Failure(400, MissingInput, None)), [])
  {
  }

  /** A failed chat call: 429 and 402 come back with the same status, anything else as
      500 without a code; nothing is written. */
  lemma AiFailures(thought: Option<string>, userId: Option<string>, p: Platform)
    requires Truthy(thought) && Truthy(userId) && Truthy(p.apiKey) && p.categories.Ok? && !p.chat.ok
    ensures var h := Handle(thought, userId, p);
      && h.response == Error(if p.chat.status == 429 then Failure(429, RateLimited, None)
                             else if p.chat.status == 402 then Failure(402, CreditsExhausted, None)
                             else Failure(500, AiFailed, None))
      && ReadOnly(h.calls)
  {
  }

  /** On success the AI was asked with the flat list of the user's top-level categories,
      and the entry was saved under the chosen subcategory with no tags; the response
      names the category and the subcategory. */
  lemma SuccessBody(thought: Option<string>, userId: Option<string>, p: Platform)
    requires Handle(thought, userId, p).response.Success?
    ensures var h := Handle(thought, userId, p);
      var s := h.response.body;
      && Truthy(thought) && Truthy(userId) && p.categories.Ok?
      && h.calls[..2] == [FetchTopLevel(userId), Chat(ListOf(p.categories.value), thought.value)]
      && s.entry.categoryId == s.subcategory.id
      && s.entry.userId == userId.value
      && s.entry.tags == []
      && h.calls[|h.calls| - 1] == InsertEntry(s.entry)
  {
    var ai := AskAi(p.chat, p.replyContent, p.parse);
    EntryUnderSubcategory(userId.value, ai.value, p.categories.value, userId, QuickNotes, [], p.store);
  }
}

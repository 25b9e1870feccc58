/** The process-thought function: authenticate the caller, ask the AI for a category,
    title and polished text for a typed thought, and return the suggestion together with
    every category, without saving anything. */
module ProcessThought {
  import opened Wrappers
  import opened Hierarchy
  import opened Serverless

  const MissingThought: string := "Missing thought"

  /** The results of the platform calls, each used only when the call is made: `user`
      is the id `auth.getUser` gives (None for an error or no user), `apiKey` the
      `LOVABLE_API_KEY` setting, then the category query and the chat response with its
      reply text. */
  datatype Platform = Platform(
    user: Option<string>,
    apiKey: Option<string>,
    categories: Result<seq<Category>>,
    chat: GatewayStatus,
    replyContent: Option<string>,
    parse: string -> Option<AiFields>)

  /** The `try` block of the handler; `thought` is the field of the request body. */
  function Steps(authHeader: Option<string>, thought: Option<string>, p: Platform): (Outcome<ProcessedBody>, seq<Call>) {
    if !Truthy(authHeader) then (Respond(Failure(401, MissingAuthorization, None)), [])
    else if p.user.None? then (Respond(Failure(401, SessionExpired, Some(AuthError))), [GetUser])
    else if !Truthy(thought) then (Respond(Failure(400, MissingThought, None)), [GetUser])
    else if !Truthy(p.apiKey) then (Throw(ApiKeyMissing), [GetUser])
    else if p.categories.Err? then (Throw(p.categories.message), [GetUser, FetchCategories])
    else
      var categories := p.categories.value;
      var asked := [GetUser, FetchCategories, Chat(HierarchyOf(categories), thought.value)];
      var ai := AskAi(p.chat, p.replyContent, p.parse);
      if !ai.Continue? then (Stop(ai), asked)
      else (Continue(ProcessedBody(ProcessedOf(ai.value, None), categories)), asked)
  }

  /** The handler: the `try` block, with a thrown error answered as 500 and
      `PROCESSING_ERROR`. */
  function Handle(authHeader: Option<string>, thought: Option<string>, p: Platform): Handled<ProcessedBody> {
    var (o, calls) := Steps(authHeader, thought, p);
    Handled(Catch(o, Some(ProcessingError)), calls)
  }

  /** Without an Authorization header the answer is 401 and no call is made; an
      unauthenticated caller gets 401 with `AUTH_ERROR`; without a thought the answer is
      400 before the categories are fetched or the AI is asked. */
  lemma RequestGuards(authHeader: Option<string>, thought: Option<string>, p: Platform)
    ensures !Truthy(authHeader) ==>
      Handle(authHeader, thought, p) == Handled(Error(Failure(401, MissingAuthorization, None)), [])
    ensures Truthy(authHeader) && p.user.None? ==>
      Handle(authHeader, thought, p) == Handled(Error(Failure(401, SessionExpired, Some(AuthError))), [GetUser])
    ensures Truthy(authHeader) && p.user.Some? && !Truthy(thought) ==>
      Handle(authHeader, thought, p) == Handled(Error(Failure(400, MissingThought, None)), [GetUser])
  {
  }

  /** Whatever the inputs, process-thought never writes to the store. */
  lemma NothingSaved(authHeader: Option<string>, thought: Option<string>, p: Platform)
    ensures ReadOnly(Handle(authHeader, thought, p).calls)
  {
  }

  /** A failed chat call: 429 and 402 come back with the same status, anything else as
      500 with `PROCESSING_ERROR`; so does a reply that does not parse. */
  lemma AiFailures(authHeader: Option<string>, thought: Option<string>, p: Platform)
    requires Truthy(authHeader) && p.user.Some? && Truthy(thought) && Truthy(p.apiKey) && p.categories.Ok?
    ensures !p.chat.ok && p.chat.status == 429 ==>
      Handle(authHeader, thought, p).response == Error(Failure(429, RateLimited, None))
    ensures !p.chat.ok && p.chat.status == 402 ==>
      Handle(authHeader, thought, p).response == Error(Failure(402, CreditsExhausted, None))
    ensures !p.chat.ok && p.chat.status != 429 && p.chat.status != 402 ==>
      Handle(authHeader, thought, p).response == Error(Failure(500, AiFailed, Some(ProcessingError)))
    ensures p.chat.ok && (p.replyContent.None? || p.parse(Fences.ExtractJson(p.replyContent.value)).None?) ==>
      Handle(authHeader, thought, p).response == Error(Failure(500, ParseFailed, Some(ProcessingError)))
  {
  }

  /** On success the AI was asked with the category hierarchy and the thought, and the
      response maps the parsed fields into `processed`, without a transcription, next to
      every category. */
  lemma SuccessBody(authHeader: Option<string>, thought: Option<string>, p: Platform)
    requires Handle(authHeader, thought, p).response.Success?
    ensures var h := Handle(authHeader, thought, p);
      && Truthy(thought) && p.categories.Ok? && p.chat.ok && p.replyContent.Some?
      && p.parse(Fences.ExtractJson(p.replyContent.value)).Some?
      && var ai := p.parse(Fences.ExtractJson(p.replyContent.value)).value;
      && h.calls == [GetUser, FetchCategories, Chat(HierarchyOf(p.categories.value), thought.value)]
      && h.response.body == ProcessedBody(
           Processed(ai.title, ai.refinedContent, None, ai.categoryId, ai.categoryName, ai.parentCategoryName),
           p.categories.value)
  {
  }
}

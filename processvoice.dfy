/** The process-voice function: authenticate the caller, transcribe the recorded audio,
    ask the AI for a category, title and cleaned-up text, and return the suggestion
    together with every category, without saving anything. */
module ProcessVoice {
  import opened Wrappers
  import opened Hierarchy
  import opened Serverless

  /** The results of the platform calls, each used only when the call is made:
      `user` is the id `auth.getUser` gives (None for an error or no user), `apiKey` the
      `LOVABLE_API_KEY` setting, `decoded` the result of `atob`, then the transcription
      response, the category query, and the chat response with its reply text. */
  datatype Platform = Platform(
    user: Option<string>,
    apiKey: Option<string>,
    decoded: Result<string>,
    transcription: GatewayStatus,
    transcribedText: Option<string>,
    categories: Result<seq<Category>>,
    chat: GatewayStatus,
    replyContent: Option<string>,
    parse: string -> Option<AiFields>)

  /** The `try` block of the handler. */
  function Steps(authHeader: Option<string>, audio: Option<string>, p: Platform): (Outcome<ProcessedBody>, seq<Call>) {
    if !Truthy(authHeader) then (Respond(Failure(401, MissingAuthorization, None)), [])
    else if p.user.None? then (Respond(Failure(401, SessionExpired, Some(AuthError))), [GetUser])
    else if !Truthy(audio) then (Respond(Failure(400, NoAudio, None)), [GetUser])
    else if !Truthy(p.apiKey) then (Throw(ApiKeyMissing), [GetUser])
    else
      var (heard, sent) := TranscribeAudio(p.decoded, p.transcription, p.transcribedText);
      var calls := [GetUser] + sent;
      if !heard.Continue? then (Stop(heard), calls)
      else if p.categories.Err? then (Throw(p.categories.message), calls + [FetchCategories])
      else
        var text, categories := heard.value, p.categories.value;
        var asked := calls + [FetchCategories, Chat(HierarchyOf(categories), text)];
        var ai := AskAi(p.chat, p.replyContent, p.parse);
        if !ai.Continue? then (Stop(ai), asked)
        else
          var original := Some(OrElse(ai.value.originalTranscription, text));
          (Continue(ProcessedBody(ProcessedOf(ai.value, original), categories)), asked)
  }

  /** The handler: the `try` block, with a thrown error answered as 500 and
      `PROCESSING_ERROR`. */
  function Handle(authHeader: Option<string>, audio: Option<string>, p: Platform): Handled<ProcessedBody> {
    var (o, calls) := Steps(authHeader, audio, p);
    Handled(Catch(o, Some(ProcessingError)), calls)
  }

  /** Without an Authorization header the answer is 401 and no call is made; without
      audio it is 400 after only the user lookup. */
  lemma RequestGuards(authHeader: Option<string>, audio: Option<string>, p: Platform)
    ensures !Truthy(authHeader) ==>
      Handle(authHeader, audio, p) == Handled(Error(Failure(401, MissingAuthorization, None)), [])
    ensures Truthy(authHeader) && p.user.None? ==>
      Handle(authHeader, audio, p) == Handled(Error(Failure(401, SessionExpired, Some(AuthError))), [GetUser])
    ensures Truthy(authHeader) && p.user.Some? && !Truthy(audio) ==>
      Handle(authHeader, audio, p) == Handled(Error(Failure(400, NoAudio, None)), [GetUser])
  {
  }

  /** Whatever the inputs, process-voice never writes to the store. */
  lemma NothingSaved(authHeader: Option<string>, audio: Option<string>, p: Platform)
    ensures ReadOnly(Handle(authHeader, audio, p).calls)
  {
  }

  /** A missing or blank transcription is answered with 400 before the categories are
      fetched. */
  lemma BlankTranscription(authHeader: Option<string>, audio: Option<string>, p: Platform)
    requires Truthy(authHeader) && p.user.Some? && Truthy(audio) && Truthy(p.apiKey)
    requires p.decoded.Ok? && p.transcription.ok
    requires !Truthy(p.transcribedText) || Text.AllWhitespace(p.transcribedText.value)
    ensures Handle(authHeader, audio, p).response == Error(Failure(400, NoSpeech, None))
    ensures FetchCategories !in Handle(authHeader, audio, p).calls
  {
    if Truthy(p.transcribedText) {
      Text.TrimBlank(p.transcribedText.value);
    }
  }

  /** A failed gateway call: 429 and 402 come back with the same status, anything else
      as 500 with `PROCESSING_ERROR`. */
  lemma GatewayFailures(authHeader: Option<string>, audio: Option<string>, p: Platform)
    requires Truthy(authHeader) && p.user.Some? && Truthy(audio) && Truthy(p.apiKey) && p.decoded.Ok?
    ensures !p.transcription.ok ==>
      Handle(authHeader, audio, p).response == Error(GatewayFailure(p.transcription, TranscriptionFailed))
    ensures p.transcription.ok && Truthy(p.transcribedText) && !Text.AllWhitespace(p.transcribedText.value)
            && p.categories.Ok? && !p.chat.ok ==>
      Handle(authHeader, audio, p).response == Error(GatewayFailure(p.chat, AiFailed))
  {
    if Truthy(p.transcribedText) {
      Text.TrimBlank(p.transcribedText.value);
    }
  }

  /** The failure response for a gateway status in the functions that add a code. */
  function GatewayFailure(g: GatewayStatus, message: string): Failure {
    if g.status == 429 || g.status == 402 then Failure(g.status, if g.status == 429 then RateLimited else CreditsExhausted, None)
    else Failure(500, message, Some(ProcessingError))
  }

  /** On success the AI is asked with the category hierarchy and the transcribed text,
      the result carries every category, and `original_transcription` falls back to the
      transcribed text. */
  lemma SuccessBody(authHeader: Option<string>, audio: Option<string>, p: Platform)
    requires Handle(authHeader, audio, p).response.Success?
    ensures var h := Handle(authHeader, audio, p);
      var text := p.transcribedText.value;
      var body := h.response.body;
      && p.categories.Ok? && body.categories == p.categories.value
      && h.calls == [GetUser, Transcribe(ByteCodes(p.decoded.value)), FetchCategories,
                     Chat(HierarchyOf(p.categories.value), text)]
      && !Text.AllWhitespace(text)
      && body.processed.originalTranscription.Some?
      && (Truthy(AiOf(p).originalTranscription) ==>
            body.processed.originalTranscription.value == AiOf(p).originalTranscription.value)
      && (!Truthy(AiOf(p).originalTranscription) ==> body.processed.originalTranscription.value == text)
  {
    Text.TrimBlank(p.transcribedText.value);
  }

  /** The fields the AI reply parses to, where it parses. */
  function AiOf(p: Platform): AiFields {
    var o := AskAi(p.chat, p.replyContent, p.parse);
    if o.Continue? then o.value else AiFields(None, None, None, None, None, None)
  }
}

/** The voice-transcribe function: authenticate the caller, transcribe the recorded
    audio, ask the AI for a category, save the cleaned-up text as a voice note under a
    subcategory of it (creating the category or subcategory when needed) and report it. */
module VoiceTranscribe {
  import opened Wrappers
  import opened Hierarchy
  import opened Serverless
  import opened Capture

  const VoiceNoteTag: string := "voice-note"

  /** The results of the platform calls, each used only when the call is made: `user`
      is the id `auth.getUser` gives (None for an error or no user), `apiKey` the
      `LOVABLE_API_KEY` setting, `decoded` the result of `atob`, then the transcription
      response, the top-level category query, the chat response with its reply text, and
      the store calls after the reply. */
  datatype Platform = Platform(
    user: Option<string>,
    apiKey: Option<string>,
    decoded: Result<string>,
    transcription: GatewayStatus,
    transcribedText: Option<string>,
    categories: Result<seq<Category>>,
    chat: GatewayStatus,
    replyContent: Option<string>,
    parse: string -> Option<AiFields>,
    store: Store)

  /** The success body: where the note was filed, the transcription the AI reports
      (else the transcribed text) and the AI's refined text. */
  datatype VoiceBody = VoiceBody(saved: Saved, originalTranscription: string, refinedContent: Option<string>)

  /** The `try` block of the handler; `audio` is the field of the request body. */
  function Steps(authHeader: Option<string>, audio: Option<string>, p: Platform): (Outcome<VoiceBody>, seq<Call>) {
    if !Truthy(authHeader) then (Respond(Failure(401, MissingAuthorization, None)), [])
    else if p.user.None? then (Respond(Failure(401, Unauthorized, None)), [GetUser])
    else if !Truthy(audio) then (Respond(Failure(400, NoAudio, None)), [GetUser])
    else if !Truthy(p.apiKey) then (Throw(ApiKeyMissing), [GetUser])
    else
      var (heard, sent) := TranscribeAudio(p.decoded, p.transcription, p.transcribedText);
      var calls := [GetUser] + sent;
      if !heard.Continue? then (Stop(heard), calls)
      else
        var fetched := calls + [FetchTopLevel(None)];
        if p.categories.Err? then (Throw(p.categories.message), fetched)
        else
          var text, categories := heard.value, p.categories.value;
          var asked := fetched + [Chat(ListOf(categories), text)];
          var ai := AskAi(p.chat, p.replyContent, p.parse);
          if !ai.Continue? then (Stop(ai), asked)
          else
            var (saved, writes) := Resolution(p.user.value, ai.value, categories, None, VoiceNotes, [VoiceNoteTag], p.store);
            if !saved.Continue? then (Stop(saved), asked + writes)
            else
              var original := OrElse(ai.value.originalTranscription, text);
              (Continue(VoiceBody(saved.value, original, ai.value.refinedContent)), asked + writes)
  }

  /** The handler: the `try` block, with a thrown error answered as 500 and no code. */
  function Handle(authHeader: Option<string>, audio: Option<string>, p: Platform): Handled<VoiceBody> {
    var (o, calls) := Steps(authHeader, audio, p);
    Handled(Catch(o, None), calls)
  }

  /** Without an Authorization header the answer is 401 and no call is made; an
      unauthenticated caller gets 401 "Unauthorized"; without audio the answer is 400
      after only the user lookup. */
  lemma RequestGuards(authHeader: Option<string>, audio: Option<string>, p: Platform)
    ensures !Truthy(authHeader) ==>
      Handle(authHeader, audio, p) == Handled(Error(Failure(401, MissingAuthorization, None)), [])
    ensures Truthy(authHeader) && p.user.None? ==>
      Handle(authHeader, audio, p) == Handled(Error(Failure(401, Unauthorized, None)), [GetUser])
    ensures Truthy(authHeader) && p.user.Some? && !Truthy(audio) ==>
      Handle(authHeader, audio, p) == Handled(Error(Failure(400, NoAudio, None)), [GetUser])
  {
  }

  /** A missing or blank transcription is answered with 400 "No speech detected in
      recording" before the categories are fetched, and nothing is written. */
  lemma BlankTranscription(authHeader: Option<string>, audio: Option<string>, p: Platform)
    requires Truthy(authHeader) && p.user.Some? && Truthy(audio) && Truthy(p.apiKey)
    requires p.decoded.Ok? && p.transcription.ok
    requires !Truthy(p.transcribedText) || Text.AllWhitespace(p.transcribedText.value)
    ensures Handle(authHeader, audio, p).response == Error(Failure(400, NoSpeech, None))
    ensures Handle(authHeader, audio, p).calls == [GetUser, Transcribe(ByteCodes(p.decoded.value))]
  {
    if Truthy(p.transcribedText) {
      Text.TrimBlank(p.transcribedText.value);
    }
  }

  /** On success the AI was asked with the flat category list and the transcribed text,
      the note is saved under the chosen subcategory tagged exactly "voice-note", and
      `original_transcription` falls back to the transcribed text. */
  lemma SuccessBody(authHeader: Option<string>, audio: Option<string>, p: Platform)
    requires Handle(authHeader, audio, p).response.Success?
    ensures var h := Handle(authHeader, audio, p);
      var b := h.response.body;
      var text := p.transcribedText.value;
      && p.user.Some? && p.categories.Ok? && !Text.AllWhitespace(text)
      && h.calls[..4] == [GetUser, Transcribe(ByteCodes(p.decoded.value)), FetchTopLevel(None),
                          Chat(ListOf(p.categories.value), text)]
      && b.saved.entry.categoryId == b.saved.subcategory.id
      && b.saved.entry.userId == p.user.value
      && b.saved.entry.tags == ["voice-note"]
      && b.saved.entry.content == b.refinedContent
      && h.calls[|h.calls| - 1] == InsertEntry(b.saved.entry)
      && (b.originalTranscription == text || Truthy(AiOf(p).originalTranscription))
      && (Truthy(AiOf(p).originalTranscription) ==> b.originalTranscription == AiOf(p).originalTranscription.value)
  {
    Text.TrimBlank(p.transcribedText.value);
    EntryUnderSubcategory(p.user.value, AiOf(p), p.categories.value, None, VoiceNotes, [VoiceNoteTag], p.store);
  }

  /** The fields the AI reply parses to, where it parses. */
  function AiOf(p: Platform): AiFields {
    var o := AskAi(p.chat, p.replyContent, p.parse);
    if o.Continue? then o.value else AiFields(None, None, None, None, None, None)
  }
}

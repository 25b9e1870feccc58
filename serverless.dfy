/** What the four serverless functions share: the shape of their responses, the way a
    failed AI-gateway call is answered, the parsing of the AI reply, the trace of the
    platform calls they make, and the byte copy of the recorded audio. */
module Serverless {
  import opened Wrappers
  import opened Text
  import opened Hierarchy
  import Prompts
  import Fences

  /** A JSON error response: the HTTP status, the `error` text and the optional `code`. */
  datatype Failure = Failure(status: int, error: string, code: Option<string>)

  /** How the `try` block of a handler ends: with a value, with an early `return` of an
      error response, or with a thrown error carrying its message. */
  datatype Outcome<+T> = Continue(value: T) | Respond(failure: Failure) | Throw(message: string)

  /** The response a handler sends. */
  datatype Response<+T> = Success(body: T) | Error(failure: Failure)

  const MissingAuthorization: string := "Missing authorization header"
  const SessionExpired: string := "Session expired. Please refresh the page and try again."
  const Unauthorized: string := "Unauthorized"
  const NoAudio: string := "No audio data provided"
  const NoSpeech: string := "No speech detected in recording"
  const ApiKeyMissing: string := "LOVABLE_API_KEY is not configured"
  const RateLimited: string := "Rate limit exceeded. Please try again later."
  const CreditsExhausted: string := "AI credits exhausted. Please add funds."
  const TranscriptionFailed: string := "Failed to transcribe audio"
  const AiFailed: string := "AI processing failed"
  const ParseFailed: string := "Failed to parse AI response"
  const AuthError: string := "AUTH_ERROR"
  const ProcessingError: string := "PROCESSING_ERROR"

  /** `response.ok` and `response.status` of a call to the AI gateway. */
  datatype GatewayStatus = GatewayStatus(ok: bool, status: int)

  /** The check after each gateway call: 429 and 402 are answered with the same status,
      every other failure throws `message`. */
  function CheckGateway(g: GatewayStatus, message: string): Outcome<()> {
    if g.ok then Continue(())
    else if g.status == 429 then Respond(Failure(429, RateLimited, None))
    else if g.status == 402 then Respond(Failure(402, CreditsExhausted, None))
    else Throw(message)
  }

  /** A `try` block stopped at a step that did not continue. */
  function Stop<S, T>(o: Outcome<S>): Outcome<T>
    requires !o.Continue?
  {
    if o.Respond? then Respond(o.failure) else Throw(o.message)
  }

  /** The fields the handlers read from the parsed AI reply; each may be missing. */
  datatype AiFields = AiFields(
    categoryId: Option<string>,
    categoryName: Option<string>,
    parentCategoryName: Option<string>,
    title: Option<string>,
    refinedContent: Option<string>,
    originalTranscription: Option<string>)

  /** The `try` block around the fence extraction and `JSON.parse`: a missing reply
      text or a parse failure is rethrown as one message. `parse` stands for
      `JSON.parse`, None where it throws. */
  function ParseReply(content: Option<string>, parse: string -> Option<AiFields>): Outcome<AiFields> {
    if content.None? then Throw(ParseFailed)
    else
      var fields := parse(Fences.ExtractJson(content.value));
      if fields.None? then Throw(ParseFailed) else Continue(fields.value)
  }

  /** The chat-completion call after it is made: the status check, then the parse. */
  function AskAi(status: GatewayStatus, content: Option<string>, parse: string -> Option<AiFields>): Outcome<AiFields> {
    var g := CheckGateway(status, AiFailed);
    if !g.Continue? then Stop(g) else ParseReply(content, parse)
  }

  /** The handler's `catch`: a thrown error becomes a 500 response with its message and,
      in the functions that add one, a code. */
  function Catch<T>(o: Outcome<T>, code: Option<string>): Response<T> {
    match o
    case Continue(v) => Success(v)
    case Respond(f) => Error(f)
    case Throw(m) => Error(Failure(500, m, code))
  }

  /** A row the functions insert into `categories`. */
  datatype NewCategory = NewCategory(
    userId: string, parentId: Option<string>, name: string, color: string, x: int, y: int, z: int)

  /** A row the functions insert into `entries`. */
  datatype NewEntry = NewEntry(
    userId: string, categoryId: string, title: Option<string>, content: Option<string>, tags: seq<string>)

  /** An unsigned 8-bit value: an element of a `Uint8Array`. */
  newtype byte = x: int | 0 <= x < 256

  /** The category context of the system prompt: the indented hierarchy of
      process-voice and process-thought, or the flat list of quick-capture and
      voice-transcribe. */
  datatype Context = HierarchyOf(categories: seq<Category>) | ListOf(categories: seq<Category>)

  /** The text that stands in the prompt for a context. */
  function ContextText(c: Context): string {
    match c
    case HierarchyOf(cs) => Prompts.HierarchyText(cs)
    case ListOf(cs) => Prompts.CategoryList(cs)
  }

  /** A call a handler makes to the hosted platform, in the order made: the user
      lookup, the audio transcription, the query for every category or for the
      top-level ones (of `owner`, or of whoever the row-level policy allows when None),
      the chat completion, the query for the children of a category, and the two
      inserts. */
  datatype Call =
    | GetUser
    | Transcribe(audio: seq<byte>)
    | FetchCategories
    | FetchTopLevel(owner: Option<string>)
    | Chat(context: Context, text: string)
    | FetchChildren(owner: Option<string>, parentId: string)
    | InsertCategory(category: NewCategory)
    | InsertEntry(entry: NewEntry)

  predicate IsWrite(c: Call) {
    c.InsertCategory? || c.InsertEntry?
  }

  /** No call of the trace changes the store. */
  predicate ReadOnly(calls: seq<Call>) {
    forall c :: c in calls ==> !IsWrite(c)
  }

  /** A response together with the platform calls made to produce it. */
  datatype Handled<+T> = Handled(response: Response<T>, calls: seq<Call>)

  /** The `processed` object of process-voice and process-thought; only process-voice
      sets `original_transcription`. */
  datatype Processed = Processed(
    title: Option<string>,
    content: Option<string>,
    originalTranscription: Option<string>,
    suggestedCategoryId: Option<string>,
    suggestedCategoryName: Option<string>,
    parentCategoryName: Option<string>)

  /** The success body of process-voice and process-thought: the suggestion and every
      category, for the review dialog. */
  datatype ProcessedBody = ProcessedBody(processed: Processed, categories: seq<Category>)

  /** The mapping of the parsed reply into `processed`. */
  function ProcessedOf(ai: AiFields, originalTranscription: Option<string>): Processed {
    Processed(ai.title, ai.refinedContent, originalTranscription, ai.categoryId, ai.categoryName,
              ai.parentCategoryName)
  }

  /** `bytes[i] = binaryString.charCodeAt(i)` stores each code modulo 256. */
  function ByteCodes(binary: string): (bytes: seq<byte>)
    ensures |bytes| == |binary|
  {
    seq(|binary|, i requires 0 <= i < |binary| => (binary[i] as int % 256) as byte)
  }

  /** `base64ToArrayBuffer` after its `atob`: a typed array as long as the decoded
      string, filled by the copy loop. */
  method Base64ToArrayBuffer(binary: string) returns (bytes: array<byte>)
    ensures fresh(bytes)
    ensures bytes[..] == ByteCodes(binary)
  {
    bytes := new byte[|binary|];
    for i := 0 to |binary|
      invariant forall k :: 0 <= k < i ==> bytes[k] == (binary[k] as int % 256) as byte
    {
      bytes[i] := (binary[i] as int % 256) as byte;
    }
  }

  /** What process-voice and voice-transcribe do after their guards: decode the audio,
      send its bytes to the transcription endpoint, answer 429 and 402 as they come,
      and refuse a missing or blank transcription. `decoded` is the result of `atob`. */
  function TranscribeAudio(decoded: Result<string>, status: GatewayStatus, text: Option<string>): (Outcome<string>, seq<Call>) {
    if decoded.Err? then (Throw(decoded.message), [])
    else
      var calls := [Transcribe(ByteCodes(decoded.value))];
      var g := CheckGateway(status, TranscriptionFailed);
      if !g.Continue? then (Stop(g), calls)
      else if !Truthy(text) || Trim(text.value) == [] then (Respond(Failure(400, NoSpeech, None)), calls)
      else (Continue(text.value), calls)
  }

  /** A string whose every character is a byte, as `atob` produces. */
  predicate IsBinary(s: string) {
    forall i :: 0 <= i < |s| ==> s[i] as int < 256
  }

  /** For the output of `atob` the copy is exact: byte i is character code i. */
  lemma ByteCodesExact(binary: string)
    requires IsBinary(binary)
    ensures |ByteCodes(binary)| == |binary|
    ensures forall i :: 0 <= i < |binary| ==> ByteCodes(binary)[i] as int == binary[i] as int
  {
  }

  /** The copy is injective on binary strings: different decoded audio gives different
      bytes. */
  lemma ByteCodesInjective(a: string, b: string)
    requires IsBinary(a) && IsBinary(b)
    requires ByteCodes(a) == ByteCodes(b)
    ensures a == b
  {
    forall i | 0 <= i < |a| ensures a[i] == b[i] {
      assert ByteCodes(a)[i] == ByteCodes(b)[i];
      assert a[i] as int == b[i] as int;
    }
  }
}

# Knowledge universe: a Dafny model of its capture rules

The application is a personal "knowledge universe". A signed-in user unlocks it with
an access code. They keep topics, subtopics, categories and entries, and capture
notes by typing or speaking. Four serverless functions hand a thought or a recording
to an AI gateway:

- process-voice and process-thought return a suggested title, text and category,
  for the review dialog to save;
- quick-capture and voice-transcribe file the note themselves, creating a "General"
  category and a "Quick Notes" or "Voice Notes" subcategory when none exists.

The front end caches the store's rows in hooks. Its dialogs normalise what the user
types before saving it.

This project models the deterministic rules inside that glue:

- how the category hierarchy is flattened into prompt text and select options;
- how JSON is pulled out of a fenced AI reply;
- the guards, gateway-status handling, fallback category resolution and writes of
  each serverless function;
- tag parsing and formatting;
- the hex and `rgb()` colour strings of the colour picker;
- the debounce of haptic feedback;
- the list caches of the hooks;
- access-code normalisation and the sign-in, lock and breadcrumb screens.

Every call into the hosted platform is a parameter. This covers the store, the AI
gateway, `auth.getUser`, `JSON.parse`, `atob`, `navigator.vibrate`, `localStorage`'s
JSON and the clock.

- A serverless handler is a pure `Handle` function. It returns the response together
  with the trace of platform calls made, in order.
- A hook or component whose state React updates is a `class`. Its methods take the
  store's answer as an argument and return the query or insert they issued.
- Loops of the source are methods proved against a specification function:
  `Prompts.BuildCategoryHierarchy`, `ReviewNote.BuildCategoryOptions` and
  `Serverless.Base64ToArrayBuffer`.
- The branch-by-branch reassignment of `let` variables in the capture handlers is the
  method `Capture.ResolveAndSave`, proved equal to the function `Capture.Resolution`.

Behaviour of the code that a reader might not expect:

- The entries, topics and subtopics hooks leave `loading` unchanged when a fetch
  fails. The categories hook sets it to false.
- The topics hook does nothing at all when there is no user.
- `src/hooks/useAuth.ts` returns only `user`, `loading`, `loginWithCode`,
  `createUniverse` and `signOut` (line 78). `AuthGate.tsx` calls `signIn` and
  `signUp`, and `pages/Index.tsx:8` reads `isUnlocked` and `unlock`, which it hands to
  the lock screen as `onUnlock`. The model takes these as inputs.

## Model

| member | source | states |
|---|---|---|
| Hierarchy.Flatten | src/components/ReviewNoteModal.tsx:71-86 | the rows the nested loop visits: each top-level category, in input order, followed by its children in input order; subcategories of other subcategories and orphans are skipped |
| Hierarchy.ChildrenOf | src/components/ReviewNoteModal.tsx:77-83 | the children listed under a category are exactly the subcategories of the input whose parent is that category |
| Hierarchy.TopLevelRowsInOrder | src/components/ReviewNoteModal.tsx:71-86 | the unindented rows of the flattened list are the top-level categories, in input order |
| Hierarchy.BlockOfMain | src/components/ReviewNoteModal.tsx:77-83 | the row of the j-th top-level category is followed directly by its children's rows, then by the next top-level block |
| Hierarchy.RowsComeFromInput | src/components/ReviewNoteModal.tsx:71-86 | every row shows a category of the input, indented exactly when it is a subcategory, and an indented row's parent is a top-level category of the input |
| Hierarchy.OrphansNeverShown | src/components/ReviewNoteModal.tsx:77-83 | a subcategory whose parent is not a top-level category never appears |
| Hierarchy.AllReachableShown | src/components/ReviewNoteModal.tsx:71-86 | every top-level category appears unindented, and every subcategory of a top-level category appears indented |
| Hierarchy.RowCountOfFlatten | src/components/ReviewNoteModal.tsx:71-86 | the list has one row per top-level category plus one per listed child |
| ReviewNote.SaveRequest | src/components/ReviewNoteModal.tsx:89-107 | the insert `handleSave` makes, or the toast that refuses it |
| ReviewNote.BuildCategoryOptions | src/components/ReviewNoteModal.tsx:71-86 | the loop that pushes select options yields exactly the options of the flattened hierarchy |
| ReviewNote.TopLevelOptions | src/components/ReviewNoteModal.tsx:72-78 | the unindented options are the top-level categories in order, each with its own name and id |
| ReviewNote.OptionsBlock | src/components/ReviewNoteModal.tsx:77-83 | each top-level option is followed by its children's options, their names prefixed by the tree glyph |
| ReviewNote.OrphanHasNoOption | src/components/ReviewNoteModal.tsx:77-83 | with distinct ids, no option offers a subcategory whose parent is not top-level |
| ReviewNote.OptionCount | src/components/ReviewNoteModal.tsx:71-86 | there is one option per row of the hierarchy |
| ReviewNote.SaveRequestGuards | src/components/ReviewNoteModal.tsx:88-107 | a blank title is refused first and a missing selection second; otherwise the entry has a trimmed non-empty title, trimmed content, the selected category and no tags |
| ReviewNote.ReviewNoteModal.constructor | src/components/ReviewNoteModal.tsx:56-59 | the form starts empty and not saving |
| ReviewNote.ReviewNoteModal.Sync | src/components/ReviewNoteModal.tsx:62-68 | when open with a note, the fields take the note's title and content and the suggested category (or none); otherwise they are kept |
| ReviewNote.ReviewNoteModal.HandleSave | src/components/ReviewNoteModal.tsx:88-122 | a refused save inserts nothing and changes nothing; an insert that succeeds closes the dialog and names the category; one that fails keeps it open |
| ReviewNote.ReviewNoteModal.HandleDiscard | src/components/ReviewNoteModal.tsx:124-129 | discarding closes the dialog and clears the form |
| Prompts.HierarchyText | supabase/functions/process-voice/index.ts:131-145 | the hierarchy text of the system prompt: the lines of the flattened rows, or "No categories exist yet" |
| Prompts.CategoryList | supabase/functions/quick-capture/index.ts:46 | the flat list of the prompt: one line per category joined by newlines, or "No categories exist" |
| Prompts.BuildCategoryHierarchy | supabase/functions/process-voice/index.ts:131-145 | the nested loop's text is exactly the hierarchy text of the categories |
| Prompts.HierarchyFallback | supabase/functions/process-voice/index.ts:143-145 | the text is "No categories exist yet" exactly when there is no top-level category; otherwise it starts with the first top-level line |
| Prompts.HierarchyLines | supabase/functions/process-voice/index.ts:131-141 | split at newlines, the text is one "- name (ID: id)" or "  └─ name (ID: id)" line per flattened row, in order, each ended by a newline |
| Prompts.CategoryListFallback | supabase/functions/quick-capture/index.ts:46 | the flat list is "No categories exist" exactly when there are no categories |
| Prompts.CategoryListLines | supabase/functions/voice-transcribe/index.ts:131 | split at newlines, the flat list is one "- name (ID: id)" line per category, in order |
| Fences.FindFence | supabase/functions/process-voice/index.ts:216-217 | one `match` of a fence expression: the first opening, the whitespace after it, and the capture up to the first closing fence |
| Fences.ExtractJson | supabase/functions/process-voice/index.ts:216-219 | the text given to `JSON.parse`: the json-fence capture, else the bare-fence capture, else the whole reply |
| Fences.FindFenceSound | supabase/functions/process-voice/index.ts:216-219 | a found fence is a match of the expression: the leftmost opening, the greedy whitespace, the shortest capture before whitespace and a closing fence |
| Fences.FindFenceComplete | supabase/functions/process-thought/index.ts:159-162 | whenever the expression matches somewhere, the search finds a match |
| Fences.ExtractJsonFence | supabase/functions/quick-capture/index.ts:110-113 | in a reply laid out as text, a json fence, a trimmed payload and a closing fence, the payload is what gets parsed |
| Fences.ExtractBareFence | supabase/functions/voice-transcribe/index.ts:196-199 | in a reply laid out as text, a bare fence, optional whitespace, a trimmed payload, whitespace, a closing fence and any rest, with no backtick outside the two fences, the payload is what gets parsed; when the payload follows the opening directly it must not start with `j` |
| Fences.ExtractWithoutFence | supabase/functions/process-voice/index.ts:216-219 | a reply without backticks is parsed whole |
| Fences.ExtractJsonShape | supabase/functions/process-thought/index.ts:159-162 | the parser gets the whole reply, or a non-empty trimmed capture with no closing fence inside; an empty capture falls back to the whole reply |
| Serverless.ByteCodes | supabase/functions/process-voice/index.ts:13-15 | the bytes a `Uint8Array` stores for the character codes of the decoded string |
| Serverless.CheckGateway | supabase/functions/process-voice/index.ts:191-207 | the check after a gateway call: 429 and 402 are answered with their status and messages, any other failure throws |
| Serverless.ParseReply | supabase/functions/process-voice/index.ts:209-223 | a reply with no text, or whose extracted JSON does not parse, throws "Failed to parse AI response" |
| Serverless.TranscribeAudio | supabase/functions/process-voice/index.ts:75-118 | the transcription call with the decoded bytes, its status check, and the 400 refusal of a missing or blank transcription |
| Serverless.Base64ToArrayBuffer | supabase/functions/process-voice/index.ts:9-17 | the copy loop fills a fresh array with the character codes of the decoded string, modulo 256 |
| Serverless.ByteCodesExact | supabase/functions/voice-transcribe/index.ts:10-18 | for the output of `atob` each byte is exactly the character code at the same index |
| Serverless.ByteCodesInjective | supabase/functions/voice-transcribe/index.ts:10-18 | different decoded audio gives different bytes |
| ProcessVoice.Steps | supabase/functions/process-voice/index.ts:24-241 | the `try` block: the guards in order, the transcription, the category query, the chat call and the suggestion body, each with the calls made so far |
| ProcessVoice.Handle | supabase/functions/process-voice/index.ts:19-258 | the handler: the `try` block, with a thrown error answered as 500 with PROCESSING_ERROR |
| ProcessVoice.RequestGuards | supabase/functions/process-voice/index.ts:26-66 | a missing Authorization header gives 401 with no call; no user gives 401 with AUTH_ERROR after the lookup; no audio gives 400 |
| ProcessVoice.NothingSaved | supabase/functions/process-voice/index.ts:225-240 | whatever the inputs, process-voice never writes to the store |
| ProcessVoice.BlankTranscription | supabase/functions/process-voice/index.ts:108-118 | a missing or whitespace-only transcription gives 400 before the categories are fetched |
| ProcessVoice.GatewayFailures | supabase/functions/process-voice/index.ts:191-207 | failures of the transcription or chat call are 429 and 402 passed through, anything else 500 with PROCESSING_ERROR |
| ProcessVoice.SuccessBody | supabase/functions/process-voice/index.ts:226-240 | on success the calls were the lookup, the transcription, the category query and the chat with the hierarchy; the body carries every category and `original_transcription` falls back to the transcribed text |
| ProcessThought.Steps | supabase/functions/process-thought/index.ts:14-183 | the `try` block: the guards, the category query, the chat call and the suggestion body |
| ProcessThought.Handle | supabase/functions/process-thought/index.ts:9-200 | the handler: the `try` block, with a thrown error answered as 500 with PROCESSING_ERROR |
| ProcessThought.RequestGuards | supabase/functions/process-thought/index.ts:16-56 | a missing header gives 401 with no call; no user gives 401 with AUTH_ERROR; no thought gives 400 before any category fetch or AI call |
| ProcessThought.NothingSaved | supabase/functions/process-thought/index.ts:169-182 | process-thought never writes to the store |
| ProcessThought.AiFailures | supabase/functions/process-thought/index.ts:134-166 | 429 and 402 keep their status; other chat failures and unparsable replies give 500 with PROCESSING_ERROR |
| ProcessThought.SuccessBody | supabase/functions/process-thought/index.ts:169-182 | on success the parsed fields are mapped into `processed`, without a transcription, next to every category, after exactly the lookup, the query and the chat |
| QuickCapture.Steps | supabase/functions/quick-capture/index.ts:14-209 | the `try` block: the input guard, the key, the top-level category query, the chat call and the resolution that files the entry |
| QuickCapture.Handle | supabase/functions/quick-capture/index.ts:9-217 | the handler: the `try` block, with a thrown error answered as 500 without a code |
| QuickCapture.MissingInputRefused | supabase/functions/quick-capture/index.ts:15-22 | a missing thought or userId gives 400 and no call is made |
| QuickCapture.AiFailures | supabase/functions/quick-capture/index.ts:84-100 | 429 and 402 keep their status, other chat failures are 500, and nothing is written |
| QuickCapture.SuccessBody | supabase/functions/quick-capture/index.ts:186-208 | on success the AI got the flat list of the user's top-level categories; the entry was inserted last, under the subcategory, for the user, with no tags |
| VoiceTranscribe.Steps | supabase/functions/voice-transcribe/index.ts:25-296 | the `try` block: the guards, the transcription, the category query, the chat call and the resolution that files the voice note |
| VoiceTranscribe.Handle | supabase/functions/voice-transcribe/index.ts:20-304 | the handler: the `try` block, with a thrown error answered as 500 without a code |
| VoiceTranscribe.RequestGuards | supabase/functions/voice-transcribe/index.ts:27-63 | a missing header gives 401 with no call; no user gives 401 "Unauthorized"; missing audio gives 400 |
| VoiceTranscribe.BlankTranscription | supabase/functions/voice-transcribe/index.ts:108-118 | a blank transcription gives 400 "No speech detected in recording" after only the lookup and the transcription |
| VoiceTranscribe.SuccessBody | supabase/functions/voice-transcribe/index.ts:271-295 | on success the entry is saved under the subcategory, tagged exactly "voice-note", and `original_transcription` falls back to the transcribed text |
| Capture.Resolution | supabase/functions/quick-capture/index.ts:119-198 | the fallback resolution as a value: the chosen category and subcategory, the rows created, and the entry inserted, with every store call in order |
| Capture.ResolveAndSave | supabase/functions/quick-capture/index.ts:119-198 | the step that reassigns the target and then finds or creates the subcategory makes exactly the calls and outcome of the resolution |
| Capture.AiCategoryKept | supabase/functions/quick-capture/index.ts:119-121 | an id given by the AI is used unchanged, and its children are queried first |
| Capture.GeneralCreated | supabase/functions/quick-capture/index.ts:123-140 | with no AI id and no categories, "General" (#6366f1, at 2,0,0) is created first and targeted; a failed insert stops there |
| Capture.FirstCategoryUsed | supabase/functions/quick-capture/index.ts:143-146 | with no AI id but some categories, the first one is targeted |
| Capture.SubcategoryChosen | supabase/functions/voice-transcribe/index.ts:242-268 | the first child is used and no notes row is inserted; with no child a notes row is created under the target and used |
| Capture.EntryUnderSubcategory | supabase/functions/quick-capture/index.ts:186-198 | the entry is inserted last, under the subcategory, with the AI's title and text and the given tags |
| Capture.WriteCount | supabase/functions/voice-transcribe/index.ts:205-283 | at most three rows are written; a successful run writes one row per created category plus the entry |
| Text.Trim | src/components/EditEntryDialog.tsx:32 | `String.prototype.trim` over the ECMAScript whitespace and line terminators |
| Text.ToLower | src/hooks/useAuth.ts:25 | `toLowerCase` on ASCII letters; the result has no capital letter |
| Text.Split | src/components/EditEntryDialog.tsx:35 | `split(sep)`: the pieces between separators, at least one, none containing the separator |
| Text.Join | src/components/EditEntryDialog.tsx:19 | `join(sep)` of a list of strings |
| Text.TrimBlank | src/components/EditEntryDialog.tsx:32 | the trimmed text is empty exactly when the text is all whitespace |
| Text.TrimIdempotent | src/components/EditEntryDialog.tsx:37-42 | trimming twice is trimming once |
| Text.BlankToNullSpec | src/components/EditEntryDialog.tsx:39-41 | blank text becomes null, and other text is stored trimmed |
| Text.SplitJoin | src/components/EditEntryDialog.tsx:19 | splitting a join at a separator that no part contains gives the parts back |
| Tags.FormatTags | src/components/EditEntryDialog.tsx:19 | the text field of an entry's tags: the tags joined by ", " |
| Tags.ParseTags | src/components/EditEntryDialog.tsx:35 | every parsed tag is non-empty and trimmed |
| Tags.ParseTagsConcat | src/components/TopicDetailView.tsx:182 | the tags of a text with a comma are those before it followed by those after it |
| Tags.ParseSinglePiece | src/components/EditEntryDialog.tsx:35 | a piece without commas gives its trimmed text, or nothing when blank |
| Tags.ParseFormatRoundTrip | src/components/EditEntryDialog.tsx:19-35 | tags that are non-empty, comma-free and trimmed survive display and re-parse |
| Tags.ParseFormatParse | src/components/EditEntryDialog.tsx:19-35 | re-parsing the display of parsed tags gives the same tags |
| EditEntry.UpdateOf | src/components/EditEntryDialog.tsx:31-42 | the update `handleSave` passes to `onSave`, or None for a blank title |
| EditEntry.UpdateOfSpec | src/components/EditEntryDialog.tsx:31-42 | a blank title saves nothing; otherwise the title is trimmed and non-empty, the tags are parsed, and blank content or image description becomes null |
| EditEntry.ResetThenSave | src/components/EditEntryDialog.tsx:17-42 | saving a dialog freshly filled from a normalised entry sends that entry's fields back |
| EditEntry.EditEntryDialog.constructor | src/components/EditEntryDialog.tsx:17-21 | the fields start from the entry, with tags joined by ", " |
| EditEntry.EditEntryDialog.Reset | src/components/EditEntryDialog.tsx:24-29 | a change of entry resets all four fields from it |
| EditEntry.EditEntryDialog.HandleSave | src/components/EditEntryDialog.tsx:31-49 | the update sent is the normalised form; the dialog closes only when the save succeeds |
| TopicDetail.SelectionAfterDelete | src/components/TopicDetailView.tsx:47-49 | the selection after a successful delete |
| TopicDetail.SelectionAfterDeleteSpec | src/components/TopicDetailView.tsx:47-49 | deleting the selected subtopic clears the selection, and deleting another keeps it |
| TopicDetail.TopicDetailView.constructor | src/components/TopicDetailView.tsx:21-23 | no subtopic is selected and the name field starts empty |
| TopicDetail.TopicDetailView.Select | src/components/TopicDetailView.tsx:126 | selecting a subtopic changes only the selection |
| TopicDetail.TopicDetailView.HandleAddSubtopic | src/components/TopicDetailView.tsx:25-39 | a blank name adds nothing; otherwise the trimmed name is added and the field is cleared only on success |
| TopicDetail.TopicDetailView.HandleDeleteSubtopic | src/components/TopicDetailView.tsx:41-51 | a successful delete updates the selection as above, and a failed one changes nothing |
| TopicDetail.AddEntryRequest | src/components/TopicDetailView.tsx:175-182 | the arguments `handleAddEntry` passes to `addEntry`, or the toast that refuses a blank title |
| TopicDetail.AddEntryRequestSpec | src/components/TopicDetailView.tsx:175-182 | a blank title is refused before any add; otherwise title and content are trimmed and every tag is non-empty and trimmed |
| TopicDetail.AddEntryTagsInOrder | src/components/TopicDetailView.tsx:182 | entry tags keep the order they were typed in |
| TopicDetail.EntriesPanel.constructor | src/components/TopicDetailView.tsx:171-173 | the add dialog starts closed with an empty form |
| TopicDetail.EntriesPanel.HandleAddEntry | src/components/TopicDetailView.tsx:175-194 | after a successful add the form resets and the dialog closes; after a failure both are kept |
| Color.IsHexColor | src/components/ColorPicker.tsx:134 | the `/^#[0-9A-Fa-f]{6}$/` test |
| Color.HexOf | src/components/ColorPicker.tsx:99-101 | the `#rrggbb` string of three channels, each `toString(16).padStart(2, '0')` |
| Color.FindRgb | src/components/ColorPicker.tsx:123 | the leftmost match of `/rgb\((\d+), (\d+), (\d+)\)/` and its three numbers |
| Color.HueColor | src/components/ColorPicker.tsx:123-128 | the colour `handleHueClick` passes to `onChange` for a computed style, or None when nothing matches |
| Color.ChannelHexSpec | src/components/ColorPicker.tsx:99-101 | a channel from 0 to 255 is two lowercase hex digits that read back as the channel |
| Color.WideChannel | src/components/ColorPicker.tsx:99-101 | a value of 256 or more gives more than two digits |
| Color.HexOfRoundTrip | src/components/ColorPicker.tsx:21-23 | the formatted colour passes the hex check, and the slices read as base 16 recover the three channels |
| Color.HexOfInjective | src/components/ColorPicker.tsx:99-101 | different channels give different hex strings |
| Color.FindRgbSpec | src/components/ColorPicker.tsx:123 | the search finds a match exactly when one starts somewhere, and it is the leftmost one |
| Color.NoRgbNoColor | src/components/ColorPicker.tsx:123-129 | a computed string without "rgb(" produces no colour, so `onChange` is not called |
| Color.HueColorOfComputed | src/components/ColorPicker.tsx:123-128 | a computed `rgb(r, g, b)` with decimal channels becomes the valid hex colour of those channels |
| Color.ColorPicker.constructor | src/components/ColorPicker.tsx:12 | the text field starts as the colour prop |
| Color.ColorPicker.SyncColor | src/components/ColorPicker.tsx:18-19 | a new colour prop resets the text field |
| Color.ColorPicker.HandleHexChange | src/components/ColorPicker.tsx:132-137 | typed text is always kept; `onChange` gets it iff it is '#' and six hex digits of either case |
| Haptic.Step | src/hooks/useHapticFeedback.ts:12-33 | one call of `vibrate`: whether it buzzes, and the new `lastTrigger` |
| Haptic.Fired | src/hooks/useHapticFeedback.ts:12-33 | the times at which a run of calls buzzes |
| Haptic.FiredSpaced | src/hooks/useHapticFeedback.ts:12-33 | over any run of attempts each buzz is a supported, non-throwing attempt, and buzzes are at least the debounce after the last one and after each other |
| Haptic.FiredApart | src/hooks/useHapticFeedback.ts:16-25 | any two buzzes are at least the debounce apart |
| Haptic.HapticFeedback.constructor | src/hooks/useHapticFeedback.ts:9-10 | the defaults are duration 50 and debounce 150, and the last trigger starts at 0 |
| Haptic.HapticFeedback.Vibrate | src/hooks/useHapticFeedback.ts:12-33 | a buzz within the debounce, unsupported or throwing returns false and keeps `lastTrigger`; a buzz sets it to now and returns true |
| ListCache.Replaced | src/hooks/useCategories.ts:99 | the list after an update: `prev.map` that swaps in the stored row by id |
| ListCache.Removed | src/hooks/useCategories.ts:114 | the list after a delete: `prev.filter` by id |
| ListCache.ReplacedSpec | src/hooks/useCategories.ts:99 | update replaces every element with the id, keeps all others and keeps the length |
| ListCache.RemovedSpec | src/hooks/useCategories.ts:114 | delete removes exactly the elements with the id, keeps the others' multiplicity and order, and changes nothing when the id is absent |
| ListCache.AddThenRemove | src/hooks/useEntries.ts:57 | removing a freshly added row, appended or prepended, gives the list back |
| ListCache.ReplaceThenRemove | src/hooks/useCategories.ts:86-116 | removing after replacing a row is the same as removing it |
| UseCategories.CategoriesHook.constructor | src/hooks/useCategories.ts:6-7 | the hook starts empty and loading |
| UseCategories.CategoriesHook.Fetch | src/hooks/useCategories.ts:9-40 | without a user the list is emptied and no query is made; otherwise the user's top-level categories or a parent's children are queried in ascending order; an error keeps the list; loading ends |
| UseCategories.CategoriesHook.Add | src/hooks/useCategories.ts:58-84 | without a user it is refused; a stored row is appended; a failure keeps the list |
| UseCategories.CategoriesHook.Update | src/hooks/useCategories.ts:86-101 | a stored row replaces its id, and a failure keeps the list |
| UseCategories.CategoriesHook.Delete | src/hooks/useCategories.ts:103-116 | a successful delete removes the id, and a failure keeps the list |
| UseEntries.EntriesHook.constructor | src/hooks/useEntries.ts:7-8 | the hook starts empty and loading |
| UseEntries.EntriesHook.Fetch | src/hooks/useEntries.ts:11-31 | without a user or a subtopic the list empties and loading ends; the query is newest first; an error changes nothing |
| UseEntries.EntriesHook.Add | src/hooks/useEntries.ts:37-59 | without a user or a subtopic it is refused; a stored entry goes to the front |
| UseEntries.EntriesHook.Update | src/hooks/useEntries.ts:61-76 | a stored entry replaces its id, and a failure keeps the list |
| UseEntries.EntriesHook.Delete | src/hooks/useEntries.ts:78-91 | a successful delete removes the id, and a failure keeps the list |
| UseTopics.TopicsHook.constructor | src/hooks/useTopics.ts:7-8 | the hook starts empty and loading |
| UseTopics.TopicsHook.Fetch | src/hooks/useTopics.ts:11-26 | without a user nothing happens; an error keeps topics and loading |
| UseTopics.TopicsHook.Add | src/hooks/useTopics.ts:46-71 | without a user it is refused; a stored topic is appended |
| UseTopics.TopicsHook.Delete | src/hooks/useTopics.ts:73-86 | a successful delete removes the id in order, and a failure keeps the list |
| UseSubtopics.SubtopicsHook.constructor | src/hooks/useSubtopics.ts:7-8 | the hook starts empty and loading |
| UseSubtopics.SubtopicsHook.Fetch | src/hooks/useSubtopics.ts:11-31 | without a user or a topic the list empties and loading ends; an error changes nothing |
| UseSubtopics.SubtopicsHook.Add | src/hooks/useSubtopics.ts:37-57 | without a user or a topic it is refused; a stored subtopic is appended |
| UseSubtopics.SubtopicsHook.Delete | src/hooks/useSubtopics.ts:59-72 | a successful delete removes the id, and a failure keeps the list |
| Auth.NormalizeCode | src/hooks/useAuth.ts:25 | the access code as it is stored and looked up: trimmed, then lowercased |
| Auth.NormalizeCodeSpec | src/hooks/useAuth.ts:24-28 | a normalised code is trimmed and lowercase; normalising again, lowercasing first or adding leading blanks changes nothing |
| Auth.AuthHook.constructor | src/hooks/useAuth.ts:8-9 | no user, loading, and the given storage |
| Auth.AuthHook.Restore | src/hooks/useAuth.ts:11-22 | a stored user that parses is restored; one that does not is removed from storage; loading ends |
| Auth.AuthHook.LoginWithCode | src/hooks/useAuth.ts:24-52 | a code shorter than 3 is refused with no lookup; a found user is signed in and stored; an unknown code is new; a failed lookup changes nothing |
| Auth.AuthHook.CreateUniverse | src/hooks/useAuth.ts:54-71 | the normalised code is inserted; a created user is signed in and stored, and a failure changes nothing |
| Auth.AuthHook.SignOut | src/hooks/useAuth.ts:73-76 | the user is cleared and the storage key removed |
| LockScreen.Unlocks | src/components/LockScreen.tsx:47 | the unlock test: the stored code equals the typed code, trimmed and lowercased |
| LockScreen.UnlockSpec | src/components/LockScreen.tsx:47-56 | only a non-empty, trimmed, lowercase stored code can unlock, and a code unlocks its own account whatever its case or leading blanks |
| LockScreen.LockScreenView.constructor | src/components/LockScreen.tsx:16-18 | the field starts empty, not loading, not animating |
| LockScreen.LockScreenView.HandleSubmit | src/components/LockScreen.tsx:21-61 | a blank code is refused with no query; the screen unlocks iff the stored code equals the normalised typed one; each failure gets its own message |
| AuthScreen.SignUpIssues | src/components/AuthScreen.tsx:9-13 | the messages of the sign-up schema that fail, in the schema's order |
| AuthScreen.LoginIssues | src/components/AuthScreen.tsx:71-74 | the messages of the login schema that fail, in order |
| AuthScreen.ErrorText | src/components/AuthScreen.tsx:55-91 | the toast text for an error from the auth service: on sign-up a message containing "already registered", on login one containing "Invalid login credentials", is replaced by a fixed text; any other is shown as it is |
| AuthScreen.SignUpRules | src/components/AuthScreen.tsx:9-13 | sign-up passes iff the email is valid, the password has 6 characters and the code 3 to 20, and the first issue is reported in that order |
| AuthScreen.LoginRules | src/components/AuthScreen.tsx:70-74 | login passes iff the email is valid and the password is not empty |
| AuthScreen.SignUpImpliesLogin | src/components/AuthScreen.tsx:9-74 | every accepted sign-up form also passes the login check |
| AuthScreen.AuthScreenView.constructor | src/components/AuthScreen.tsx:20-25 | the form starts empty in login mode |
| AuthScreen.AuthScreenView.HandleSubmit | src/components/AuthScreen.tsx:27-107 | an invalid form shows the first issue with no call; a valid one signs up with the trimmed email and normalised code, or signs in; each answer gets its toast |
| AuthScreen.AuthScreenView.ToggleMode | src/components/AuthScreen.tsx:202 | toggling switches the mode and keeps the form |
| AuthGate.GateIssue | src/components/AuthGate.tsx:23-31 | the first guard of `handleSubmit` that fails, with its toast |
| AuthGate.GateRules | src/components/AuthGate.tsx:23-31 | the gate passes iff the email is non-empty and the password has at least 6 characters |
| AuthGate.AuthGateView.constructor | src/components/AuthGate.tsx:13-17 | the form starts empty in sign-in mode |
| AuthGate.AuthGateView.ToggleMode | src/components/AuthGate.tsx:106 | toggling switches between sign-in and sign-up and keeps the form |
| AuthGate.AuthGateView.HandleSubmit | src/components/AuthGate.tsx:20-51 | a refused form shows the issue with no call; otherwise the call is made and an error or success toast follows |
| Breadcrumbs.Crumbs | src/components/Breadcrumbs.tsx:15-53 | the crumbs shown for a navigation state, with the current one emphasised |
| Breadcrumbs.CrumbsSpec | src/components/Breadcrumbs.tsx:15-53 | the universe crumb comes first, depth increases, exactly the current level's crumb is emphasised, and the topic and subtopic crumbs show exactly at their levels |
| IndexPage.ScreenFor | src/pages/Index.tsx:11-36 | the screen the page renders, by its early returns |
| IndexPage.ScreenSpec | src/pages/Index.tsx:7-36 | a spinner iff loading; the sign-in screen iff no user; the lock screen iff signed in but locked; the universe otherwise |

## Left out

- Network, store and AI calls are not modelled: their results are parameters. This covers `supabase.auth.getUser`, the queries and inserts, and the gateway responses with their reply text.
- `JSON.parse`, `JSON.stringify` and `atob` are opaque parameters. A request body that is not JSON, or has fields that are not strings, is not modelled.
- The `details` fields of error responses, CORS headers and the OPTIONS preflight are not modelled.
- The system prompt text is not modelled. The model keeps only which category context (hierarchy or flat list) and which user text the chat call receives.
- An error message is carried as an opaque string. This includes the `'Unknown error'` and PostgrestError texts.
- Floating point is not modelled: sphere positions in `useCategories.ts:46-56`, the hue computation and canvas drawing in `ColorPicker.tsx`, and `KnowledgeSphere.tsx`. The category insert therefore carries no position.
- `VoiceRecorder.tsx`, `QuickCapture.tsx`, `UniverseView.tsx` and the dialog components not listed above are not part of this model.
- `ColorPicker.tsx:98-103` reads canvas pixels. Only the formatting of the pixel's channels is modelled, through `HexOf`.
- Timers, toasts and animation delays are returned values rather than effects. So are React re-renders. Concurrent async updates to React state are not interleaved.
- `LockScreen.tsx:63-67` (`handleLogout`) is not modelled. It sets `isLoggingOut`, which `LockScreenView` does not carry, awaits the platform call `supabase.auth.signOut()`, and then calls `onLogout`. It shows no toast.
- `TopicDetailView.tsx:196-203` (`handleDeleteEntry`) is not modelled beyond its hook call, `UseEntries.EntriesHook.Delete`. What remains is its success or failure toast.
- The email check of the zod schema is the opaque predicate `isEmail`.
- `toLowerCase` is modelled for ASCII letters only. Lengths count code points, not UTF-16 units.
- `categories` is null when the store returns no list and no error. The model has no such case: a query gives either a list or an error.
- `parseInt` has two uses in `ColorPicker.tsx`. At lines 21-23 it reads the two-digit hex slices of a valid colour. At line 126 it reads the decimal digit runs of a computed `rgb(...)` colour, modelled by `Color.DecimalValue`. On these inputs it is modelled as exact integer reading.
- Color.HueColor: reads each channel's digit run exactly, while JavaScript's `parseInt` returns a double and rounds runs of 2^53 or more. For such a channel, `rgb(9007199254740993, 0, 0)` say, the model and the source give different colours. A browser's computed style has channels 0-255, and `Color.HueColorOfComputed` covers that case.
- `isSupported` of the haptic hook is not modelled, because it is a direct browser probe. `duration` is only stored; its one use is to be passed to `navigator.vibrate`.
- Haptic.FiredApart: assumes a non-negative debounce. With a negative debounce the source gives no spacing guarantee.
- `signIn`, `signUp`, `isUnlocked` and `unlock` are inputs, because `src/hooks/useAuth.ts` does not return them (line 78).

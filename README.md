# Somnium dream journal — a Dafny model of its core

Somnium records a spoken dream, has a generative-model service transcribe it, interpret
it (core theme, archetypes, symbols, psychological context) and illustrate it, and then
lets the dreamer chat about the dream. This project models the part of the program
beneath the interface:

- the in-memory **dream-entry store** (`App.tsx`): prepending a new entry, setting the
  interpretation or the image on every entry with an id, replacing an entry by id, and
  finding the selected entry;
- the **pipeline** `handleRecordingComplete`, which runs transcription → interpretation →
  illustration, commits each result as it arrives and stops at the first failure, with
  the `isProcessing` flag and the selection;
- the **chat turn** of `DreamDisplay.tsx`: its guard, the optimistic user message, the
  reply update built from the entry as it was when the send began, and the
  `chatInput`/`isChatting` flags;
- the **request-building and reply-handling rules** of `geminiService.ts`: the image model
  and `imageConfig` per size tier, the image prompt, the scan for the first inline-data
  part and the `data:` URL of RFC 2397 (section 3), the fallbacks and errors of the four
  service functions;
- the **recorder** (`Recorder.tsx`): the `m:ss` counter display, the non-empty chunk
  filter, the start/stop/tick transitions, and the base64 payload taken from the data URL;
- the records of `types.ts`.

Files: `wrappers.dfy` (Option, Result), `types.dfy`, `text.dfy` (the JavaScript string
operations used: `join`, `split`, integer `toString`, `padStart`, `trim`),
`gemini_service.dfy`, `recorder.dfy`, `dream_display.dfy`, `app.dfy`.

Every call to the remote service is a parameter: its reply, or `Err(message)` when the
call throws; a reply whose `text` is undefined is `None`. `JSON.parse` is a parameter
`parse: string -> Option<Interpretation>` (`None` where it throws). `Date.now()` is two
parameters, since the handler reads the clock twice (once for the id, once for the
timestamp). Each handler is a method run to completion; the one suspension point of a
chat send splits it into `BeginSend` and `FinishSend`, and the pipeline returns the calls
it waited on together with the state the interface could see at each.

The model follows what the code does in these places, each of which falls short of
something the code itself sets up:

- A recording is completed by the handler of the render in which recording began, so
  the entry and its image get the size selected at that moment; the size select stays
  enabled while recording, and a change made meanwhile shows in the select but not in
  that entry (`Pipeline`'s `recordedSize`, `PipelineIgnoresCurrentSize`).
- An empty transcription does not abort the pipeline, although the pipeline's `catch`
  exists to stop on a failed stage: `transcribeAudio` answers "Transcription failed."
  and an entry with that text is created (`TranscribeAudio`).
- The parsed interpretation is not checked against the response schema the request
  declares (coreTheme, archetypes, symbols, psychologicalContext, all required); only a
  reply that does not parse raises "Invalid interpretation format returned from API"
  (`InterpretDream`).
- `getDreamChatResponse` takes a `history` parameter that it never uses: each turn opens
  a fresh chat whose only context is the transcription (`ChatRequestIgnoresHistory`).
- `DreamEntry.id` is the store's key, yet ids are millisecond clock readings and need not
  be unique; every store update touches all entries with the id (`PipelineOlderEntries`).
- The chat reply is meant to add one message pair, but it writes back every field of the
  entry as it was when the send began. An interpretation committed while the reply is
  pending is lost, and the later image then
  leaves the entry illustrated but not interpreted (`StaleChatReplyRestoresSnapshot`,
  `ChatRaceBreaksStageOrder`).

## Model

| member | source | states |
|---|---|---|
| Types.SizeLabel | types.ts:2 | a tier's label is two characters ending in `K` |
| Types.ParseSize | types.ts:2 | a label read back as a tier has that tier's label |
| Types.SizeLabelRoundTrip | types.ts:2 | exactly three tiers: `ParseSize(l) == Some(s)` iff `SizeLabel(s) == l`, and only "1K", "2K", "4K" parse |
| Types.RoleLabel | types.ts:17-20 | a message role is `user` or `model`, one label each |
| Types.ProgressOf | types.ts:22-31 | an entry whose image follows its interpretation is transcribed iff it has no interpretation, illustrated iff it has an image |
| Text.Split | components/Recorder.tsx:32 | `split` yields at least one piece; for a one-character separator, exactly one piece iff the separator does not occur |
| Text.Join | services/geminiService.ts:89 | `join` begins with the first element, followed by the separator when there are two or more |
| Text.JoinShape | services/geminiService.ts:89 | `join` ends with the last element; with a non-empty separator it is empty iff there are no elements or one empty one |
| Text.SplitJoin | services/geminiService.ts:89 | splitting at a separator undoes joining with it when no element contains its first character |
| Text.NatToString | App.tsx:21 | decimal form of a non-negative integer: digits only, no leading zero, one digit iff below 10, no `:` or `,` |
| Text.DecimalOfNatToString | App.tsx:21 | reading the decimal form back gives the number |
| Text.NatToStringInjective | App.tsx:21 | distinct clock readings give distinct ids |
| Text.PadStart | components/Recorder.tsx:61 | `padStart`: the string unchanged when long enough, otherwise fill characters in front up to the target length |
| Text.Trim | components/DreamDisplay.tsx:16 | `trim` gives the empty string exactly when every character is JavaScript white space |
| GeminiService.TranscriptionRequestFor | services/geminiService.ts:10-21 | the audio goes as `audio/webm` inline data to the flash model, with the verbatim-transcription instruction |
| GeminiService.TranscribeAudio | services/geminiService.ts:8-23 | a thrown call propagates; otherwise the result is never empty, a non-empty reply is returned unchanged, and the result is the fallback exactly when the reply had no text |
| GeminiService.InterpretationRequestFor | services/geminiService.ts:28-41 | the prompt is the fixed instructions followed by the transcription; JSON is asked for |
| GeminiService.InterpretDream | services/geminiService.ts:74-80 | an empty reply is parsed as `{}`; the result is an error exactly when the call throws or parsing fails, and then the invalid-format message |
| GeminiService.ImageModelFor | services/geminiService.ts:86 | the flash image model exactly for 1K, the pro model exactly otherwise |
| GeminiService.SymbolObjects | services/geminiService.ts:89 | the symbols' `object` names, in order |
| GeminiService.ImagePrompt | services/geminiService.ts:88-90 | for every interpretation: the fixed opening, the core theme quoted in full, the fixed lead-in to the symbols, and the fixed art-style closing at the end |
| GeminiService.ListingIsJoin | services/geminiService.ts:89 | the part between the lead-in and the closing is the symbols' `object` names joined with ", " |
| GeminiService.ImagePromptListing | services/geminiService.ts:89 | for every interpretation the listing starts with the first symbol's name, followed by ", " when there are two or more, ends with the last one's, and is empty iff there are no symbols or one with an empty name |
| GeminiService.ImagePromptListingSplits | services/geminiService.ts:89 | with at least one symbol and no comma in any name, splitting the listing at ", " gives the names back in order |
| GeminiService.ImageRequestFor | services/geminiService.ts:92-100 | aspect ratio always "1:1"; `imageSize` present iff the tier is not 1K, and then equal to the tier |
| GeminiService.GenerateDreamImage | services/geminiService.ts:83-116 | builds the request above; the result is the PNG data URL of the first inline-data part, "No image generated" iff no part has inline data, a thrown call or a missing candidate an error |
| GeminiService.ImageDataUrl | services/geminiService.ts:112 | the URL is the PNG base64 prefix followed by the part's data, unchanged |
| GeminiService.ImageDataUrlSplitsAtComma | services/geminiService.ts:112 | the image URL splits at its comma into the RFC 2397 header and the data |
| GeminiService.ChatRequestFor | services/geminiService.ts:118-132 | the chat request carries the chat model and the new message; its system instruction is the fixed analyst opening, the dream verbatim between double quotes, then the fixed closing |
| GeminiService.ChatRequestIgnoresHistory | services/geminiService.ts:120-132 | two histories give the same request: the history is not sent |
| GeminiService.GetDreamChatResponse | services/geminiService.ts:132-133 | a thrown call propagates; a non-empty reply is returned unchanged; an empty or missing one becomes the fixed apology, so never an empty text |
| Recorder.NonEmptyChunks | components/Recorder.tsx:24 | every kept chunk is non-empty, and no more are kept than arrived |
| Recorder.NonEmptyChunksMembers | components/Recorder.tsx:24 | a chunk is kept exactly when it arrived and is non-empty |
| Recorder.NonEmptyChunksAppend | components/Recorder.tsx:23-25 | filtering arrival by arrival equals filtering all arrivals at once, so arrival order is kept |
| Recorder.RecorderState.constructor | components/Recorder.tsx:10-14 | not recording, counter 0, no recorder, no chunks |
| Recorder.RecorderState.StartRecording | components/Recorder.tsx:16-48 | with microphone access: chunks reset to empty, recording, counter 0; without: an alert and no change |
| Recorder.RecorderState.OnDataAvailable | components/Recorder.tsx:23-25 | a chunk is appended iff its size is above 0 |
| Recorder.RecorderState.Tick | components/Recorder.tsx:41-43 | each tick of the running interval adds exactly 1 to the counter |
| Recorder.RecorderState.StopRecording | components/Recorder.tsx:50-56 | acts iff a recorder exists and a recording runs; then recording stops; counter and chunks stay |
| Recorder.Base64Payload | components/Recorder.tsx:32 | `split(',')[1]`: defined exactly when the URL has a comma |
| Recorder.PayloadOfDataUrl | components/Recorder.tsx:29-32 | for a base64 `data:` URL the payload is exactly the encoded data |
| Recorder.PaddedSecondsValue | components/Recorder.tsx:59-61 | the seconds field is two digits whose value is the seconds below a minute |
| Recorder.FormatTime | components/Recorder.tsx:58-62 | the display is the unpadded minutes, a colon and two digits |
| Recorder.FormatTimeLength | components/Recorder.tsx:58-62 | the display is four characters long (one minute digit) iff the count is below ten minutes |
| Recorder.FormatTimeRoundTrip | components/Recorder.tsx:58-62 | reading `m:ss` back gives the count: seconds field below 60, minutes * 60 + seconds = count |
| Recorder.FormatTimeInjective | components/Recorder.tsx:58-62 | distinct counts display differently |
| Recorder.FormatTimeExample | components/Recorder.tsx:61 | minutes are not padded: 605 shows as "10:05" |
| DreamDisplay.OptimisticUpdate | components/DreamDisplay.tsx:18-25 | old history plus one user message with the raw input; every other field from the snapshot |
| DreamDisplay.ChatCall | components/DreamDisplay.tsx:28 | the service is asked with the transcription and the raw input; the request equals the one for the history before the send |
| DreamDisplay.ReplyUpdate | components/DreamDisplay.tsx:27-33 | an update iff the call succeeds: history is the optimistic one plus the model's reply, two longer than before, every other field from the snapshot |
| DreamDisplay.RepeatedSendsAppendTwice | components/DreamDisplay.tsx:15-36 | two sends of the same text append two independent pairs |
| DreamDisplay.ChatPanel.constructor | components/DreamDisplay.tsx:12-13 | empty input, no chat in flight |
| DreamDisplay.ChatPanel.SetChatInput | components/DreamDisplay.tsx:116 | typing replaces the input |
| DreamDisplay.ChatPanel.BeginSend | components/DreamDisplay.tsx:15-25 | blank input or a chat in flight: no change, no update; otherwise input cleared, flag set, the optimistic update handed up |
| DreamDisplay.ChatPanel.FinishSend | components/DreamDisplay.tsx:27-35 | the reply update (if any) handed up; the flag cleared in every case |
| App.UpdateWhereId | App.tsx:34 | `map` by id: same length, matching entries transformed, others untouched |
| App.Prepend | App.tsx:29 | one more entry, at index 0, the old entries after it in order |
| App.SetInterpretation | App.tsx:34 | only `interpretation` changes, only on entries with the id |
| App.SetImageUrl | App.tsx:38 | only `imageUrl` changes, only on entries with the id |
| App.ReplaceById | App.tsx:123 | every entry with the updated id is replaced, the others untouched |
| App.FindById | App.tsx:48 | the first entry with the id, none iff no entry has it or nothing is selected |
| App.FindAfterReplace | App.tsx:120-123 | after an update is applied, the selected entry is the update |
| App.NewEntry | App.tsx:20-26 | a new entry is at the transcribed stage, with no audio, interpretation or image and an empty history; its id is decimal digits reading back as the clock value |
| App.Pipeline | App.tsx:14-46 | busy at every call, not busy after; the size select is left as it was; the first call is the transcription; an alert iff some reached stage failed |
| App.PipelineTranscriptionFailure | App.tsx:18-45 | a failed transcription adds nothing, keeps the selection, calls nothing more |
| App.PipelineAddsOneEntry | App.tsx:18-30 | a transcription adds one entry in front, selected, with the text, the size selected when recording began, empty history and no interpretation or image, shown before interpretation is asked for |
| App.PipelineStageOrder | App.tsx:32-38 | the image is asked for, at the size selected when recording began, only after the interpretation is stored; the new entry ends transcribed, interpreted or illustrated as the stages succeed |
| App.PipelineIgnoresCurrentSize | App.tsx:25-37 | a size chosen while recording changes only the select: same entries, same calls, same alert |
| App.PipelineOlderEntries | App.tsx:34-38 | older entries stay unless they share the new id, in which case they receive the interpretation and image too |
| App.PipelineKeepsStagesOrdered | App.tsx:32-38 | if no entry had an image without an interpretation, none has afterwards |
| App.AppState.constructor | App.tsx:9-12 | no entries, nothing selected, not busy, size 1K |
| App.AppState.SetImageSize | App.tsx:61-63 | the selected size changes, nothing else; a recording under way keeps the size it began with |
| App.AppState.SelectDream | App.tsx:86 | the selection changes, nothing else |
| App.AppState.SelectedDream | App.tsx:48 | the shown entry is in the store and has the selected id; none only when no entry has it |
| App.AppState.OnUpdate | App.tsx:123 | the store after an update is the replace-by-id of the store before |
| App.AppState.HandleRecordingComplete | App.tsx:14-46 | the new state, the calls waited on and the alert are those of `Pipeline` on the old state and the size selected when recording began |
| App.StaleChatReplyRestoresSnapshot | components/DreamDisplay.tsx:30 | a reply update restores fields changed while it was pending (an interpretation is lost) and appends its pair |
| App.ChatRaceBreaksStageOrder | components/DreamDisplay.tsx:30 | chat racing the pipeline can leave an entry with an image and no interpretation |

## Left out

- The generative-model service (`generateContent`, `chats.create`, `sendMessage`), the API
  key and the response schema: remote and nondeterministic; replies are parameters.
- `JSON.parse`: a parameter; its internals are not modelled.
- GeminiService.InterpretDream: the parsed value is typed as a well-formed interpretation, so a reply such as `{}` that parses to an object without `symbols` (and makes the later `symbols.map` throw) is not represented.
- GeminiService.GenerateDreamImage: of the reply's shape only a missing first candidate is modelled; a candidate without `content`, or inline data without `data`, is not.
- Microphone access, `MediaRecorder`, `Blob` assembly, `FileReader` and stopping the
  tracks: platform audio; the outcome of asking for the microphone is a parameter, chunk
  arrivals and the data URL are inputs.
- Recorder.RecorderState.StartRecording: requires that no recording runs, since the button stops a running recording instead; a second interval a repeated start would leak is not modelled.
- `setInterval`/`clearInterval` scheduling, `Date.now()` and `toLocaleDateString`: timers
  and the clock; ticks are method calls and clock readings parameters.
- Text.NatToString: integers of 10^21 and above, which JavaScript prints in exponent notation, are not modelled; clock readings and the counter stay far below.
- Recorder.FormatTime: negative and fractional counts are not modelled; the counter is a non-negative integer.
- App.AppState.HandleRecordingComplete: the audio payload is a string; an undefined payload (a data URL without a comma) is not passed through.
- Interleavings of concurrent pipelines and chats and React's render batching: each
  handler runs to completion; the chat/pipeline race is shown only by composing the
  store updaters in the order the race produces.
- `audioUrl` is declared on entries but never set by the program; the model keeps it absent.
- Rendering, `alert` (modelled as a returned flag) and `console.error`.

# Digital Boost Pro AI pages, modelled in Dafny

A model of the logic behind the "AI" pages of a marketing website built with React and
the Google generative-AI SDK:

- **Live voice support** (`pages/LiveSupport.tsx`). A voice conversation runs over a live
  session. Inbound audio chunks are scheduled for back-to-back playback on an output
  clock. A barge-in (`interrupted`) message stops everything that is playing.
- **Business consultant chat** (`pages/Consultant.tsx`). The page holds a message list
  that only grows, grounding links taken from search results, and a read-aloud button.
- **The service layer** (`services/geminiService.ts`). It picks the model and
  configuration for each request, digs images, speech and video URIs out of SDK
  responses, decides when to open the API-key selector, and polls a video operation.
- **Creative studio** (`pages/Creative.tsx`). Three request forms, each with an input
  guard and a busy flag. The page also splits the uploaded image's data URL and cycles a
  loading message.

Files and modules:

| file | module | what |
|---|---|---|
| `wrappers.dfy` | `Wrappers` | `Option` (a value that may be `undefined`) and `Result` (a call that returns or throws) |
| `js_string.dfy` | `JsString` | ECMAScript string semantics the code relies on: `trim`, `indexOf`, `substring`, one-character `split`, template rendering of `undefined` |
| `gemini_service.dfy` | `GeminiService` | SDK response shapes as datatypes, and the service functions |
| `live_support.dfy` | `LiveSupport` | the live session as a class with one method per event |
| `consultant.dfy` | `Consultant` | message building, the byte loop, the page's state as a class |
| `creative.dfy` | `Creative` | the loading index, the data-URL split, the page's state as a class |

How the model is built:

- State the code updates in place is a class. This covers the page's React state and
  refs, and each playback source (`PlaybackSource`, whose identity matters for
  `Set.delete`).
- Expression-only code is functions.
- Each `async` handler is split at its `await`. `BeginX` is the code before the await
  and returns the request it issues. `CompleteX` is the code after it and takes the
  awaited result (return value or thrown error) as a parameter.
- Events are handled one at a time.
- Foreign inputs are parameters:
  - the output clock `outputCtx.currentTime`;
  - the PCM decoder of `services/audioUtils` (a function that yields a non-negative
    duration or rejects);
  - `atob`;
  - `decodeAudioData`;
  - `fetch`'s `ok`;
  - the SDK's replies.
- Times and durations are exact `real` seconds.

What the live-session code does, and the model with it:

- The code has no session state machine: the session is a `connected` boolean, and
  there is no guard against starting a session while one is open.
- A zero-length decoded buffer is scheduled like any other.
- An interrupt sets the cursor to 0, not to the clock. The next chunk still starts at the
  clock, because of the `max`.
- A decoder rejection ends the message handler after the cursor has already been moved to
  `max(cursor, clock)`, and that message's `interrupted` flag is then never looked at.
- A model turn without a `parts` array raises a TypeError in the `?.` chain, so the
  handler does nothing.
- Remote close and remote error only lower `connected` and set the error text. They stop
  neither capture nor playback.
- `stopSession` never resets the cursor (see Findings).

## Model

| member | source | states |
|---|---|---|
| `LiveSupport.Interrupted` | pages/LiveSupport.tsx:97-98 | undefined server content is not an interrupt; otherwise the message interrupts exactly when its `interrupted` flag is `true` |
| `LiveSupport.AudioOf` | pages/LiveSupport.tsx:70-71 | audio is found exactly when `parts[0].inlineData.data` is a non-empty string, and that string is the payload; a present turn without `parts` throws |
| `LiveSupport.OnlyFirstPartInspected` | pages/LiveSupport.tsx:70 | parts after the first never affect whether audio is found, nor the interrupt flag |
| `LiveSupport.DecodedChunk` | pages/LiveSupport.tsx:71-82 | a chunk is scheduled exactly when there is audio and the decoder accepts it, with the decoder's duration |
| `LiveSupport.ChunkStart` | pages/LiveSupport.tsx:72-75 | a chunk starts no earlier than the cursor and no earlier than the clock, at one of the two |
| `LiveSupport.StartTimes` | pages/LiveSupport.tsx:72-93 | a run of chunks with no interrupt gets one start time per chunk |
| `LiveSupport.StartTimesGapless` | pages/LiveSupport.tsx:72-93 | consecutive chunks never overlap; the next starts exactly at the previous end unless the clock has passed it, and then exactly at the clock |
| `LiveSupport.StartTimesNotBefore` | pages/LiveSupport.tsx:72-93 | no chunk of a run starts in the past or before the cursor the run began from |
| `LiveSupport.CursorAfter` | pages/LiveSupport.tsx:72-93 | a run of chunks never moves the cursor backwards |
| `LiveSupport.StartTimesAt` | pages/LiveSupport.tsx:72-93 | chunk k of a run starts at `max` of the cursor left by the chunks before it and its own clock, and leaves the cursor at its end |
| `LiveSupport.StartTimesOrdered` | pages/LiveSupport.tsx:72-93 | every chunk of a run starts at or after its clock and the initial cursor, and no earlier than the previous chunk's end |
| `LiveSupport.RestartAfterStop` | pages/LiveSupport.tsx:131-149 | with the code as written, a 30 s reply, a stop, a restart and a reply at the new clock 0.2 puts that reply at 30.0 |
| `LiveSupport.RestartAfterRewindingStop` | pages/LiveSupport.tsx:131-149 | the same events with the cursor rewound on stop put that reply at 0.2, the new session's clock |
| `LiveSupport.PlaybackSource.constructor` | pages/LiveSupport.tsx:84-92 | a new source carries its start time and its buffer's duration and is not stopped |
| `LiveSupport.PlaybackSource.Stop` | pages/LiveSupport.tsx:99 | a stopped source is marked stopped |
| `LiveSupport.LiveSession.constructor` | pages/LiveSupport.tsx:6-16 | not connected, no error, no session, cursor 0, no sources |
| `LiveSupport.LiveSession.StopAllSources` | pages/LiveSupport.tsx:99-100 | every source that was in the set is stopped and the set is empty; nothing else changes |
| `LiveSupport.LiveSession.StartSession` | pages/LiveSupport.tsx:24 | the shown error is cleared first, with no guard on an open session |
| `LiveSupport.LiveSession.CompleteStart` | pages/LiveSupport.tsx:123-128 | success keeps the session handle; any failure shows the microphone message and keeps the old handle |
| `LiveSupport.LiveSession.OnOpen` | pages/LiveSupport.tsx:48-68 | connected and capturing |
| `LiveSupport.LiveSession.OnClose` | pages/LiveSupport.tsx:104-107 | only `connected` falls |
| `LiveSupport.LiveSession.OnError` | pages/LiveSupport.tsx:108-112 | the error is "Connection error." and `connected` falls; nothing else changes |
| `LiveSupport.LiveSession.OnEnded` | pages/LiveSupport.tsx:88-90 | exactly that source leaves the set; cursor, flags and other sources unchanged; the no-overlap invariant holds |
| `LiveSupport.LiveSession.OnMessage` | pages/LiveSupport.tsx:69-103 | a decoded chunk starts at `max(cursor, clock)`, joins the set, and the cursor moves to its end; an interrupt then stops every source including the new one, empties the set and sets the cursor to 0; a throw on the chain changes nothing; the invariant (sources unstopped, ending by the cursor, pairwise non-overlapping) is kept |
| `LiveSupport.LiveSession.OnAudioMessage` | pages/LiveSupport.tsx:71-94 | for a message with no interrupt whose audio decodes: a fresh, unstopped source at `max(cursor, clock)` with the decoded duration joins the set, and the cursor moves to its end |
| `LiveSupport.LiveSession.OnMessageRun` | pages/LiveSupport.tsx:69-103 | a run of uninterrupted, decodable messages handled in order starts its chunks exactly at `StartTimes` from the initial cursor and leaves the cursor at `CursorAfter`; the new sources are exactly the started ones; each starts at or after its clock and the initial cursor and no earlier than the previous chunk's end |
| `LiveSupport.LiveSession.StopSession` | pages/LiveSupport.tsx:131-149 | `close()` is called exactly when there is a session; capture, every source and `connected` stop, the handle is dropped and the cursor is left as it was; a second call yields the same state |
| `LiveSupport.LiveSession.StopSessionRewinding` | pages/LiveSupport.tsx:131-149 | the same cleanup with the cursor rewound to 0 (corrected form of the finding) |
| `JsString.Trim` | pages/Consultant.tsx:14 | the trimmed text is empty exactly when every character is ECMAScript white space |
| `JsString.IndexOf` | pages/Creative.tsx:84 | -1 exactly when the character is absent, otherwise the position of its first occurrence |
| `JsString.Substring` | pages/Creative.tsx:84 | in-range bounds give that slice, swapped bounds the swapped slice, and it never fails |
| `JsString.Split` | pages/Creative.tsx:83 | at least one piece, none containing the separator |
| `JsString.JoinSplit` | pages/Creative.tsx:83 | joining the pieces with the separator gives back the string |
| `JsString.SplitJoin` | pages/Creative.tsx:83 | splitting a join of separator-free pieces gives back the pieces |
| `JsString.Template` | services/geminiService.ts:79 | a present string renders as itself, `undefined` as "undefined" |
| `Consultant.ReplyText` | pages/Consultant.tsx:25 | the reply text is never empty: the result text when non-empty, otherwise the fixed fallback |
| `Consultant.ChunkUri` | pages/Consultant.tsx:26 | a chunk's URI when both `web` and its `uri` are present, otherwise the empty string |
| `Consultant.GroundingUrls` | pages/Consultant.tsx:26 | every URL is non-empty, and a string is listed exactly when it is the non-empty URI of some chunk |
| `Consultant.GroundingUrlsAppend` | pages/Consultant.tsx:26 | the filter keeps chunk order |
| `Consultant.ReplyMessage` | pages/Consultant.tsx:23-31 | the appended message is a non-empty model message: the reply with its grounding URLs, or the fixed error reply with none |
| `Consultant.BinaryStringToBytes` | pages/Consultant.tsx:45-50 | the array has the string's length and byte i is character code i modulo 256 |
| `Consultant.ConsultantPage.constructor` | pages/Consultant.tsx:6-10 | empty prompt and history, not loading, search mode, nothing playing |
| `Consultant.ConsultantPage.BeginSubmit` | pages/Consultant.tsx:12-22 | a blank prompt changes nothing; otherwise the untrimmed prompt is appended as the user's message, loading rises, the prompt is cleared and the request for the current mode is issued |
| `Consultant.ConsultantPage.CompleteSubmit` | pages/Consultant.tsx:22-34 | exactly one model message is appended after the history, and loading falls, on success and on failure |
| `Consultant.ConsultantPage.BeginSpeak` | pages/Consultant.tsx:37-41 | a request is made only when nothing is playing; the flag is up afterwards |
| `Consultant.ConsultantPage.CompleteSpeak` | pages/Consultant.tsx:41-63 | playback starts exactly when there is a payload that `atob` and the decoder accept, and then the flag stays up; with no payload or on any throw the flag falls; the bytes handed on are the byte loop's |
| `Consultant.ConsultantPage.OnSpeechEnded` | pages/Consultant.tsx:55 | the flag falls when playback ends |
| `GeminiService.ConsultantRequest` | services/geminiService.ts:15-37 | the prompt is sent as is; thinking mode is the only one with a thinking budget and uses the pro model with budget 32768; search mode uses the flash model with the search tool |
| `GeminiService.ConsultantAnswerOf` | services/geminiService.ts:25-41 | text passes through; thinking gives no chunks; search gives candidate 0's chunks, or none when the candidate, its metadata or its chunks are absent |
| `GeminiService.GroundingChunksOf` | services/geminiService.ts:40 | candidate 0's grounding chunks when every link of the chain is present, otherwise the empty list |
| `GeminiService.FirstCandidate` | services/geminiService.ts:40 | the first candidate exactly when there is a non-empty candidate list |
| `GeminiService.ResponseParts` | services/geminiService.ts:77 | candidate 0's content parts when every link of the chain is present; missing candidates, content or parts give the empty list |
| `GeminiService.PngDataUrl` | services/geminiService.ts:79 | the PNG data-URL prefix followed by the payload |
| `GeminiService.FirstInlineIndex` | services/geminiService.ts:77-78 | no part before the returned position has inline data, and the part at it has |
| `GeminiService.FirstInlineImage` | services/geminiService.ts:77-81 | no image exactly when no part has inline data; otherwise the PNG data URL of the first such part |
| `GeminiService.FirstInlineIgnoresLaterParts` | services/geminiService.ts:77-81 | parts after the first inline-data part are never looked at |
| `GeminiService.ProImageResult` | services/geminiService.ts:76-82 | throws "No image generated" exactly when no part has inline data; otherwise the PNG data URL of the first part with inline data |
| `GeminiService.EditImageResult` | services/geminiService.ts:109-115 | the same search, returning null exactly where generateProImage throws |
| `GeminiService.SpeechData` | services/geminiService.ts:179-180 | a payload exactly when the first part of the first candidate has inline data with `data` present, and then that data |
| `GeminiService.KeySelection` | services/geminiService.ts:53-58 | the key is queried exactly when the environment offers the selector, and the selector is opened exactly when it is offered and no key is selected |
| `GeminiService.PollUntilDone` | services/geminiService.ts:145-149 | the loop returns the first finished operation and none before it was finished, or it is still polling when the replies run out |
| `GeminiService.VideoUri` | services/geminiService.ts:151 | the URI exactly when the response, its video list, a first video, its `video` and its `uri` are all present, and then that URI |
| `GeminiService.VideoDownloadUrl` | services/geminiService.ts:151-155 | an error exactly when the URI is missing or empty; otherwise the URI followed by "&key=" and the API key |
| `GeminiService.DownloadOutcome` | services/geminiService.ts:155-156 | a URI error passes through; a rejected fetch passes its own error through; a response that is not ok turns into "Failed to download video content"; an ok response gives the URL |
| `GeminiService.VeoVideo` | services/geminiService.ts:145-159 | no result exactly when no operation in the replies finishes; otherwise the download outcome of the first finished one |
| `Creative.NextLoadingIndex` | pages/Creative.tsx:44 | the index stays below 6, advancing by one and wrapping from 5 to 0 |
| `Creative.IndexAfterTicks` | pages/Creative.tsx:43-45 | after any tick the index is in range |
| `Creative.TicksFromZero` | pages/Creative.tsx:39-50 | from the reset value, n ticks show message n mod 6 |
| `Creative.TicksCycle` | pages/Creative.tsx:43-45 | from any message, n ticks land on (i + n) mod 6 |
| `Creative.EditArgumentsOf` | pages/Creative.tsx:83-84 | a payload exists exactly when the URL has a comma, and it holds no comma |
| `Creative.DataUrlSplit` | pages/Creative.tsx:83-84 | `data:<mime>;base64,<payload>` splits into exactly that MIME type and payload |
| `Creative.CreativeStudio.constructor` | pages/Creative.tsx:15-37 | the initial form values, nothing busy, loading index 0 |
| `Creative.CreativeStudio.Tick` | pages/Creative.tsx:42-45 | advances the index only while a video is being generated; the index invariant holds |
| `Creative.CreativeStudio.BeginGenerate` | pages/Creative.tsx:53-57 | no prompt: nothing happens; otherwise the flag rises and the prompt, size and ratio are sent |
| `Creative.CreativeStudio.CompleteGenerate` | pages/Creative.tsx:57-64 | the flag is down afterwards; the image is set on success, an alert on failure |
| `Creative.CreativeStudio.OnFileLoaded` | pages/Creative.tsx:71-73 | `reader.result` becomes the source image: the data URL after a successful read, none after a failed or aborted read |
| `Creative.CreativeStudio.BeginEdit` | pages/Creative.tsx:78-86 | no image or no prompt: nothing happens; otherwise the flag rises and the split payload and MIME type are sent |
| `Creative.CreativeStudio.CompleteEdit` | pages/Creative.tsx:86-97 | the flag is down afterwards; an image is set, or, for a null result or an error, the matching alert is shown and the old image kept |
| `Creative.CreativeStudio.BeginGenerateVideo` | pages/Creative.tsx:100-105 | no prompt: nothing happens; otherwise the flag rises and the old video URL is cleared before the request |
| `Creative.CreativeStudio.CompleteGenerateVideo` | pages/Creative.tsx:105-112 | the flag is down and the loading index back at 0 afterwards; the URL is set on success, an alert on failure |

`LiveSupport.BargeInScenario` is a client of these contracts. It schedules two chunks
(0.5 s and 0.3 s) and shows the second starts 0.5 s after the first. It then sends an
interrupt, after which both are stopped, the set is empty and the cursor is 0. A final
chunk then starts at the clock.

## Left out

- `services/audioUtils` is not part of this model. Its source is not available, so
  `createBlob`, `decodeAudioData` and `base64ToBytes` are not modelled. Decoding is a
  parameter that yields a non-negative duration or rejects.
- Microphone capture and the `ScriptProcessor` callback's fire-and-forget send are left
  out. So are the Web Audio graph wiring (gain node, analyser) and the canvas visualizer.
  These are browser I/O and rendering; only the `capturing` flag that `onopen` raises and
  `stopSession` lowers is kept.
- The unmount cleanup (pages/LiveSupport.tsx:198-203) only calls `stopSession`, which is
  modelled.
- The model assumes the code runs one step at a time. It leaves out two interleavings:
  - two `onmessage` handlers overlapping across the `await decodeAudioData`;
  - the `sessionPromise.then` sends.
- Floating-point rounding of `currentTime` and `duration` is not modelled; times are
  exact reals.
- `LiveSupport.LiveSession.OnMessage`: the clock is read once per message, before the
  `await decodeAudioData` (pages/LiveSupport.tsx:72-77), and decoding takes no time. A
  source's `startAt` is the time handed to `start()`. Web Audio plays a time already past
  at once, so a chunk scheduled at the clock really starts when decoding ends. The
  invariant that no two sources in flight overlap is about these scheduled times, not
  about when sound is heard.
- Foreign calls are not modelled, only their results as parameters:
  - SDK calls: `generateContent`, `generateVideos`, `getVideosOperation`, `live.connect`;
  - browser APIs: `fetch`, `blob`, `URL.createObjectURL`, `FileReader`;
  - timers: `setTimeout`, `setInterval`;
  - `alert` and `console`.
  The alerts' texts are returned as values.
- `GeminiService.VeoVideo`: a rejected `getVideosOperation` poll
  (services/geminiService.ts:148) and a rejected `response.blob()` (line 158) are not
  modelled. Either would throw its own error out of generateVeoVideo. A poll reply here is
  always an operation and the blob always arrives. A rejected `fetch` is modelled.
- `GeminiService.VeoVideo`: on success it returns the URL the video was fetched from,
  not the object URL the code makes from the downloaded blob (a browser call).
- `GeminiService.PollUntilDone`: the source polls for ever while the operation is
  unfinished. Here the poll replies are a finite list, and running out of them is
  reported as "still polling". The 5-second delay is not modelled.
- `GeminiService.KeySelection`: the same check sits at services/geminiService.ts:126-131
  for video and is modelled by the same function.
- `Consultant.BinaryStringToBytes`: characters are Unicode scalar values, not UTF-16
  code units. This makes no difference here, because `atob` only yields characters
  below 256.
- `ChatMessage.isThinking` (types.ts) is never set by the code and is left out.
- React's batching and re-rendering are left out. Each state setter is an assignment.
  The effect that resets the loading index runs as part of the step that lowers the
  video flag.
- The page entries `Home.tsx`, `Navigation.tsx`, `Footer.tsx` and `App.tsx` are left out:
  they are markup and routing only.
- The SDK's `response.text` accessor is taken as a given field of the response.

## Findings

| source | as written | input that shows it | evidently intended | confidence | as-written member | corrected member |
|---|---|---|---|---|---|---|
| pages/LiveSupport.tsx:131-149 | `stopSession` leaves `nextStartTimeRef` at the end of the last scheduled audio, while the next `startSession` creates a new output context whose clock starts again near 0 (pages/LiveSupport.tsx:28) | a first session that scheduled audio up to cursor 30.0 is stopped; a new session's first chunk arrives at new-context time 0.2 and is scheduled at 30.0, about 29.8 s of silence | stopping (or starting) a session rewinds the cursor, so the first chunk of a new session starts at that session's clock | medium, not executed | `LiveSupport.RestartAfterStop` | `LiveSupport.RestartAfterRewindingStop` |

The as-written side is `LiveSupport.RestartAfterStop`. It runs the session's own methods
in order: a 30-second reply at clock 0, `StopSession` (whose contract keeps the cursor),
`StartSession`, `CompleteStart`, `OnOpen`, and a reply at the new clock 0.2. That reply
is scheduled at 30.0. The corrected side is `LiveSupport.RestartAfterRewindingStop`. It
runs the same events with `LiveSupport.LiveSession.StopSessionRewinding`, which leaves
the cursor at 0, and the reply is scheduled at 0.2. An interrupt before the first chunk
would hide the bug, because it also resets the cursor.

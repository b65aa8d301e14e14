# Interview avatar: session, speech-pipeline and playback rules in Dafny

This project models the decision and bookkeeping rules of an interview
avatar built as a browser client and a Node.js backend. The backend keeps an
in-memory session per user, built from an uploaded résumé. For each chat
turn it asks a language-model planner for a list of message plans
(`{text, facialExpression, animation}`). It then runs every plan through a
speech pipeline: text-to-speech, then phoneme extraction, then reading back
the base64 audio and the mouth-cue transcript. Any message whose pipeline
throws is dropped. The client queues the assembled messages and plays them
one at a time. For each frame, the avatar picks the mouth cue that covers
the current audio time and drives visemes and expression morph targets
toward their target values. A webcam monitor warns when it sees more than
one person or a phone.

Every external collaborator is a parameter of the model, reduced to the
outcome of the call (a value, or a failure). These are the language model,
the TTS service, ffmpeg, rhubarb, the document extractors, the summarizer,
the canned-message helpers, the file reads, the microphone and the object
detector.

Files:
- `wrappers.dfy`: `Option`.
- `messages.dfy`: message plans, mouth cues, assembled messages.
- `scratch_files.dfy`: the `audios/message_<i>.<ext>` names, with proofs
  that different messages never share a file.
- `lip_sync.dfy`: the per-message pipeline and the drop-the-nulls filter.
  There is a specification on values and a method that adds `audio` and
  `lipsync` to message objects in place.
- `server.dfy`: filename parsing, the type whitelist, the session store
  class, the `/upload-resume`, `/tts` and `/sts` handlers and their fallbacks.
- `speech.dfy`: the client's playback queue, flags and chunk buffer, as a
  class.
- `avatar.dfy`: mouth-cue search, viseme apply and reset, expression targets
  and animation choice.
- `malpractice.dfy`: person and phone counting, and the warning priority.

## Model

| member | source | states |
|---|---|---|
| `Messages.Assemble` | apps/backend/modules/lip-sync.mjs:11-14 | an assembled message keeps its plan's text, expression and animation and gains exactly the given audio and lip-sync data |
| `ScratchFiles.Decimal` | apps/backend/modules/lip-sync.mjs:7 | the index is written as a non-empty string of decimal digits, one digit long exactly for indices below 10 |
| `ScratchFiles.DecimalInjective` | apps/backend/modules/lip-sync.mjs:7 | different indices are written differently |
| `ScratchFiles.ScratchName` | apps/backend/modules/rhubarbLipSync.mjs:18-20 | a scratch name starts with `audios/message_` and ends with `.` and the extension |
| `ScratchFiles.ScratchNameInjective` | apps/backend/modules/lip-sync.mjs:7-14 | two of the mp3, wav and json scratch names are equal only for the same message index and the same extension |
| `LipSync.GetPhonemes` | apps/backend/modules/rhubarbLipSync.mjs:5-51 | getPhonemes runs mp3 to wav and then rhubarb wav to json on the message's own files; rhubarb is skipped when the conversion fails, and the call never fails |
| `LipSync.ProcessMessage` | apps/backend/modules/lip-sync.mjs:6-23 | a message survives if and only if TTS, the audio read and the transcript read all succeed, whatever the phoneme subprocesses do; a survivor keeps its plan and carries the audio and transcript read for its own index; the attempted steps start with synthesis, follow the order synthesize, transcode, rhubarb, read audio, read transcript, and touch only the message's own scratch files (the TTS call writes both the service's wav and the mp3 converted from it, apps/backend/modules/chatter-box.mjs:24-30) |
| `LipSync.PhonemeFailureKeepsMessage` | apps/backend/modules/lip-sync.mjs:9-15 | when the phoneme tool never ran, the message is still returned, with whatever transcript the json file already held |
| `LipSync.Processed` | apps/backend/modules/lip-sync.mjs:6-23 | `messages.map` gives exactly one result per planned message |
| `LipSync.ProcessedMeaning` | apps/backend/modules/lip-sync.mjs:6-23 | the mapped entry at index i is null exactly when message i's processing failed, and otherwise carries message i's own plan |
| `LipSync.SomeIndices` | apps/backend/modules/lip-sync.mjs:26 | the positions of the non-null entries, strictly increasing, each a non-null entry, and including every non-null entry |
| `LipSync.DropNulls` | apps/backend/modules/lip-sync.mjs:26 | the filter's output has one element per non-null entry, and the k-th element is the entry at the k-th non-null position |
| `LipSync.LipSync` | apps/backend/modules/lip-sync.mjs:5-29 | lipSync never returns more messages than were planned, and every message it returns is a planned message with audio and lip-sync attached |
| `LipSync.LipSyncSelectsSurvivors` | apps/backend/modules/lip-sync.mjs:6-28 | the output is exactly the messages whose pipeline succeeded, in plan order, each assembled from its own plan, audio and transcript |
| `LipSync.LipSyncShrinks` | apps/backend/modules/lip-sync.mjs:25-28 | the output is never longer than the plan, and an empty plan gives an empty output |
| `LipSync.AllFailedGivesEmpty` | apps/backend/modules/lip-sync.mjs:16-26 | if every message fails, the output is empty, not an error |
| `LipSync.AllSucceededKeepsAll` | apps/backend/modules/lip-sync.mjs:6-28 | if every message succeeds, no message is lost: the k-th output is the k-th planned message with its own audio and transcript |
| `LipSync.FailureIsLocal` | apps/backend/modules/lip-sync.mjs:8-22 | changing what happens to one message's files changes no other message's result; if that message now fails, the output is the previous one with that message removed |
| `LipSync.Message.Process` | apps/backend/modules/lip-sync.mjs:8-22 | the callback keeps the object's plan fields, reports success exactly as `ProcessMessage` does, and sets `audio` (also when a later read throws) and `lipsync` as the code does |
| `LipSync.LipSyncInPlace` | apps/backend/modules/lip-sync.mjs:5-29 | over message objects: the objects returned are the input objects at the surviving indices, in order, each now equal to the matching element of `LipSync` |
| `Server.FileType` | apps/backend/server.js:43 | the file type is the dot-free tail of the original name, following its last dot, and is the whole name exactly when the name has no dot |
| `Server.UserName` | apps/backend/server.js:44 | the user name is the underscore-free head of the original name, preceding its first underscore, and is the whole name exactly when the name has no underscore |
| `Server.AfterLast` | apps/backend/server.js:43 | `split(sep).pop()` gives the suffix after the last separator and has no separator in it; it is the whole name when there is no separator |
| `Server.BeforeFirst` | apps/backend/server.js:44 | `split(sep)[0]` gives the prefix before the first separator and has no separator in it; it is the whole name when there is no separator |
| `Server.FileTypeOfName` | apps/backend/server.js:43 | the file type of `base.ext` is `ext`, whatever dots `base` contains |
| `Server.UserNameOfName` | apps/backend/server.js:44 | the user name of `name_rest` is `name`, whatever underscores `rest` contains |
| `Server.DocumentKindOf` | apps/backend/server.js:47-55 | exactly `pdf`, `docx` and `doc` are accepted (case-sensitive); `pdf` goes to the PDF extractor |
| `Server.WhitelistIsExact` | apps/backend/server.js:43-55 | `.PDF` is rejected, `x.tar.pdf` is a PDF, and a file named just `pdf` is accepted |
| `Server.UserNameIsFirstPart` | apps/backend/server.js:44 | `jane_doe_cv.docx` belongs to user `jane` |
| `Server.JoinTexts` | apps/backend/server.js:116-118 | the ai turn's content is the texts joined by single spaces: the k-th text sits at offset `Start(ms, k)` (the texts before it plus one space each), a space precedes every text but the first, and the length is the texts' total plus one per gap, so nothing else is added |
| `Server.RecordTurn` | apps/backend/server.js:97-123 | a planner that throws leaves the session unchanged; a returned plan sets `firstGreeted` and appends exactly a user turn with the message and then an ai turn with the joined texts; a result without `messages` sets the flag and appends only the user turn; the summary never changes |
| `Server.RecordTurnAlternation` | apps/backend/server.js:110-119 | a user, ai, user, ai log stays alternating after a turn if and only if the planner did not return a result without `messages` |
| `Server.PlanFor` | apps/backend/server.js:120-126 | the plan given to lipSync is the planner's, or the default response when the planner threw or returned no `messages` |
| `Server.SessionOrNew` | apps/backend/server.js:75-86 | /tts works on the stored session, or on a new one with `"No resume summary available."` when the user is unknown |
| `Server.SessionStore.constructor` | apps/backend/server.js:27 | the store starts empty |
| `Server.SessionStore.UploadResume` | apps/backend/server.js:33-71 | a missing file gives 400 `No resume file uploaded.`; a type off the whitelist gives 400 `Unsupported file type.`; an extractor or summarizer failure gives 500; in all three cases the store is untouched; success answers with the user name and summary and overwrites only that user's session with a fresh one |
| `Server.SessionStore.SessionFor` | apps/backend/server.js:75-86 | an unknown user gets a new default session, and an existing session is never replaced |
| `Server.SessionStore.Tts` | apps/backend/server.js:73-132 | canned messages are sent as they are, and the store is changed only by the session creation; otherwise only that user's session is updated, by `RecordTurn`, and the reply is `LipSync` of the chosen plan |
| `Server.Sts` | apps/backend/server.js:134-164 | the reply is `LipSync` of the planner's plan, or of the default response when the planner failed; the session store is neither read nor written |
| `Speech.SpeechProvider.constructor` | apps/frontend/src/hooks/useSpeech.jsx:11-23 | empty queue and buffer, not loading, not recording, no recorder |
| `Speech.SpeechProvider.CurrentMessage` | apps/frontend/src/hooks/useSpeech.jsx:164-170 | the current message is the head of the queue when the queue is non-empty, and null otherwise |
| `Speech.SpeechProvider.SetupMediaRecorder` | apps/frontend/src/hooks/useSpeech.jsx:59-77 | the recorder is set, and its stop handler keeps the `recording` value of the render in which it was installed |
| `Speech.SpeechProvider.OnDataAvailable` | apps/frontend/src/hooks/useSpeech.jsx:25-27 | chunks accumulate in arrival order |
| `Speech.SpeechProvider.StartRecording` | apps/frontend/src/hooks/useSpeech.jsx:112-119 | with a recorder, the buffer is cleared and `recording` is set; without one, nothing changes |
| `Speech.SpeechProvider.StopRecording` | apps/frontend/src/hooks/useSpeech.jsx:121-134 | with a recorder, `recording` is cleared; without one, nothing changes |
| `Speech.SpeechProvider.BuildAudioBlob` | apps/frontend/src/hooks/useSpeech.jsx:29-31 | the blob holds the buffered chunks in order, and the buffer is emptied |
| `Speech.SpeechProvider.BeginRequest` | apps/frontend/src/hooks/useSpeech.jsx:136-137 | `loading` is set before the fetch |
| `Speech.SpeechProvider.FinishTts` | apps/frontend/src/hooks/useSpeech.jsx:138-158 | a delivered response is appended behind the queued messages; a non-ok response or a thrown error leaves the queue unchanged; `loading` is cleared on every path |
| `Speech.SpeechProvider.FinishSts` | apps/frontend/src/hooks/useSpeech.jsx:36-55 | the same queue and `loading` rules for /sts, and the recorder restarts exactly when recording is currently on (the intended behaviour) |
| `Speech.SpeechProvider.FinishStsAsWritten` | apps/frontend/src/hooks/useSpeech.jsx:49-55 | as the source runs it: the restart test reads the `recording` value that the handler saw when it was installed |
| `Speech.SpeechProvider.OnMessagePlayed` | apps/frontend/src/hooks/useSpeech.jsx:160-162 | exactly the head is removed, and an empty queue stays empty; the new queue is `Played` of the old one after one play, which ties the queue lemmas to the method |
| `Speech.Played` | apps/frontend/src/hooks/useSpeech.jsx:160-162 | repeated `slice(1)`: after n plays the queue is a suffix of the original, n messages shorter, or empty once all have played |
| `Speech.PlayedDropsPrefix` | apps/frontend/src/hooks/useSpeech.jsx:160-162 | after n plays the queue is its suffix from position n, or empty |
| `Speech.QueuedInOrder` | apps/frontend/src/hooks/useSpeech.jsx:152-170 | the k-th message of a response appended behind q becomes current after exactly the messages before it have played |
| `Speech.ContinuousModeScenario` | apps/frontend/src/hooks/useSpeech.jsx:51-54 | after set-up, start, a silence stop and a delivered speech turn, recording is still on, but the code as written does not restart the recorder, while the intended version does |
| `Avatar.LipsyncFrame` | apps/frontend/src/components/Avatar.jsx:101-117 | the loop stops at the lowest-index cue with start <= t <= end, even when that cue has no viseme; at most that cue's viseme is applied; every other mapped viseme is driven toward 0 |
| `Avatar.ExpressionTargets` | apps/frontend/src/components/Avatar.jsx:86-96 | every listed morph target except the blink keys gets the expression's value, or 0 when the expression or key is missing; both blink keys get 1 while blinking and 0 otherwise |
| `Avatar.InitialAnimation` | apps/frontend/src/components/Avatar.jsx:23-25 | the first animation is `Idle` exactly when such a clip exists, and otherwise the first clip's name |
| `Avatar.Avatar.constructor` | apps/frontend/src/components/Avatar.jsx:15-25 | the initial state: the initial animation, no expression, no lip-sync or audio, not blinking, not in setup mode |
| `Avatar.Avatar.OnMessage` | apps/frontend/src/components/Avatar.jsx:28-40 | no message sets `Idle` and keeps everything else; a message supplies the animation, expression, lip-sync data and audio source |
| `Avatar.Avatar.Frame` | apps/frontend/src/components/Avatar.jsx:85-119 | expression targets are produced only outside setup mode; lip-sync targets are produced exactly when a message, lip-sync data and audio are all present |
| `Malpractice.CountPersons` | apps/frontend/src/components/Malpractice.jsx:25-34 | the person counter is at most the number of detections, and zero exactly when no detection is a person |
| `Malpractice.AnyPhone` | apps/frontend/src/components/Malpractice.jsx:26-37 | the phone flag is set exactly when some detection is a cell phone |
| `Malpractice.WarningFor` | apps/frontend/src/components/Malpractice.jsx:50-56 | the persons warning exactly when more than one person was counted; the phone warning exactly when at most one person was counted and a phone was seen; no warning exactly when neither holds |
| `Malpractice.CountersFromLabels` | apps/frontend/src/components/Malpractice.jsx:28-37 | the person count is the number of `person` detections, and the phone flag is set exactly when some detection is a `cell phone` |
| `Malpractice.WarningPriority` | apps/frontend/src/components/Malpractice.jsx:50-56 | more than one person gives the persons warning even with a phone; otherwise a phone gives the phone warning; otherwise, zero people included, there is no warning |
| `Malpractice.WarningIgnoresOrder` | apps/frontend/src/components/Malpractice.jsx:28-56 | the warning depends only on the multiset of detection classes |
| `Malpractice.Scan` | apps/frontend/src/components/Malpractice.jsx:28-48 | the loop's counter and flag equal the person count and the phone test |
| `Malpractice.Malpractice.constructor` | apps/frontend/src/components/Malpractice.jsx:11 | no warning at first |
| `Malpractice.Malpractice.DrawRect` | apps/frontend/src/components/Malpractice.jsx:23-56 | the warning becomes the one chosen for this batch |
| `Malpractice.Malpractice.CloseDialog` | apps/frontend/src/components/Malpractice.jsx:99 | closing the dialog clears the warning |

## Left out

- The language-model chains, résumé summarisation, the TTS HTTP call, ffmpeg, rhubarb, Whisper, pdf-parse and mammoth are external. The model keeps only their outcome as a parameter. The shape of a message plan follows the structured-output schema in apps/backend/modules/openAI.mjs:47-66. Its tags are free strings.
- The helpers in `defaultMessages.mjs` and `utils/files.mjs` are not part of this model. `sendDefaultMessages`, `defaultResponse`, `audioFileToBase64` and `readJsonTranscript` are parameters.
- What the planner is asked is not modelled: the question, the choice `chatHistory || sessionContext`, the summary and the greeting flag. The planner is an outcome parameter.
- The `/sts` transcription runs outside the try block, so its failure leaves the request without a response. The model only uses its effect through the planner outcome.
- The 500 branches of `/tts` and `/sts` are not modelled. They need `lipSync` to throw, which happens only when `messages` is not an array, and every plan in the model is a sequence.
- `Promise.all` runs the messages concurrently. The model runs them as a sequential map in plan order. Scratch files overwritten by overlapping requests and lost updates to a session under concurrent requests are concurrency effects and are left out.
- `sessionStore` is a plain object. Keys it inherits from `Object.prototype` (`constructor`, `__proto__`, ...) behave differently from other keys, and a missing `userName` becomes the key `"undefined"`. The model uses a map from strings.
- `GET /voices` is left out: it uses an undefined `voice` object and is outside the core.
- LipSync.LipSyncInPlace: does not state the `audio` and `lipsync` fields of dropped message objects. `Message.Process` states them for one message.
- The client's `chatHistory` payloads, the voice-activity detection, timers, animation frames, MediaRecorder and AudioContext are browser I/O. They are reduced to the flags, the buffer and method calls. A non-ok `/sts` response (its `messages` field undefined and spread inside the state updater) is not modelled.
- `loading` is one boolean. Overlapping requests, where the first to finish clears it while another is still in flight, are not modelled separately.
- Avatar.InitialAnimation: requires a non-empty clip list (the `Avatar` constructor too). With no clips and no `Idle`, `animations[0].name` throws a TypeError and the component fails to render. The model does not represent that crash.
- The morph-target interpolation (`lerp` and its speeds), the random blink timing, the animation fade-in and fade-out, the setup controls and the traversal of meshes are floating-point or rendering work. The model states targets, not influences.
- The visemes reset in a frame are modelled as a set. When two cue letters map to the same viseme, the source resets it twice in one frame, which only changes the interpolation speed.
- Nothing checks that the audio's `onended` event calls `onMessagePlayed`. The two are modelled as separate operations.
- The webcam, COCO-SSD detection, the detection interval and canvas drawing are browser I/O. Only the class of each detection is kept.

## Findings

| source | as written | input that shows it | evidently intended | confidence | as-written member | corrected member |
|---|---|---|---|---|---|---|
| apps/frontend/src/hooks/useSpeech.jsx:51-54 | the recorder's stop handler is installed once, when the recorder is set (lines 72-77). It keeps that render's `recording`, which is false, so "start the next recording if still recording" never runs | set up the recorder, start recording, let the silence timer stop the recorder, and the speech turn comes back | the recorder restarts while recording is still on | medium, not executed | `Speech.SpeechProvider.FinishStsAsWritten`, `Speech.ContinuousModeScenario` | `Speech.SpeechProvider.FinishSts` |

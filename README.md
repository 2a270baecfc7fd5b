# HearMe AI: capture-to-summary pipeline, modelled in Dafny

HearMe AI lets a signed-in user record or upload a WAV clip. The clip is stored
as a data URL in the user's `users/{uid}/audios` collection. On request, a
speech service transcribes the newest clip and a language model polishes its
summary. This project models the two places with real decision logic:

- **`outcome.dfy`** (module `Outcome`): `Option` and `Result` for values that
  may be missing and for calls that may fail. A failure carries the text of
  `error.message`.
- **`summary_route.dfy`** (module `SummaryRoute`): the `GET /api/summary`
  handler, written as pure functions. It covers user-id validation, the
  store's "newest first, limit 1" answer, `audioData.split(',')[1]`, the two
  field extractors with their two-tier fallbacks, and the refinement prompt.
  `Get` is a function of the query parameter and of three parameters for what
  the store, the speech service and the model answer. Its result holds the
  HTTP reply and the list of external calls made, in order.
- **`home_page.dfy`** (module `Home`): the `HomePage` component's handlers,
  written as a class. Its fields are `isRecording`, `isRecordingComplete`,
  `isLoading`, `summary`, the chunk buffer, the media-recorder reference and
  the documents the page has written. A ghost counter of summary requests in
  flight, tied to `isLoading` by `Valid()`, shows the Summary button's
  loading guard at work. The microphone grant, the current user, the file
  reader's output, the clock and the outcome of each store write are handler
  parameters.

When `isRecordingComplete` becomes true is worth noting. The comments at
home-page.tsx:75 and :144 say it is set after a successful upload. But
`stopRecording` already sets it at home-page.tsx:92, as soon as the recorder
stops. That is before the upload, and it happens even when the blob is empty
or the write then fails. The model follows the code, and two scenario methods
in `home_page.dfy` run the handlers to show what follows:

- `ScenarioFailedUploadStillEnablesSummary`: for a user with no stored audio,
  a recording whose write fails still enables the Summary button. The
  endpoint then answers 404 and the panel shows the error text.
- `ScenarioFailedRecordingSummarizesOlderUpload`: for a user who uploaded a
  clip earlier, the same sequence leads the endpoint to transcribe that
  earlier clip and answer 200. The panel shows a summary of the older clip as
  if it were a success.

The payload is the text between the first and the second comma of the data
URL (`split(',')[1]`). For a well-formed data URL this is everything after the
first comma (`AudioPayloadOfDataUrl`); `AudioPayloadStopsAtSecondComma` shows
what happens otherwise. A file upload checks only the declared type, so an
empty WAV file is still written; only a recording is checked for size.

## Model

| member | source | states |
|---|---|---|
| SummaryRoute.ValidUserId | app/api/summary/route.js:11 | `!userId` is false exactly when the parameter is present and not the empty string. |
| SummaryRoute.Get | app/api/summary/route.js:7-52 | A missing or empty `userId` returns 400 "User ID is required", and no store query is issued. Otherwise the first call is the store query. The reply is 404 "No audio found for the user" exactly when the query succeeds and finds no records, and no service is called then. Every 500 carries "Internal Server Error". A 200 has `success: true` and returns the model's answer to the third call unchanged. |
| SummaryRoute.GetAsksModel | app/api/summary/route.js:35-47 | Once the newest record's payload is transcribed, the model is called with the prompt built from the extracted summary and transcript. If the model answers, the reply is 200 with its text; if it fails, the reply is 500 with its error. |
| SummaryRoute.GetSucceedsOnlyIfEveryStepDid | app/api/summary/route.js:15-47 | A 200 reply implies a valid user id, a successful store read, a newest record, a decodable payload and a successful transcription. |
| SummaryRoute.GetFailureModes | app/api/summary/route.js:15-51 | A store failure, a stored data URL with no comma, or a transcription failure each give 500 carrying that step's error message. Store and payload failures stop after the query. |
| SummaryRoute.GetDegradesOnBrokenRecognition | app/api/summary/route.js:41-45 | A recognition result whose channel/alternative path is broken does not stop the request. The model is still called, with both "not found" placeholders in the prompt. |
| SummaryRoute.TimestampLeq | app/api/summary/route.js:17 | The string order behind `orderBy('timestamp', ...)`: a prefix sorts no later than the longer string, and otherwise the first differing character decides. |
| SummaryRoute.NewestRecord | app/api/summary/route.js:17-24 | The store's answer to `orderBy('timestamp','desc'), limit(1)`. It is empty exactly when the user has no records; otherwise it is one of them. |
| SummaryRoute.NewestRecordIsGreatest | app/api/summary/route.js:17-24 | The record served has a timestamp no smaller, in the store's string order, than that of any of the user's records. |
| SummaryRoute.NewestAfterAppend | app/api/summary/route.js:17-24 | A record whose timestamp sorts strictly after all earlier ones is the one served. |
| SummaryRoute.TimestampLeqTotal | app/api/summary/route.js:17 | Any two timestamps are comparable in the string order used by `orderBy`. |
| SummaryRoute.TimestampLeqTransitive | app/api/summary/route.js:17 | The string order used by `orderBy` is transitive. |
| SummaryRoute.TimestampLeqAntisymmetric | app/api/summary/route.js:17 | Two timestamps that each sort no later than the other are equal, so only identical timestamps can tie. |
| SummaryRoute.SplitOn | app/api/summary/route.js:28 | `split(',')` gives at least one piece, no piece contains the separator, and there is exactly one piece iff the string has no separator. |
| SummaryRoute.JoinSplitOn | app/api/summary/route.js:28 | Joining the pieces of `split` with the separator gives back the original string. |
| SummaryRoute.SplitOnJoin | app/api/summary/route.js:28 | Splitting the join of separator-free pieces gives back exactly those pieces. |
| SummaryRoute.AudioPayload | app/api/summary/route.js:28 | `split(',')[1]` fails exactly when the data URL has no comma, with the error `Buffer.from(undefined)` throws. A payload never contains a comma. |
| SummaryRoute.AudioPayloadOfDataUrl | app/api/summary/route.js:28 | For a data URL `header,body` where neither part contains a comma, the payload is exactly `body`. |
| SummaryRoute.AudioPayloadStopsAtSecondComma | app/api/summary/route.js:28 | Whatever follows a second comma is dropped: the payload of `header,body,more` is `body`. |
| SummaryRoute.Truthy | app/api/summary/route.js:56 | JavaScript truthiness as `||` uses it: an absent field, `null` and the empty string are falsy; a non-empty string is truthy. |
| SummaryRoute.FirstAlternative | app/api/summary/route.js:56 | `results.channels[0].alternatives[0]` evaluates without throwing exactly when every step of the path exists, and then yields that alternative. |
| SummaryRoute.ExtractSummary | app/api/summary/route.js:54-61 | Three cases: an existing path with a truthy summary gives that summary; an existing path with a falsy summary gives "No summary available"; a broken path gives "Summary not found in the response". The result is never empty. |
| SummaryRoute.ExtractTranscript | app/api/summary/route.js:63-70 | The same three cases, with "No transcript available" and "Transcript not found in the response". The result is never empty. |
| SummaryRoute.ExtractorsIndependent | app/api/summary/route.js:41-42 | For any two responses with an existing path, equal `summary` fields give equal extracted summaries, and equal `transcript` fields give equal extracted transcripts, whatever the other field holds. |
| SummaryRoute.RefinePrompt | app/api/summary/route.js:79-84 | The prompt is the fixed instruction followed by the transcript verbatim, then the fixed middle text, then the summary verbatim, then a newline. The transcript comes before the summary. |
| SummaryRoute.PromptRoundTrip | app/api/summary/route.js:79-84 | Given the transcript's length, both the summary and the transcript can be read back out of the prompt. |
| SummaryRoute.PromptInjective | app/api/summary/route.js:79-84 | For transcripts of the same length, equal prompts come from equal (summary, transcript) pairs. |
| Home.Concat | components/home-page.tsx:55 | The bytes of `new Blob(chunks)` start with the first chunk, and their length is the sum of the chunks' sizes. |
| Home.BlobSize | components/home-page.tsx:55-56 | The assembled blob's size is zero exactly when every recorded chunk is empty. |
| Home.ConcatAppend | components/home-page.tsx:50-52 | A pushed chunk ends up at the end of the blob, after the earlier bytes in their order. |
| Home.BlobSizeAppend | components/home-page.tsx:50-52 | Appending a chunk adds its length to the blob's size. |
| Home.RecordingFileName | components/home-page.tsx:57-58 | A recorded clip's name is `audio_`, then the formatted stamp, then `.wav`. |
| Home.UploadFileName | components/home-page.tsx:134-135 | An uploaded clip's name is `uploaded_audio_`, then the formatted stamp, then `.wav`. |
| Home.RecordingAndUploadNamesDiffer | components/home-page.tsx:58 | A recorded clip and an uploaded clip never get the same file name. |
| Home.WithRecord | components/home-page.tsx:69-73 | `addDoc` appends one document to the user's collection and leaves every other user's collection unchanged. |
| Home.FetchedSummary | components/home-page.tsx:101-108 | For a 2xx reply the summary panel shows the reply's `response`. For a failed request or any other status it shows "Error fetching summary. Please try again.". |
| Home.FetchedSummaryOfRoute | components/home-page.tsx:102-108 | For every reply of the summary endpoint, the page shows the model's text on 200 and the fixed error text on 400, 404 and 500. |
| Home.SavedRecordingIsSummarized | app/api/summary/route.js:17-47 | Suppose the store read returns the user's collection after a write whose timestamp is later than the earlier ones. Then the endpoint transcribes that recording's payload and asks the model with the resulting prompt. If the model answers, the reply is 200 with its text. |
| Home.HomePage.SummaryEnabled | components/home-page.tsx:199-203 | The Summary button is enabled iff `isRecordingComplete && !isLoading`. |
| Home.HomePage.Valid | components/home-page.tsx:100-110 | The loading guard: at most one summary request is in flight, and `isLoading` says whether one is. While the button is enabled nothing is in flight, and while a request is in flight the button is disabled. |
| Home.HomePage.constructor | components/home-page.tsx:17-22 | The initial state: every flag false, an empty summary, no recorder, no chunks, nothing written, nothing in flight. |
| Home.HomePage.ToggleRecording | components/home-page.tsx:35-41 | The button flips `isRecording`; the effect then starts recording (on `true`) or stops it (on `false`), with the effects of the two methods below. |
| Home.HomePage.StartRecording | components/home-page.tsx:43-52 | Clears `isRecordingComplete`. With the microphone granted, installs a new active recorder and empties the chunk buffer. A refused microphone changes nothing else. |
| Home.HomePage.ChunkAvailable | components/home-page.tsx:50-52 | The chunk is appended to the buffer in arrival order, so the blob gains its bytes at the end, and nothing else changes. |
| Home.HomePage.StopRecording | components/home-page.tsx:89-94 | Acts only when a recorder exists and is not inactive. It then makes the recorder inactive and sets `isRecordingComplete` at once; otherwise nothing changes. |
| Home.HomePage.SaveAudio | components/home-page.tsx:68-79 | A successful write adds the document and sets `isRecordingComplete`. A failed write changes no state. |
| Home.HomePage.RecordingStopped | components/home-page.tsx:54-86 | An empty blob is never written. A non-empty blob is written as `audio_<stamp>.wav` for the signed-in user. The store and `isRecordingComplete` change only when that write succeeds. |
| Home.HomePage.HandleFileUpload | components/home-page.tsx:124-155 | No file, or a type other than exactly `audio/wav`, means no store write and no flag change. A WAV file is written as `uploaded_audio_<stamp>.wav` for the signed-in user, and a successful write sets `isRecordingComplete`. |
| Home.HomePage.HandleTranscribe | components/home-page.tsx:96-100 | Without a signed-in user, nothing happens. With one, it sets `isLoading` and sends exactly one request for that user's id. |
| Home.HomePage.ClickSummary | components/home-page.tsx:199-202 | A disabled button sends nothing. A request is sent only when the button was enabled, so at most one request is ever in flight (`Valid()` is kept). |
| Home.HomePage.SummaryArrived | components/home-page.tsx:101-112 | The summary becomes the reply's text, or the fixed error text on failure. `isLoading` is cleared in both cases, and the one-in-flight invariant is kept. |
| Home.ScenarioFailedUploadStillEnablesSummary | components/home-page.tsx:89-94 | For a user with no stored audio: after a recording whose write fails, the Summary button is enabled and nothing was written. The endpoint then answers 404 and the panel shows the error text. |
| Home.ScenarioFailedRecordingSummarizesOlderUpload | components/home-page.tsx:89-94 | For a user with an earlier upload: after a recording whose write fails, the store holds only the upload. The endpoint transcribes the upload's payload, and the panel shows the model's summary of it. |

## Left out

- Firestore internals (`collection`, `query`, `getDocs`, `addDoc`). The store is a map from user id to a sequence of records; its read is a parameter of `Get` and its write outcome a parameter of the handlers. A user id containing `/`, which changes the collection path, is left to the store parameter.
- Ties between equal timestamps: the store does not define them. `NewestRecord` returns the earliest tied record in sequence order, and only the maximality of the timestamp is proved.
- The Deepgram POST and the Groq `llm.invoke` call are network services. They are function parameters that succeed with a value or fail with a message. The API keys and the endpoint URL are not modelled.
- Base64 decoding (`Buffer.from(..., 'base64')`), `FileReader.readAsDataURL`, `MediaRecorder` and `getUserMedia` are runtime APIs. The payload is passed on as the base64 text; the reader's data URL and the microphone grant are parameters.
- Recognition fields are modelled as absent, `null` or a string. Other JSON values (numbers, booleans, objects) in `transcript` or `summary`, and their conversion to text in the prompt, are not modelled.
- `date-fns` formatting and `toISOString` depend on the clock. The formatted stamp and the ISO time are parameters, so the claim that a new recording's timestamp is later than earlier ones is an assumption of `SavedRecordingIsSummarized`, not a proved fact.
- Home.HomePage.ToggleRecording: the effect on `isRecording` runs after a render; the model runs it immediately after the flip.
- Home.HomePage.RecordingStopped: the file reader's `onloadend` callback runs later than the `stop` event. The model joins the two into one step, and the current user is the one at the time of the write.
- The `stop` listeners of earlier recorders, each still bound to the shared chunk buffer, are not modelled separately.
- Toasts, console logging, JSX rendering, animations, `dangerouslySetInnerHTML`, the `onAuthStateChanged` redirect and logout are presentation or routing.
- The sign-up and login pages and the Firebase client set-up have no logic of their own beyond calls into Firebase.

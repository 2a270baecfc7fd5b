/** The capture/summarize state of the home page. The page's event handlers
    change four flags (`isRecording`, `isRecordingComplete`, `isLoading`,
    `summary`), a buffer of recorded chunks and the media-recorder
    reference. Browser APIs, the auth session, the clock, the document store
    and HTTP are parameters of the handlers: what the current user is, whether
    the microphone or the store write succeeded, what the encoder produced,
    what the summary endpoint replied. */
module Home {
  import opened Outcome
  import SummaryRoute

  type Byte = b: int | 0 <= b < 256

  /** One `dataavailable` blob. */
  type Chunk = seq<Byte>

  /** The bytes of `new Blob(chunks)`: the chunks in order, so the blob's
      length is the sum of the chunks' sizes. */
  function Concat(chunks: seq<Chunk>): (bytes: seq<Byte>)
    ensures |bytes| == BlobSize(chunks)
    ensures chunks != [] ==> bytes[..|chunks[0]|] == chunks[0]
  {
    if chunks == [] then [] else chunks[0] + Concat(chunks[1..])
  }

  /** `new Blob(chunks).size`: zero exactly when every chunk is empty. */
  function BlobSize(chunks: seq<Chunk>): (n: nat)
    ensures n == 0 <==> forall i :: 0 <= i < |chunks| ==> chunks[i] == []
  {
    if chunks == [] then 0
    else
      var rest := BlobSize(chunks[1..]);
      assert forall i :: 1 <= i < |chunks| ==> chunks[i] == chunks[1..][i - 1];
      |chunks[0]| + rest
  }

  /** A chunk pushed last ends the blob: earlier bytes keep their order. */
  lemma {:induction false} ConcatAppend(chunks: seq<Chunk>, c: Chunk)
    ensures Concat(chunks + [c]) == Concat(chunks) + c
  {
    if chunks == [] {
      assert chunks + [c] == [c];
    } else {
      assert (chunks + [c])[1..] == chunks[1..] + [c];
      ConcatAppend(chunks[1..], c);
    }
  }

  /** Appending a chunk adds its size. */
  lemma {:induction false} BlobSizeAppend(chunks: seq<Chunk>, c: Chunk)
    ensures BlobSize(chunks + [c]) == BlobSize(chunks) + |c|
  {
    if chunks == [] {
      assert chunks + [c] == [c];
    } else {
      assert (chunks + [c])[1..] == chunks[1..] + [c];
      BlobSizeAppend(chunks[1..], c);
    }
  }

  /** The `state` of a MediaRecorder. */
  datatype RecorderState = Inactive | Recording | Paused

  /** `mediaRecorder.current`: `null` until the first recording starts. */
  datatype RecorderRef = NoRecorder | Recorder(state: RecorderState)

  /** The file picked in the upload input; only its declared type matters. */
  datatype PickedFile = PickedFile(mimeType: string)

  const WavType := "audio/wav"

  // Clock readings used by the scenarios below.
  const EarlierStamp := "2024-01-01_00-00-00"
  const EarlierTime := "2024-01-01T00:00:00.000Z"
  const LaterStamp := "2024-01-01_00-05-00"
  const LaterTime := "2024-01-01T00:05:00.000Z"
  const SummaryFetchError := "Error fetching summary. Please try again."

  /** `audio_${timestamp}.wav`; the date-formatted stamp is a parameter. */
  function RecordingFileName(stamp: string): (name: string)
    ensures |name| == |stamp| + 10
    ensures name[..6] == "audio_" && name[|name| - 4..] == ".wav"
    ensures name[6..|name| - 4] == stamp
  {
    "audio_" + stamp + ".wav"
  }

  /** `uploaded_audio_${timestamp}.wav`. */
  function UploadFileName(stamp: string): (name: string)
    ensures |name| == |stamp| + 19
    ensures name[..15] == "uploaded_audio_" && name[|name| - 4..] == ".wav"
    ensures name[15..|name| - 4] == stamp
  {
    "uploaded_audio_" + stamp + ".wav"
  }

  /** A recorded clip and an uploaded clip never get the same file name. */
  lemma RecordingAndUploadNamesDiffer(s1: string, s2: string)
    ensures RecordingFileName(s1) != UploadFileName(s2)
  {
    assert RecordingFileName(s1)[0] == 'a' && UploadFileName(s2)[0] == 'u';
  }

  /** The user's audio collection after one more document is added. */
  function WithRecord(audios: map<string, seq<SummaryRoute.Record>>, uid: string, rec: SummaryRoute.Record)
    : (m: map<string, seq<SummaryRoute.Record>>)
    ensures uid in m && m[uid] == (if uid in audios then audios[uid] else []) + [rec]
    ensures forall u :: u in audios && u != uid ==> u in m && m[u] == audios[u]
    ensures m.Keys == audios.Keys + {uid}
  {
    audios[uid := (if uid in audios then audios[uid] else []) + [rec]]
  }

  /** What the summary panel shows after `axios.get('/api/summary?...')`
      settles: the `response` field of a 2xx reply, the fixed error text when
      the request failed or the status was not 2xx (axios rejects those). */
  function FetchedSummary(reply: Result<SummaryRoute.Reply>): (s: string)
    requires reply.Ok? && 200 <= reply.value.status < 300 ==> reply.value.body.Summary?
    ensures reply.Ok? && 200 <= reply.value.status < 300 ==> s == reply.value.body.response
    ensures reply.Err? || !(200 <= reply.value.status < 300) ==> s == SummaryFetchError
  {
    if reply.Ok? && 200 <= reply.value.status < 300 then reply.value.body.response
    else SummaryFetchError
  }

  /** Every reply of the summary endpoint is one the page can read: on 200 it
      shows the model's text, on 400, 404 and 500 the fixed error text. */
  lemma FetchedSummaryOfRoute(
    userId: Option<string>,
    read: string -> Result<seq<SummaryRoute.Record>>,
    transcribe: string -> Result<SummaryRoute.Recognition>,
    refine: string -> Result<string>
  )
    ensures var reply := SummaryRoute.Get(userId, read, transcribe, refine).reply;
      && (reply.status == 200 ==> reply.body.Summary?)
      && FetchedSummary(Ok(reply)) == if reply.status == 200 then reply.body.response else SummaryFetchError
  {
  }

  class HomePage {
    var isRecording: bool
    var isRecordingComplete: bool
    var summary: string
    var isLoading: bool
    var mediaRecorder: RecorderRef
    var audioChunks: seq<Chunk>
    /** The documents this page has added, by user id (`users/{uid}/audios`). */
    var audios: map<string, seq<SummaryRoute.Record>>
    /** Summary requests issued and not yet answered. */
    ghost var pending: nat

    /** At most one summary request is in flight, and `isLoading` says
        whether one is. */
    ghost predicate Valid()
      reads this
      ensures Valid() && SummaryEnabled() ==> pending == 0
      ensures Valid() && pending > 0 ==> !SummaryEnabled()
    {
      pending <= 1 && (isLoading <==> pending == 1)
    }

    /** The Summary button is rendered with `disabled={!isRecordingComplete || isLoading}`. */
    function SummaryEnabled(): (enabled: bool)
      reads this
      ensures enabled <==> isRecordingComplete && !isLoading
    {
      !(!isRecordingComplete || isLoading)
    }

    /** The initial render; the recording effect's first run finds no
        recorder and does nothing. */
    constructor ()
      ensures Valid()
      ensures !isRecording && !isRecordingComplete && !isLoading && summary == ""
      ensures mediaRecorder == NoRecorder && audioChunks == [] && audios == map[]
      ensures pending == 0
    {
      isRecording, isRecordingComplete, isLoading, summary := false, false, false, "";
      mediaRecorder, audioChunks, audios := NoRecorder, [], map[];
      pending := 0;
    }

    /** The Start/Stop button flips `isRecording`; the effect on
        `isRecording` then starts or stops the recorder. */
    method ToggleRecording(micGranted: bool)
      modifies this`isRecording, this`isRecordingComplete, this`mediaRecorder, this`audioChunks
      ensures isRecording == !old(isRecording)
      ensures isRecording ==> !isRecordingComplete
      ensures isRecording && micGranted ==> mediaRecorder == Recorder(Recording) && audioChunks == []
      ensures isRecording && !micGranted ==>
        mediaRecorder == old(mediaRecorder) && audioChunks == old(audioChunks)
      ensures !isRecording ==> audioChunks == old(audioChunks)
      ensures !isRecording && old(mediaRecorder).Recorder? && old(mediaRecorder).state != Inactive ==>
        mediaRecorder == Recorder(Inactive) && isRecordingComplete
      ensures !isRecording && !(old(mediaRecorder).Recorder? && old(mediaRecorder).state != Inactive) ==>
        mediaRecorder == old(mediaRecorder) && isRecordingComplete == old(isRecordingComplete)
    {
      isRecording := !isRecording;
      if isRecording {
        StartRecording(micGranted);
      } else {
        StopRecording();
      }
    }

    /** `startRecording`: clears `isRecordingComplete` first; if the
        microphone is granted, installs a fresh recorder and empties the
        chunk buffer. A refused microphone leaves the rest as it was. */
    method StartRecording(micGranted: bool)
      modifies this`isRecordingComplete, this`mediaRecorder, this`audioChunks
      ensures !isRecordingComplete
      ensures micGranted ==> mediaRecorder == Recorder(Recording) && audioChunks == []
      ensures !micGranted ==> mediaRecorder == old(mediaRecorder) && audioChunks == old(audioChunks)
    {
      isRecordingComplete := false;
      if micGranted {
        mediaRecorder := Recorder(Recording);
        audioChunks := [];
      }
    }

    /** The `dataavailable` listener: the chunk is appended and nothing else
        changes. */
    method ChunkAvailable(chunk: Chunk)
      modifies this`audioChunks
      ensures audioChunks == old(audioChunks) + [chunk]
      ensures Concat(audioChunks) == Concat(old(audioChunks)) + chunk
      ensures BlobSize(audioChunks) == BlobSize(old(audioChunks)) + |chunk|
    {
      BlobSizeAppend(audioChunks, chunk);
      ConcatAppend(audioChunks, chunk);
      audioChunks := audioChunks + [chunk];
    }

    /** `stopRecording`: acts only on a recorder that is not inactive, and
        then marks the recording complete at once, before any upload. */
    method StopRecording()
      modifies this`mediaRecorder, this`isRecordingComplete
      ensures old(mediaRecorder).Recorder? && old(mediaRecorder).state != Inactive ==>
        mediaRecorder == Recorder(Inactive) && isRecordingComplete
      ensures !(old(mediaRecorder).Recorder? && old(mediaRecorder).state != Inactive) ==>
        mediaRecorder == old(mediaRecorder) && isRecordingComplete == old(isRecordingComplete)
    {
      if mediaRecorder.Recorder? && mediaRecorder.state != Inactive {
        mediaRecorder := Recorder(Inactive);
        isRecordingComplete := true;
      }
    }

    /** The `try { addDoc(...) }` block shared by both upload paths: a
        successful write adds the document and sets `isRecordingComplete`; a
        failed one changes no state. */
    method SaveAudio(uid: string, fileName: string, dataUrl: string, now: string, writeOk: bool)
      modifies this`audios, this`isRecordingComplete
      ensures writeOk ==>
        audios == WithRecord(old(audios), uid, SummaryRoute.Record(fileName, dataUrl, now)) && isRecordingComplete
      ensures !writeOk ==> audios == old(audios) && isRecordingComplete == old(isRecordingComplete)
    {
      if writeOk {
        audios := WithRecord(audios, uid, SummaryRoute.Record(fileName, dataUrl, now));
        isRecordingComplete := true;
      }
    }

    /** The recorder's `stop` listener. An empty blob is never written; a
        non-empty one is written for the signed-in user. `dataUrl` is what
        the file reader made of the blob, `stamp` the formatted date, `now`
        the ISO time. */
    method RecordingStopped(user: Option<string>, dataUrl: string, stamp: string, now: string, writeOk: bool)
      modifies this`audios, this`isRecordingComplete
      ensures BlobSize(audioChunks) == 0 ==>
        audios == old(audios) && isRecordingComplete == old(isRecordingComplete)
      ensures BlobSize(audioChunks) > 0 && user.Some? && writeOk ==>
        audios == WithRecord(old(audios), user.value, SummaryRoute.Record(RecordingFileName(stamp), dataUrl, now))
        && isRecordingComplete
      ensures !(BlobSize(audioChunks) > 0 && user.Some? && writeOk) ==>
        audios == old(audios) && isRecordingComplete == old(isRecordingComplete)
    {
      if BlobSize(audioChunks) > 0 {
        if user.Some? {
          SaveAudio(user.value, RecordingFileName(stamp), dataUrl, now, writeOk);
        }
      }
    }

    /** `handleFileUpload`: only a picked file declared as exactly
        `audio/wav` is read and written; anything else is rejected with no
        store write and no flag change. The file's size is not checked. */
    method HandleFileUpload(file: Option<PickedFile>, user: Option<string>, dataUrl: string, stamp: string, now: string, writeOk: bool)
      modifies this`audios, this`isRecordingComplete
      ensures !(file.Some? && file.value.mimeType == WavType) ==>
        audios == old(audios) && isRecordingComplete == old(isRecordingComplete)
      ensures file.Some? && file.value.mimeType == WavType && user.Some? && writeOk ==>
        audios == WithRecord(old(audios), user.value, SummaryRoute.Record(UploadFileName(stamp), dataUrl, now))
        && isRecordingComplete
      ensures !(file.Some? && file.value.mimeType == WavType && user.Some? && writeOk) ==>
        audios == old(audios) && isRecordingComplete == old(isRecordingComplete)
    {
      if file.Some? && file.value.mimeType == WavType {
        if user.Some? {
          SaveAudio(user.value, UploadFileName(stamp), dataUrl, now, writeOk);
        }
      }
    }

    /** `handleTranscribe` up to its `await`: with a signed-in user it sets
        `isLoading` and sends `GET /api/summary?userId=<uid>`, whose user id
        it returns; without one it does nothing. */
    method HandleTranscribe(user: Option<string>) returns (request: Option<string>)
      modifies this`isLoading, this`pending
      ensures request == user
      ensures user.Some? ==> isLoading && pending == old(pending) + 1
      ensures user.None? ==> isLoading == old(isLoading) && pending == old(pending)
    {
      request := None;
      if user.Some? {
        isLoading := true;
        pending := pending + 1;
        request := Some(user.value);
      }
    }

    /** A click on the Summary button: a disabled button sends nothing, so
        a second request never starts while one is in flight. */
    method ClickSummary(user: Option<string>) returns (request: Option<string>)
      requires Valid()
      modifies this`isLoading, this`pending
      ensures Valid()
      ensures request == if old(SummaryEnabled()) then user else None
      ensures request.Some? ==> isLoading
      ensures request.None? ==> isLoading == old(isLoading) && pending == old(pending)
    {
      request := None;
      if SummaryEnabled() {
        request := HandleTranscribe(user);
      }
    }

    /** `handleTranscribe` after its `await`: the summary becomes the reply's
        text or the fixed error text, and `isLoading` is cleared either way
        (the `finally` block). */
    method SummaryArrived(reply: Result<SummaryRoute.Reply>)
      requires pending > 0
      requires reply.Ok? && 200 <= reply.value.status < 300 ==> reply.value.body.Summary?
      modifies this`summary, this`isLoading, this`pending
      ensures summary == FetchedSummary(reply)
      ensures !isLoading && pending == old(pending) - 1
      ensures old(Valid()) ==> Valid()
    {
      summary := FetchedSummary(reply);
      isLoading := false;
      pending := pending - 1;
    }
  }

  /** `stopRecording` sets `isRecordingComplete` as soon as the recorder
      stops, before the upload (and not only after a successful one). For a
      user with no stored audio, a recording whose write fails still enables
      the Summary button; the endpoint then answers 404 and the panel shows
      the error text. */
  method ScenarioFailedUploadStillEnablesSummary(uid: string, chunk: Chunk)
    returns (enabledAfterFailedWrite: bool, written: map<string, seq<SummaryRoute.Record>>, status: int, shown: string)
    requires uid != "" && chunk != []
    ensures enabledAfterFailedWrite && written == map[]
    ensures status == 404 && shown == SummaryFetchError
  {
    var page := new HomePage();
    page.ToggleRecording(true);
    page.ChunkAvailable(chunk);
    page.ToggleRecording(false);
    page.RecordingStopped(Some(uid), "data:audio/wav;base64,AAAA", EarlierStamp, EarlierTime, false);
    enabledAfterFailedWrite, written := page.SummaryEnabled(), page.audios;
    var request := page.ClickSummary(Some(uid));
    var store := written;
    var read := (u: string) => Ok(if u in store then store[u] else []);
    var handled := SummaryRoute.Get(request, read, _ => Err("unused"), _ => Err("unused"));
    status := handled.reply.status;
    page.SummaryArrived(Ok(handled.reply));
    shown := page.summary;
  }

  /** The same sequence for a user who uploaded a clip earlier: the failed
      recording still enables the button, and the endpoint summarizes the
      earlier upload, so the panel shows a summary of the older clip as a
      success. */
  method ScenarioFailedRecordingSummarizesOlderUpload(
    uid: string, chunk: Chunk, header: string, body: string,
    transcribe: string -> Result<SummaryRoute.Recognition>,
    refine: string -> Result<string>
  ) returns (written: map<string, seq<SummaryRoute.Record>>, calls: seq<SummaryRoute.Call>, shown: string)
    requires uid != "" && chunk != [] && ',' !in header && ',' !in body
    requires transcribe(body).Ok?
    requires refine(SummaryRoute.RefinePrompt(
      SummaryRoute.ExtractSummary(transcribe(body).value),
      SummaryRoute.ExtractTranscript(transcribe(body).value))).Ok?
    ensures written == WithRecord(map[], uid, SummaryRoute.Record(UploadFileName(EarlierStamp), header + "," + body, EarlierTime))
    ensures |calls| == 3 && calls[1] == SummaryRoute.Transcribe(body, SummaryRoute.AudioContentType)
    ensures shown == refine(SummaryRoute.RefinePrompt(
      SummaryRoute.ExtractSummary(transcribe(body).value),
      SummaryRoute.ExtractTranscript(transcribe(body).value))).value
  {
    var page := new HomePage();
    var dataUrl := header + "," + body;
    var older := SummaryRoute.Record(UploadFileName(EarlierStamp), dataUrl, EarlierTime);
    page.HandleFileUpload(Some(PickedFile(WavType)), Some(uid), dataUrl, EarlierStamp, EarlierTime, true);
    page.ToggleRecording(true);
    page.ChunkAvailable(chunk);
    page.ToggleRecording(false);
    page.RecordingStopped(Some(uid), header + ",", LaterStamp, LaterTime, false);
    written := page.audios;
    var request := page.ClickSummary(Some(uid));
    assert request == Some(uid);
    var store := written;
    var read: string -> Result<seq<SummaryRoute.Record>> := u => Ok(if u in store then store[u] else []);
    assert read(uid) == Ok(WithRecord(map[], uid, older)[uid]);
    SavedRecordingIsSummarized(map[], uid, older, header, body, read, transcribe, refine);
    var handled := SummaryRoute.Get(request, read, transcribe, refine);
    calls := handled.calls;
    page.SummaryArrived(Ok(handled.reply));
    shown := page.summary;
  }

  /** The recording just written is the one summarized: when its
      timestamp is later than those of the user's earlier recordings, the
      endpoint transcribes its payload and replies 200 with the model's text. */
  lemma SavedRecordingIsSummarized(
    audios: map<string, seq<SummaryRoute.Record>>,
    uid: string, rec: SummaryRoute.Record, header: string, body: string,
    read: string -> Result<seq<SummaryRoute.Record>>,
    transcribe: string -> Result<SummaryRoute.Recognition>,
    refine: string -> Result<string>
  )
    requires uid != "" && ',' !in header && ',' !in body
    requires rec.audioData == header + "," + body
    requires uid in audios ==>
      forall x :: x in audios[uid] ==> SummaryRoute.TimestampBefore(x.timestamp, rec.timestamp)
    requires read(uid) == Ok(WithRecord(audios, uid, rec)[uid])
    requires transcribe(body).Ok?
    ensures var resp := transcribe(body).value;
      var prompt := SummaryRoute.RefinePrompt(SummaryRoute.ExtractSummary(resp), SummaryRoute.ExtractTranscript(resp));
      var h := SummaryRoute.Get(Some(uid), read, transcribe, refine);
      && h.calls == [SummaryRoute.QueryNewest(uid), SummaryRoute.Transcribe(body, SummaryRoute.AudioContentType),
                     SummaryRoute.Refine(SummaryRoute.LlmModel, SummaryRoute.LlmTemperature, prompt)]
      && (refine(prompt).Ok? ==> h.reply == SummaryRoute.Reply(200, SummaryRoute.Summary(true, refine(prompt).value)))
  {
    var before := if uid in audios then audios[uid] else [];
    SummaryRoute.NewestAfterAppend(before, rec);
    SummaryRoute.AudioPayloadOfDataUrl(header, body);
    SummaryRoute.GetAsksModel(Some(uid), read, transcribe, refine, rec, body, transcribe(body).value);
  }
}

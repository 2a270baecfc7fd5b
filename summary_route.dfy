/** The summary endpoint `GET /api/summary?userId=<id>`: it finds the user's
    newest stored recording, strips the data-URL header from its payload,
    has it transcribed, extracts the transcript and the extractive summary
    from the recognition result, and asks a language model to refine them.

    The handler has no state of its own, so it is modelled as a function of
    the query parameter, of what the store answers, and of what the two
    external services answer. The services and the store are parameters; the
    handler's reply says which of them it called, and with what. */
module SummaryRoute {
  import opened Outcome

  // ---------------------------------------------------------------------
  // Stored recordings and the store's "newest first, limit 1" answer
  // ---------------------------------------------------------------------

  /** One document of `users/{userId}/audios`. `audioData` is a data URL
      (`data:audio/wav;base64,...`), `timestamp` an ISO-8601 string. */
  datatype Record = Record(fileName: string, audioData: string, timestamp: string)

  /** The store orders string fields lexicographically by code point; for
      ISO-8601 timestamps of one format this is chronological order. */
  predicate TimestampLeq(a: string, b: string)
    ensures a <= b ==> TimestampLeq(a, b)
    ensures a != [] && b != [] && a[0] < b[0] ==> TimestampLeq(a, b)
    ensures a != [] && b != [] && b[0] < a[0] ==> !TimestampLeq(a, b)
    decreases |a|
  {
    if a == [] then true
    else if b == [] then false
    else if a[0] != b[0] then a[0] < b[0]
    else TimestampLeq(a[1..], b[1..])
  }

  /** `b` sorts strictly after `a`. */
  predicate TimestampBefore(a: string, b: string) {
    !TimestampLeq(b, a)
  }

  lemma {:induction false} TimestampLeqReflexive(a: string)
    ensures TimestampLeq(a, a)
  {
    if a != [] {
      TimestampLeqReflexive(a[1..]);
    }
  }

  lemma {:induction false} TimestampLeqTotal(a: string, b: string)
    ensures TimestampLeq(a, b) || TimestampLeq(b, a)
  {
    if a != [] && b != [] && a[0] == b[0] {
      TimestampLeqTotal(a[1..], b[1..]);
    }
  }

  lemma {:induction false} TimestampLeqTransitive(a: string, b: string, c: string)
    requires TimestampLeq(a, b) && TimestampLeq(b, c)
    ensures TimestampLeq(a, c)
  {
    if a != [] && a[0] == b[0] && b[0] == c[0] {
      TimestampLeqTransitive(a[1..], b[1..], c[1..]);
    }
  }

  lemma {:induction false} TimestampLeqAntisymmetric(a: string, b: string)
    requires TimestampLeq(a, b) && TimestampLeq(b, a)
    ensures a == b
  {
    if a != [] {
      TimestampLeqAntisymmetric(a[1..], b[1..]);
      assert a == [a[0]] + a[1..] && b == [b[0]] + b[1..];
    }
  }

  /** The record the query `orderBy('timestamp', 'desc'), limit(1)` returns.
      The store leaves ties unspecified; this model returns the earliest of
      the tied records in `recs`. */
  function NewestRecord(recs: seq<Record>): (r: Option<Record>)
    ensures r.None? <==> recs == []
    ensures r.Some? ==> r.value in recs
  {
    if recs == [] then None
    else
      match NewestRecord(recs[1..])
      case None => Some(recs[0])
      case Some(best) =>
        if TimestampLeq(best.timestamp, recs[0].timestamp) then Some(recs[0]) else Some(best)
  }

  /** The record served has the greatest timestamp of all the user's records. */
  lemma {:induction false} NewestRecordIsGreatest(recs: seq<Record>)
    requires recs != []
    ensures forall x :: x in recs ==> TimestampLeq(x.timestamp, NewestRecord(recs).value.timestamp)
  {
    var top := NewestRecord(recs).value;
    if recs[1..] == [] {
      assert recs == [recs[0]];
      TimestampLeqReflexive(recs[0].timestamp);
    } else {
      NewestRecordIsGreatest(recs[1..]);
      var best := NewestRecord(recs[1..]).value;
      forall x | x in recs
        ensures TimestampLeq(x.timestamp, top.timestamp)
      {
        if x == recs[0] {
          if top == recs[0] {
            TimestampLeqReflexive(x.timestamp);
          } else {
            TimestampLeqTotal(x.timestamp, best.timestamp);
          }
        } else {
          assert x in recs[1..];
          if top == recs[0] {
            TimestampLeqTransitive(x.timestamp, best.timestamp, top.timestamp);
          }
        }
      }
    }
  }

  /** A record whose timestamp is strictly later than every earlier one is
      the one served afterwards. */
  lemma {:induction false} NewestAfterAppend(recs: seq<Record>, r: Record)
    requires forall x :: x in recs ==> TimestampBefore(x.timestamp, r.timestamp)
    ensures NewestRecord(recs + [r]) == Some(r)
  {
    if recs == [] {
      assert recs + [r] == [r];
    } else {
      assert (recs + [r])[1..] == recs[1..] + [r];
      NewestAfterAppend(recs[1..], r);
      assert recs[0] in recs;
    }
  }

  // ---------------------------------------------------------------------
  // `audioData.split(',')[1]`
  // ---------------------------------------------------------------------

  /** JavaScript's `String.prototype.split` with a one-character separator:
      the pieces between separators, one more piece than separators. */
  function SplitOn(s: string, sep: char): (parts: seq<string>)
    ensures |parts| >= 1
    ensures forall i :: 0 <= i < |parts| ==> sep !in parts[i]
    ensures |parts| == 1 <==> sep !in s
  {
    if s == [] then [""]
    else
      var rest := SplitOn(s[1..], sep);
      assert s == [s[0]] + s[1..];
      if s[0] == sep then [""] + rest
      else [[s[0]] + rest[0]] + rest[1..]
  }

  /** `Array.prototype.join` with a one-character separator. */
  function Join(parts: seq<string>, sep: char): string {
    if parts == [] then ""
    else if |parts| == 1 then parts[0]
    else parts[0] + [sep] + Join(parts[1..], sep)
  }

  /** Splitting loses nothing: joining the pieces gives the string back. */
  lemma {:induction false} JoinSplitOn(s: string, sep: char)
    ensures Join(SplitOn(s, sep), sep) == s
  {
    if s != [] {
      var rest := SplitOn(s[1..], sep);
      JoinSplitOn(s[1..], sep);
      assert s == [s[0]] + s[1..];
      if s[0] != sep && |rest| > 1 {
        assert Join(rest, sep) == rest[0] + [sep] + Join(rest[1..], sep);
        assert ([[s[0]] + rest[0]] + rest[1..])[1..] == rest[1..];
      }
    }
  }

  lemma {:induction false} SplitOnWithoutSeparator(x: string, sep: char)
    requires sep !in x
    ensures SplitOn(x, sep) == [x]
  {
    if x != [] {
      SplitOnWithoutSeparator(x[1..], sep);
      assert x == [x[0]] + x[1..];
    }
  }

  lemma {:induction false} SplitOnAfterPiece(x: string, y: string, sep: char)
    requires sep !in x
    ensures SplitOn(x + [sep] + y, sep) == [x] + SplitOn(y, sep)
  {
    var s := x + [sep] + y;
    if x == [] {
      assert s[1..] == y;
    } else {
      assert s[1..] == x[1..] + [sep] + y;
      SplitOnAfterPiece(x[1..], y, sep);
      assert [x[0]] + x[1..] == x;
    }
  }

  /** Joining pieces that contain no separator and splitting again gives the
      same pieces. */
  lemma {:induction false} SplitOnJoin(parts: seq<string>, sep: char)
    requires |parts| >= 1
    requires forall i :: 0 <= i < |parts| ==> sep !in parts[i]
    ensures SplitOn(Join(parts, sep), sep) == parts
  {
    if |parts| == 1 {
      SplitOnWithoutSeparator(parts[0], sep);
    } else {
      SplitOnJoin(parts[1..], sep);
      SplitOnAfterPiece(parts[0], Join(parts[1..], sep), sep);
      assert [parts[0]] + parts[1..] == parts;
    }
  }

  /** What `Buffer.from(undefined, 'base64')` throws. */
  const MissingPayloadError: string :=
    "The first argument must be of type string or an instance of Buffer, ArrayBuffer, or Array or an Array-like Object. Received undefined"

  /** The audio payload handed to the transcription service: the second
      comma-separated field of the stored data URL. A data URL without a comma
      has no second field, and decoding it throws. */
  function AudioPayload(audioData: string): (r: Result<string>)
    ensures r.Err? <==> ',' !in audioData
    ensures r.Err? ==> r.error == MissingPayloadError
    ensures r.Ok? ==> ',' !in r.value
  {
    var parts := SplitOn(audioData, ',');
    if |parts| >= 2 then Ok(parts[1]) else Err(MissingPayloadError)
  }

  /** For a data URL `header,body` the payload is exactly the body. */
  lemma AudioPayloadOfDataUrl(header: string, body: string)
    requires ',' !in header && ',' !in body
    ensures AudioPayload(header + "," + body) == Ok(body)
  {
    SplitOnJoin([header, body], ',');
    assert Join([header, body], ',') == header + "," + body;
  }

  /** Only the text between the first and the second comma is kept; whatever
      follows a second comma is dropped. */
  lemma AudioPayloadStopsAtSecondComma(header: string, body: string, more: string)
    requires ',' !in header && ',' !in body
    ensures AudioPayload(header + "," + body + "," + more) == Ok(body)
  {
    SplitOnAfterPiece(body, more, ',');
    SplitOnAfterPiece(header, body + "," + more, ',');
    assert header + "," + body + "," + more == header + [','] + (body + [','] + more);
  }

  // ---------------------------------------------------------------------
  // The recognition result and the two field extractors
  // ---------------------------------------------------------------------

  /** A leaf field of the recognition JSON: absent (`undefined`), `null`, or
      a string. */
  datatype Leaf = Missing | Null | Text(s: string)

  /** JavaScript truthiness of a leaf: only a non-empty string is truthy. */
  predicate Truthy(v: Leaf)
    ensures v.Missing? || v.Null? || v == Text("") ==> !Truthy(v)
    ensures v.Text? && v.s != "" ==> Truthy(v)
  {
    v.Text? && v.s != ""
  }

  datatype Alternative = Alternative(transcript: Leaf, summary: Leaf)
  /** `None` stands for a property that is `undefined` or `null`. */
  datatype Channel = Channel(alternatives: Option<seq<Alternative>>)
  datatype Results = Results(channels: Option<seq<Channel>>)
  datatype Recognition = Recognition(results: Option<Results>)

  /** `response.results.channels[0].alternatives[0]` can be evaluated without
      throwing. */
  ghost predicate PathExists(resp: Recognition) {
    && resp.results.Some?
    && resp.results.value.channels.Some?
    && |resp.results.value.channels.value| > 0
    && resp.results.value.channels.value[0].alternatives.Some?
    && |resp.results.value.channels.value[0].alternatives.value| > 0
  }

  ghost function PathTarget(resp: Recognition): Alternative
    requires PathExists(resp)
  {
    resp.results.value.channels.value[0].alternatives.value[0]
  }

  /** Evaluates `response.results.channels[0].alternatives[0]`; `None` where
      the evaluation throws. */
  function FirstAlternative(resp: Recognition): (r: Option<Alternative>)
    ensures r.Some? <==> PathExists(resp)
    ensures r.Some? ==> r.value == PathTarget(resp)
  {
    match resp.results
    case None => None
    case Some(res) =>
      match res.channels
      case None => None
      case Some(chs) =>
        if chs == [] then None
        else
          match chs[0].alternatives
          case None => None
          case Some(alts) => if alts == [] then None else Some(alts[0])
  }

  const NoSummary := "No summary available"
  const SummaryNotFound := "Summary not found in the response"
  const NoTranscript := "No transcript available"
  const TranscriptNotFound := "Transcript not found in the response"

  /** The extractive summary, or one of two placeholders; never throws and
      never yields the empty string. */
  function ExtractSummary(resp: Recognition): (r: string)
    ensures r != ""
    ensures PathExists(resp) && Truthy(PathTarget(resp).summary) ==> r == PathTarget(resp).summary.s
    ensures PathExists(resp) && !Truthy(PathTarget(resp).summary) ==> r == NoSummary
    ensures !PathExists(resp) ==> r == SummaryNotFound
  {
    match FirstAlternative(resp)
    case None => SummaryNotFound
    case Some(alt) => if Truthy(alt.summary) then alt.summary.s else NoSummary
  }

  /** The transcript, or one of two placeholders; never throws and never
      yields the empty string. */
  function ExtractTranscript(resp: Recognition): (r: string)
    ensures r != ""
    ensures PathExists(resp) && Truthy(PathTarget(resp).transcript) ==> r == PathTarget(resp).transcript.s
    ensures PathExists(resp) && !Truthy(PathTarget(resp).transcript) ==> r == NoTranscript
    ensures !PathExists(resp) ==> r == TranscriptNotFound
  {
    match FirstAlternative(resp)
    case None => TranscriptNotFound
    case Some(alt) => if Truthy(alt.transcript) then alt.transcript.s else NoTranscript
  }

  /** Each extractor reads only its own field: two responses whose first
      alternatives agree on that field give the same result, whatever the
      other field holds. */
  lemma ExtractorsIndependent(r1: Recognition, r2: Recognition)
    requires FirstAlternative(r1).Some? && FirstAlternative(r2).Some?
    ensures FirstAlternative(r1).value.summary == FirstAlternative(r2).value.summary ==>
      ExtractSummary(r1) == ExtractSummary(r2)
    ensures FirstAlternative(r1).value.transcript == FirstAlternative(r2).value.transcript ==>
      ExtractTranscript(r1) == ExtractTranscript(r2)
  {
  }

  // ---------------------------------------------------------------------
  // The refinement prompt
  // ---------------------------------------------------------------------

  const PromptLead: string :=
    "Please refine the provided summary of the audio content into a highly structured, detailed, and professional tone. "
    + "Ensure the summary is well-organized, with distinct sections, appropriate headings, and correct punctuation to make it polished and easy to follow. "
    + "Include all essential details and make sure the summary is comprehensive, adding any necessary clarity or depth to ensure a professional standard."
    + "\n\nHere is the transcript of the audio: "
  const PromptMiddle: string := "\n\nHere's the provided summary of the audio: "
  const PromptEnd: string := "\n"

  const LlmModel := "mixtral-8x7b-32768"
  const LlmTemperature := 0

  /** The single instruction sent to the language model: a fixed text that
      embeds the transcript and then the summary, each verbatim. */
  function RefinePrompt(summary: string, transcript: string): (p: string)
    ensures |p| == |PromptLead| + |transcript| + |PromptMiddle| + |summary| + |PromptEnd|
    ensures p[..|PromptLead|] == PromptLead
    ensures p[|PromptLead|..|PromptLead| + |transcript|] == transcript
    ensures p[|PromptLead| + |transcript| + |PromptMiddle|..|p| - |PromptEnd|] == summary
  {
    PromptLead + transcript + PromptMiddle + summary + PromptEnd
  }

  /** Reads (summary, transcript) back out of a prompt, given the length of
      the transcript; `None` when `p` does not have the prompt's shape. */
  function PromptFields(p: string, transcriptLength: nat): Option<(string, string)> {
    var lead := |PromptLead|;
    var mid := lead + transcriptLength;
    var tail := mid + |PromptMiddle|;
    if |p| < tail + |PromptEnd| then None
    else if p[..lead] != PromptLead || p[mid..tail] != PromptMiddle || p[|p| - |PromptEnd|..] != PromptEnd then None
    else Some((p[tail..|p| - |PromptEnd|], p[lead..mid]))
  }

  /** The prompt determines both of its inputs: they can be read back. */
  lemma PromptRoundTrip(summary: string, transcript: string)
    ensures PromptFields(RefinePrompt(summary, transcript), |transcript|) == Some((summary, transcript))
  {
  }

  /** Different inputs give different prompts (for transcripts of one length). */
  lemma PromptInjective(s1: string, t1: string, s2: string, t2: string)
    requires |t1| == |t2|
    requires RefinePrompt(s1, t1) == RefinePrompt(s2, t2)
    ensures s1 == s2 && t1 == t2
  {
  }

  // ---------------------------------------------------------------------
  // The handler
  // ---------------------------------------------------------------------

  datatype Body =
    | Summary(success: bool, response: string)
    | Message(message: string)
    | Failure(message: string, error: string)

  datatype Reply = Reply(status: int, body: Body)

  /** The external calls the handler makes, in order. */
  datatype Call =
    | QueryNewest(userId: string)
    | Transcribe(audio: string, contentType: string)
    | Refine(model: string, temperature: int, prompt: string)

  datatype Handled = Handled(reply: Reply, calls: seq<Call>)

  const UserIdRequired := "User ID is required"
  const NoAudioFound := "No audio found for the user"
  const InternalError := "Internal Server Error"
  const AudioContentType := "audio/wav"

  function ServerError(e: string): Reply {
    Reply(500, Failure(InternalError, e))
  }

  /** `!userId` is false: the parameter is present and not the empty string. */
  predicate ValidUserId(userId: Option<string>)
    ensures userId.None? || userId == Some("") ==> !ValidUserId(userId)
    ensures userId.Some? && userId.value != "" ==> ValidUserId(userId)
  {
    userId.Some? && userId.value != ""
  }

  /** `GET /api/summary`. `read` is the store's answer for the user's audio
      collection, `transcribe` the speech service's answer for a payload,
      `refine` the language model's answer for a prompt. */
  function Get(
    userId: Option<string>,
    read: string -> Result<seq<Record>>,
    transcribe: string -> Result<Recognition>,
    refine: string -> Result<string>
  ): (h: Handled)
    ensures h.reply.status in {200, 400, 404, 500}
    // a missing or empty user id is rejected before the store is queried
    ensures h.reply.status == 400 <==> !ValidUserId(userId)
    ensures h.reply.status == 400 ==> h.reply.body == Message(UserIdRequired) && h.calls == []
    ensures h.reply.status != 400 ==> |h.calls| >= 1 && h.calls[0] == QueryNewest(userId.value)
    // no recordings: 404 and nothing sent to the services
    ensures h.reply.status == 404 <==> ValidUserId(userId) && read(userId.value) == Ok([])
    ensures h.reply.status == 404 ==> h.reply.body == Message(NoAudioFound) && |h.calls| == 1
    // every failure is reported the same way
    ensures h.reply.status == 500 ==> h.reply.body.Failure? && h.reply.body.message == InternalError
    // success: the model's text is returned unchanged
    ensures h.reply.status == 200 ==>
      && h.reply.body.Summary? && h.reply.body.success
      && |h.calls| == 3 && h.calls[2].Refine?
      && refine(h.calls[2].prompt) == Ok(h.reply.body.response)
  {
    if !ValidUserId(userId) then
      Handled(Reply(400, Message(UserIdRequired)), [])
    else
      var uid := userId.value;
      var query := [QueryNewest(uid)];
      match read(uid)
      case Err(e) => Handled(ServerError(e), query)
      case Ok(recs) =>
        match NewestRecord(recs)
        case None => Handled(Reply(404, Message(NoAudioFound)), query)
        case Some(rec) =>
          match AudioPayload(rec.audioData)
          case Err(e) => Handled(ServerError(e), query)
          case Ok(audio) =>
            var sent := query + [Transcribe(audio, AudioContentType)];
            match transcribe(audio)
            case Err(e) => Handled(ServerError(e), sent)
            case Ok(resp) =>
              var prompt := RefinePrompt(ExtractSummary(resp), ExtractTranscript(resp));
              var asked := sent + [Refine(LlmModel, LlmTemperature, prompt)];
              match refine(prompt)
              case Err(e) => Handled(ServerError(e), asked)
              case Ok(text) => Handled(Reply(200, Summary(true, text)), asked)
  }

  /** Once the newest record's payload has been transcribed, the model is
      asked with the prompt built from the two extracted fields; when it
      answers, the reply is 200 with its text, unchanged. */
  lemma GetAsksModel(
    userId: Option<string>,
    read: string -> Result<seq<Record>>,
    transcribe: string -> Result<Recognition>,
    refine: string -> Result<string>,
    rec: Record, audio: string, resp: Recognition
  )
    requires ValidUserId(userId)
    requires read(userId.value).Ok? && NewestRecord(read(userId.value).value) == Some(rec)
    requires AudioPayload(rec.audioData) == Ok(audio)
    requires transcribe(audio) == Ok(resp)
    ensures var prompt := RefinePrompt(ExtractSummary(resp), ExtractTranscript(resp));
      var h := Get(userId, read, transcribe, refine);
      && h.calls == [QueryNewest(userId.value), Transcribe(audio, AudioContentType),
                     Refine(LlmModel, LlmTemperature, prompt)]
      && (refine(prompt).Ok? ==> h.reply == Reply(200, Summary(true, refine(prompt).value)))
      && (refine(prompt).Err? ==> h.reply == ServerError(refine(prompt).error))
  {
  }

  /** A 200 reply happens only when the store, the payload, the speech
      service and the model all succeeded, in that order. */
  lemma GetSucceedsOnlyIfEveryStepDid(
    userId: Option<string>,
    read: string -> Result<seq<Record>>,
    transcribe: string -> Result<Recognition>,
    refine: string -> Result<string>
  )
    requires Get(userId, read, transcribe, refine).reply.status == 200
    ensures ValidUserId(userId) && read(userId.value).Ok?
    ensures NewestRecord(read(userId.value).value).Some?
    ensures AudioPayload(NewestRecord(read(userId.value).value).value.audioData).Ok?
    ensures transcribe(AudioPayload(NewestRecord(read(userId.value).value).value.audioData).value).Ok?
  {
  }

  /** Each failing step ends the request with 500 and stops the calls there;
      the error text of the step is passed on. */
  lemma GetFailureModes(
    uid: string,
    read: string -> Result<seq<Record>>,
    transcribe: string -> Result<Recognition>,
    refine: string -> Result<string>
  )
    requires uid != ""
    ensures read(uid).Err? ==>
      Get(Some(uid), read, transcribe, refine) == Handled(ServerError(read(uid).error), [QueryNewest(uid)])
    ensures read(uid).Ok? && read(uid).value != [] &&
            ',' !in NewestRecord(read(uid).value).value.audioData ==>
      Get(Some(uid), read, transcribe, refine) == Handled(ServerError(MissingPayloadError), [QueryNewest(uid)])
    ensures read(uid).Ok? && read(uid).value != [] &&
            AudioPayload(NewestRecord(read(uid).value).value.audioData).Ok? &&
            transcribe(AudioPayload(NewestRecord(read(uid).value).value.audioData).value).Err? ==>
      Get(Some(uid), read, transcribe, refine).reply ==
        ServerError(transcribe(AudioPayload(NewestRecord(read(uid).value).value.audioData).value).error)
  {
  }

  /** A malformed recognition result does not stop the request: the model
      is still asked, with both placeholders in the prompt. */
  lemma GetDegradesOnBrokenRecognition(
    uid: string,
    read: string -> Result<seq<Record>>,
    transcribe: string -> Result<Recognition>,
    refine: string -> Result<string>,
    header: string,
    body: string
  )
    requires uid != "" && ',' !in header && ',' !in body
    requires read(uid).Ok? && read(uid).value != []
    requires NewestRecord(read(uid).value).value.audioData == header + "," + body
    requires transcribe(body).Ok? && !PathExists(transcribe(body).value)
    ensures Get(Some(uid), read, transcribe, refine).calls ==
      [QueryNewest(uid), Transcribe(body, AudioContentType),
       Refine(LlmModel, LlmTemperature, RefinePrompt(SummaryNotFound, TranscriptNotFound))]
  {
    AudioPayloadOfDataUrl(header, body);
  }
}

/** What the three FastAPI applications have in common: the shape of their
    responses, the external results a handler receives, and the handler
    bodies that are the same in main_1.py, main.py and main_2.py once the
    caller's identity is known. */
module Api {
  import opened Optional
  import opened Store
  import opened Jwks
  import opened AnalysisParser

  /** The result of a call into an external SDK (Gemini, ElevenLabs, the
      transcriber): a value, or the text of the exception it raised. */
  datatype Outcome<T> = Success(value: T) | Failure(message: string)

  /** `gemini_model.generate_content(prompt).text`, for every prompt. */
  type Model = string -> Outcome<string>

  /** One item of the chat listing: `{"sender": ..., "text": ..., "id": ...}`,
      a stored turn without its incident id. */
  datatype ChatEntry = ChatEntry(sender: string, text: string, id: int)

  function Entry(m: Message): ChatEntry {
    ChatEntry(m.sender, m.text, m.id)
  }

  /** The listing's comprehension: every stored turn, in order, as an item. */
  function Entries(ms: seq<Message>): (r: seq<ChatEntry>)
    ensures |r| == |ms|
    ensures forall i :: 0 <= i < |ms| ==> r[i] == Entry(ms[i])
    ensures forall e :: e in r <==> exists m :: m in ms && Entry(m) == e
  {
    var r := seq(|ms|, i requires 0 <= i < |ms| => Entry(ms[i]));
    assert forall m :: m in ms ==> Entry(m) in r by {
      forall m | m in ms ensures Entry(m) in r {
        var i :| 0 <= i < |ms| && ms[i] == m;
        assert r[i] == Entry(m);
      }
    }
    r
  }

  /** The JSON bodies the handlers return. */
  datatype Body =
    | Status(status: string, message: string)
    | Transcribed(transcribedText: string)
    | SpeechFile(file: string)
    | Incidents(rows: seq<Incident>)
    | IncidentAnalysis(incidentId: int, analysis: string)
    | Fields(fields: Analysis)
    | Answer(answer: string)
    | Reply(reply: string)
    | Messages(messages: seq<ChatEntry>)
      /** The body of an `HTTPException`: `{"detail": ...}`. */
    | Detail(detail: string)
      /** FastAPI's answer to an exception nobody handles. */
    | ServerFault

  datatype Response = Response(code: int, body: Body)

  /** `{"status": "error", "message": message}` with the given status code. */
  function Error(code: int, message: string): Response {
    Response(code, Status("error", message))
  }

  const NotFound := "Incident not found"

  /** The response when the `get_current_user` dependency fails: its
      `HTTPException`, or a 500 for an exception it did not handle. */
  function Rejection(auth: AuthResult): (r: Response)
    requires !auth.Authenticated?
    ensures r.code == 401 <==> auth.Unauthorized?
    ensures r.code == 401 ==> r.body == Detail(auth.detail)
    ensures r.code != 401 ==> r == Response(500, ServerFault)
  {
    if auth.Unauthorized? then Response(401, Detail(auth.detail)) else Response(500, ServerFault)
  }

  /** `create_text_incident` once the owner is known (main_1.py lines 129-140,
      main.py lines 111-119, main_2.py lines 131-139). */
  method StoreTextIncident(db: Database, owner: string, text: string) returns (resp: Response)
    requires db.Valid()
    modifies db
    ensures db.Valid()
    ensures db.incidents == old(db.incidents) + [Incident(|old(db.incidents)| + 1, owner, text, "text")]
    ensures db.conversations == old(db.conversations)
    ensures resp == Response(200, Status("success", "Incident reported"))
  {
    var _ := db.AddIncident(owner, text, "text");
    resp := Response(200, Status("success", "Incident reported"));
  }

  /** `create_audio_incident` once the owner is known (main_1.py lines 142-159,
      main.py lines 121-136, main_2.py lines 141-158): the upload is saved,
      transcribed and stored as an "audio" incident, and the saved file is
      removed whatever happens. `transcript` is what `transcribe_audio`
      returns; `committed` is whether the insert reaches the table. */
  method StoreAudioIncident(db: Database, uploads: Uploads, owner: string, fileName: string,
                            transcript: Outcome<string>, committed: bool)
    returns (resp: Response)
    requires db.Valid()
    modifies db, uploads
    ensures db.Valid()
    ensures uploads.files == old(uploads.files) - {JoinPath(UploadDir, fileName)}
    ensures db.conversations == old(db.conversations)
    ensures transcript.Success? && committed ==>
      && db.incidents == old(db.incidents) + [Incident(|old(db.incidents)| + 1, owner, transcript.value, "audio")]
      && resp == Response(200, Transcribed(transcript.value))
    ensures !(transcript.Success? && committed) ==>
      db.incidents == old(db.incidents) && resp == Response(500, ServerFault)
  {
    var path := JoinPath(UploadDir, fileName);
    uploads.Write(path);
    if transcript.Success? && committed {
      var _ := db.AddIncident(owner, transcript.value, "audio");
      resp := Response(200, Transcribed(transcript.value));
    } else {
      resp := Response(500, ServerFault);
    }
    uploads.Remove(path);
  }

  /** `f"{user_id}_incident.mp3"`: the user's id followed by the fixed suffix. */
  function SpeechFileName(userId: string): (r: string)
    ensures |r| == |userId| + 13
    ensures r[..|userId|] == userId && r[|userId|..] == "_incident.mp3"
  {
    userId + "_incident.mp3"
  }

  /** Different user ids give different speech path strings. (Two distinct
      strings may still name one file, as "uploads/a" and "uploads/./a" do.) */
  lemma SpeechPathsDistinct(a: string, b: string)
    requires a != b
    ensures JoinPath(UploadDir, SpeechFileName(a)) != JoinPath(UploadDir, SpeechFileName(b))
  {
    NameOfPath(SpeechFileName(a));
    NameOfPath(SpeechFileName(b));
  }

  /** `text_to_speech_incident` once the user id is known (main_1.py lines
      161-178, main.py lines 138-153, main_2.py lines 160-177): a failed
      synthesis is a 500 carrying the exception text and writes nothing; a
      successful one writes the speech file and returns its name. */
  method TextToSpeech(uploads: Uploads, userId: string, speech: Outcome<seq<bv8>>) returns (resp: Response)
    modifies uploads
    ensures speech.Failure? ==> resp == Error(500, speech.message) && uploads.files == old(uploads.files)
    ensures speech.Success? ==>
      && resp == Response(200, SpeechFile(SpeechFileName(userId)))
      && uploads.files == old(uploads.files) + {JoinPath(UploadDir, SpeechFileName(userId))}
  {
    if speech.Failure? {
      return Error(500, speech.message);
    }
    var fileName := userId + "_incident.mp3";
    uploads.Write(JoinPath(UploadDir, fileName));
    resp := Response(200, SpeechFile(fileName));
  }

  /** The prompt `analyze_incident` and `analyze_incident_text` send to the
      model, around the incident text. */
  const AnalyzeHead: string := "\n        You are an AI safety assistant. Analyze this incident report:\n\n        Incident: "
  const AnalyzeTail: string := "\n\n        Tasks:\n        1. Summarize the report in 2-3 sentences.\n        2. Classify severity (low, medium, high).\n        3. Suggest recommended next steps for safety or reporting.\n        "

  function AnalyzePrompt(text: string): (r: string)
    ensures |r| == |AnalyzeHead| + |text| + |AnalyzeTail|
    ensures r[..|AnalyzeHead|] == AnalyzeHead
    ensures r[|AnalyzeHead|..|AnalyzeHead| + |text|] == text
    ensures r[|AnalyzeHead| + |text|..] == AnalyzeTail
  {
    AnalyzeHead + text + AnalyzeTail
  }

  /** `analyze_incident` after its lookup: a missing record is a 404 before
      any model call; otherwise the model's reply for the record's text, or a
      500 carrying the exception text. */
  function AnalyzeRecord(record: Option<Incident>, model: Model): (r: Response)
    ensures r.code == 404 <==> record.None?
    ensures r.code == 200 <==> record.Some? && model(AnalyzePrompt(record.value.text)).Success?
    ensures r.code == 200 ==>
      r.body == IncidentAnalysis(record.value.id, model(AnalyzePrompt(record.value.text)).value)
    ensures r.code != 200 && r.code != 404 ==> r == Error(500, model(AnalyzePrompt(record.value.text)).message)
  {
    match record
    case None => Error(404, NotFound)
    case Some(r) =>
      match model(AnalyzePrompt(r.text))
      case Success(analysis) => Response(200, IncidentAnalysis(r.id, analysis))
      case Failure(message) => Error(500, message)
  }

  /** A record is analysed exactly when one was found, and the analysis
      names that record; a missing record gives the same 404 whatever the
      model would have said. */
  lemma AnalyzeRecordOutcome(record: Option<Incident>, model: Model, other: Model)
    ensures AnalyzeRecord(record, model).code == 404 <==> record.None?
    ensures AnalyzeRecord(record, model).body.IncidentAnalysis? ==>
      record.Some? && AnalyzeRecord(record, model).body.incidentId == record.value.id
    ensures record.None? ==> AnalyzeRecord(record, model) == AnalyzeRecord(record, other) == Error(404, NotFound)
  {
  }
}

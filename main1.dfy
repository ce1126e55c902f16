/** The routes of main_1.py, the most complete of the three applications:
    the authenticated incident routes (with the strict `get_current_user`),
    the unfiltered listing and lookup, the analysis-text parser route, the
    follow-up route and the chat route with its conversation rows. main_2.py
    has the same text-incident, listing and analyze routes. */
module Main1App {
  import opened Optional
  import opened PyStrings
  import opened Store
  import opened Jwks
  import opened AnalysisParser
  import opened PromptContext
  import opened Api

  /** `create_text_incident`: the incident is stored under the authenticated
      subject, or nothing is stored and the dependency's failure is returned. */
  method CreateTextIncident(db: Database, token: Token, text: string) returns (resp: Response)
    requires db.Valid()
    modifies db
    ensures db.Valid()
    ensures db.conversations == old(db.conversations)
    ensures StrictAuth(token).Authenticated? ==>
      && db.incidents == old(db.incidents) + [Incident(|old(db.incidents)| + 1, StrictAuth(token).subject, text, "text")]
      && resp == Response(200, Status("success", "Incident reported"))
    ensures !StrictAuth(token).Authenticated? ==>
      db.incidents == old(db.incidents) && resp == Rejection(StrictAuth(token))
  {
    var auth := StrictGetCurrentUser(token);
    if !auth.Authenticated? {
      return Rejection(auth);
    }
    resp := StoreTextIncident(db, auth.subject, text);
  }

  /** `create_audio_incident`: with an authenticated caller the upload is
      stored and always removed; without one nothing is written at all. */
  method CreateAudioIncident(db: Database, uploads: Uploads, token: Token, fileName: string,
                             transcript: Outcome<string>, committed: bool)
    returns (resp: Response)
    requires db.Valid()
    modifies db, uploads
    ensures db.Valid()
    ensures db.conversations == old(db.conversations)
    ensures !StrictAuth(token).Authenticated? ==>
      && db.incidents == old(db.incidents) && uploads.files == old(uploads.files)
      && resp == Rejection(StrictAuth(token))
    ensures StrictAuth(token).Authenticated? ==>
      uploads.files == old(uploads.files) - {JoinPath(UploadDir, fileName)}
    ensures StrictAuth(token).Authenticated? && transcript.Success? && committed ==>
      && db.incidents == old(db.incidents) + [Incident(|old(db.incidents)| + 1, StrictAuth(token).subject, transcript.value, "audio")]
      && resp == Response(200, Transcribed(transcript.value))
    ensures StrictAuth(token).Authenticated? && !(transcript.Success? && committed) ==>
      db.incidents == old(db.incidents) && resp == Response(500, ServerFault)
  {
    var auth := StrictGetCurrentUser(token);
    if !auth.Authenticated? {
      return Rejection(auth);
    }
    resp := StoreAudioIncident(db, uploads, auth.subject, fileName, transcript, committed);
  }

  /** `text_to_speech_incident`: the speech file is named after the
      authenticated subject. */
  method TextToSpeechIncident(uploads: Uploads, token: Token, speech: Outcome<seq<bv8>>) returns (resp: Response)
    modifies uploads
    ensures !StrictAuth(token).Authenticated? ==>
      uploads.files == old(uploads.files) && resp == Rejection(StrictAuth(token))
    ensures StrictAuth(token).Authenticated? && speech.Failure? ==>
      uploads.files == old(uploads.files) && resp == Error(500, speech.message)
    ensures StrictAuth(token).Authenticated? && speech.Success? ==>
      && uploads.files == old(uploads.files) + {JoinPath(UploadDir, SpeechFileName(StrictAuth(token).subject))}
      && resp == Response(200, SpeechFile(SpeechFileName(StrictAuth(token).subject)))
  {
    var auth := StrictGetCurrentUser(token);
    if !auth.Authenticated? {
      return Rejection(auth);
    }
    resp := TextToSpeech(uploads, auth.subject, speech);
  }

  /** `get_incidents`: every row, whoever owns it, with no authentication. */
  function GetIncidents(rows: seq<Incident>): (r: Response)
    ensures r.code == 200 && r.body.Incidents? && r.body.rows == rows
  {
    Response(200, Incidents(rows))
  }

  /** `analyze_incident`: the lookup is by id alone. */
  function AnalyzeIncident(rows: seq<Incident>, incidentId: int, model: Model): (r: Response)
    ensures r.code == 404 <==> forall x :: x in rows ==> x.id != incidentId
    ensures r.body.IncidentAnalysis? ==>
      && r.body.incidentId == incidentId
      && exists x :: x in rows && x.id == incidentId && model(AnalyzePrompt(x.text)) == Success(r.body.analysis)
  {
    AnalyzeRecord(FindById(rows, incidentId), model)
  }

  /** In a table numbered by SQLite, the analysis is a 404 exactly for an id
      with no row, whatever the model; otherwise it is about that very row. */
  lemma AnalyzeIncidentLookup(rows: seq<Incident>, incidentId: int, model: Model, other: Model)
    requires Numbered(rows)
    ensures AnalyzeIncident(rows, incidentId, model).code == 404 <==> !(1 <= incidentId <= |rows|)
    ensures !(1 <= incidentId <= |rows|) ==>
      AnalyzeIncident(rows, incidentId, model) == AnalyzeIncident(rows, incidentId, other)
    ensures AnalyzeIncident(rows, incidentId, model).body.IncidentAnalysis? ==>
      AnalyzeIncident(rows, incidentId, model).body.incidentId == incidentId
  {
    FindByIdNumbered(rows, incidentId);
    AnalyzeRecordOutcome(FindById(rows, incidentId), model, other);
  }

  /** `analyze_incident_text`: the model's reply to the analysis prompt, read
      by the positional parser; a failing call is a 500 with its message. */
  function AnalyzeIncidentText(text: string, model: Model): (r: Response)
    ensures r.code == 200 <==> model(AnalyzePrompt(text)).Success?
    ensures r.code == 200 ==> r.body == Fields(ParseAnalysis(model(AnalyzePrompt(text)).value))
    ensures r.code != 200 ==> r == Error(500, model(AnalyzePrompt(text)).message)
  {
    match model(AnalyzePrompt(text))
    case Success(reply) => Response(200, Fields(ParseAnalysis(reply)))
    case Failure(message) => Error(500, message)
  }

  /** A reply laid out the way the prompt asks, one labelled line per field,
      comes back as exactly those three fields. */
  lemma AnalyzeIncidentTextLabelled(text: string, model: Model, s: string, v: string, r: string)
    requires model(AnalyzePrompt(text)) == Success(LabelledReply(s, v, r))
    requires IsStripped(s) && IsStripped(v) && IsStripped(r)
    requires '\n' !in s && '\n' !in v && '\n' !in r
    requires !Contains(s, SummaryLabel) && !Contains(v, SeverityLabel) && !Contains(r, RecommendationLabel)
    ensures AnalyzeIncidentText(text, model) == Response(200, Fields(Analysis(s, v, r)))
  {
    ParseLabelledReply(s, v, r);
  }

  /** A reply with nothing but whitespace gives the defaults. */
  lemma AnalyzeIncidentTextBlank(text: string, model: Model)
    requires model(AnalyzePrompt(text)).Success? && AllSpace(model(AnalyzePrompt(text)).value)
    ensures AnalyzeIncidentText(text, model) == Response(200, Fields(Analysis("", DefaultSeverity, "")))
  {
    BlankReplyDefaults(model(AnalyzePrompt(text)).value);
  }

  /** How an f-string renders `payload.get("followUp")`: a given text is
      kept as it is, and a missing value becomes the text "None", so the
      model cannot tell a missing follow-up from one that says "None". */
  function PyText(value: Option<string>): (r: string)
    ensures value.Some? ==> r == value.value
    ensures r == "None" <==> value == None || value == Some("None")
  {
    if value.None? then "None" else value.value
  }

  /** The record `follow_up_incident` looks up; a missing "incidentId" matches no row. */
  function FindIncident(rows: seq<Incident>, incidentId: Option<int>): (r: Option<Incident>)
    ensures r.Some? ==> incidentId.Some? && r.value in rows && r.value.id == incidentId.value
    ensures r.None? && incidentId.Some? ==> forall x :: x in rows ==> x.id != incidentId.value
  {
    if incidentId.None? then None else FindById(rows, incidentId.value)
  }

  const FollowUpHead: string := "\n        You are an AI safety assistant. Continue the conversation based on previous incident analysis.\n\n        Context: "
  const FollowUpTail: string := "\n\n        Provide a clear and actionable answer to the follow-up.\n        "

  /** The follow-up prompt: the context sits unchanged between the fixed
      head and tail. */
  function FollowUpPrompt(context: string): (r: string)
    ensures |r| == |FollowUpHead| + |context| + |FollowUpTail|
    ensures r[..|FollowUpHead|] == FollowUpHead
    ensures r[|FollowUpHead|..|FollowUpHead| + |context|] == context
    ensures r[|FollowUpHead| + |context|..] == FollowUpTail
  {
    FollowUpHead + context + FollowUpTail
  }

  /** What `follow_up_incident` answers. Every outcome, the missing incident
      and the failing model included, is sent with status 200. */
  function FollowUpResponse(rows: seq<Incident>, incidentId: Option<int>, followUp: Option<string>,
                            conversation: seq<Exchange>, model: Model): (r: Response)
    ensures r.code == 200
    ensures r.body.Answer? ==>
      exists x :: x in rows && Some(x.id) == incidentId
        && model(FollowUpPrompt(FollowUpContext(x.text, conversation, PyText(followUp)))) == Success(r.body.answer)
    ensures !r.body.Answer? ==> r.body.Status? && r.body.status == "error"
    ensures r.body.Answer? <==>
      && FindIncident(rows, incidentId).Some?
      && model(FollowUpPrompt(FollowUpContext(FindIncident(rows, incidentId).value.text, conversation, PyText(followUp)))).Success?
    ensures FindIncident(rows, incidentId).None? ==> r == Response(200, Status("error", NotFound))
    ensures FindIncident(rows, incidentId).Some? ==>
      var reply := model(FollowUpPrompt(FollowUpContext(FindIncident(rows, incidentId).value.text, conversation, PyText(followUp))));
      && (reply.Success? ==> r == Response(200, Answer(reply.value)))
      && (reply.Failure? ==> r == Response(200, Status("error", reply.message)))
  {
    match FindIncident(rows, incidentId)
    case None => Response(200, Status("error", NotFound))
    case Some(record) =>
      match model(FollowUpPrompt(FollowUpContext(record.text, conversation, PyText(followUp))))
      case Success(answer) => Response(200, Answer(answer))
      case Failure(message) => Response(200, Status("error", message))
  }

  /** main_1.py lines 327-358. */
  method FollowUpIncident(rows: seq<Incident>, incidentId: Option<int>, followUp: Option<string>,
                          conversation: seq<Exchange>, model: Model)
    returns (resp: Response)
    ensures resp == FollowUpResponse(rows, incidentId, followUp, conversation, model)
  {
    var record := FindIncident(rows, incidentId);
    if record.None? {
      return Response(200, Status("error", NotFound));
    }
    var context := BuildFollowUpContext(record.value.text, conversation, PyText(followUp));
    var reply := model(FollowUpPrompt(context));
    if reply.Failure? {
      return Response(200, Status("error", reply.message));
    }
    resp := Response(200, Answer(reply.value));
  }

  /** The follow-up route never reports failure through its status code, and
      when the incident is missing it answers "Incident not found" whatever
      the model would have said. */
  lemma FollowUpOutcome(rows: seq<Incident>, incidentId: Option<int>, followUp: Option<string>,
                        conversation: seq<Exchange>, model: Model, other: Model)
    ensures FollowUpResponse(rows, incidentId, followUp, conversation, model).code == 200
    ensures FindIncident(rows, incidentId).None? ==>
      && FollowUpResponse(rows, incidentId, followUp, conversation, model) == Response(200, Status("error", NotFound))
      && FollowUpResponse(rows, incidentId, followUp, conversation, other) == Response(200, Status("error", NotFound))
    ensures FollowUpResponse(rows, incidentId, followUp, conversation, model).body.Answer? ==>
      FindIncident(rows, incidentId).Some?
  {
  }

  const ChatHead: string := "\n        You are an empathetic AI safety assistant for women. \n        Be clear, kind, and supportive. \n        Respond conversationally, not as a list.\n\n        Conversation so far:\n        "
  const ChatTail: string := "\n\n        Respond in a short, natural message.\n        "
  const MessageRequired: string := "Message is required"

  /** The chat prompt: the transcript sits unchanged between the fixed head
      and tail. */
  function ChatPrompt(context: string): (r: string)
    ensures |r| == |ChatHead| + |context| + |ChatTail|
    ensures r[..|ChatHead|] == ChatHead
    ensures r[|ChatHead|..|ChatHead| + |context|] == context
    ensures r[|ChatHead| + |context|..] == ChatTail
  {
    ChatHead + context + ChatTail
  }

  /** `if incident_id:` on the payload's "incidentId": missing and 0 are
      false, every other id is true. */
  predicate Truthy(incidentId: Option<int>)
    ensures Truthy(incidentId) ==> incidentId.Some?
    ensures incidentId == Some(0) ==> !Truthy(incidentId)
  {
    incidentId.Some? && incidentId.value != 0
  }

  /** The model's reply to the chat prompt with surrounding whitespace
      stripped, or the text of the exception. */
  function ChatAnswer(message: string, history: seq<ChatTurn>, model: Model): (r: Outcome<string>)
    ensures r.Success? ==> IsStripped(r.value)
  {
    match model(ChatPrompt(ChatTranscript(history, message)))
    case Success(text) => Success(Strip(text))
    case Failure(error) => Failure(error)
  }

  /** What `chat_with_gemini` answers. */
  function ChatResponse(message: string, history: seq<ChatTurn>, model: Model): (r: Response)
    ensures message == "" ==> r == Error(400, MessageRequired)
    ensures r.code == 200 <==> message != "" && ChatAnswer(message, history, model).Success?
    ensures r.code == 200 ==> r.body == Reply(ChatAnswer(message, history, model).value) && IsStripped(r.body.reply)
    ensures message != "" && r.code != 200 ==> r == Error(500, ChatAnswer(message, history, model).message)
  {
    if message == "" then Error(400, MessageRequired)
    else
      match ChatAnswer(message, history, model)
      case Success(aiText) => Response(200, Reply(aiText))
      case Failure(error) => Error(500, error)
  }

  /** The conversation rows a chat call adds to a table of `count` rows. */
  function ChatRows(count: nat, message: string, history: seq<ChatTurn>, incidentId: Option<int>,
                    model: Model): (r: seq<Message>)
    ensures |r| == 0 || |r| == 2
    ensures |r| == 2 <==> message != "" && Truthy(incidentId) && ChatAnswer(message, history, model).Success?
    ensures |r| == 2 ==>
      && r[0] == Message(count + 1, incidentId.value, "user", message)
      && r[1] == Message(count + 2, incidentId.value, "ai", ChatAnswer(message, history, model).value)
  {
    if message == "" || !Truthy(incidentId) then []
    else
      match ChatAnswer(message, history, model)
      case Failure(_) => []
      case Success(aiText) =>
        [Message(count + 1, incidentId.value, "user", message), Message(count + 2, incidentId.value, "ai", aiText)]
  }

  /** main_1.py lines 360-401. */
  method ChatWithGemini(db: Database, message: string, history: seq<ChatTurn>, incidentId: Option<int>,
                        model: Model)
    returns (resp: Response)
    requires db.Valid()
    modifies db
    ensures db.Valid()
    ensures resp == ChatResponse(message, history, model)
    ensures db.conversations == old(db.conversations) + ChatRows(|old(db.conversations)|, message, history, incidentId, model)
    ensures db.incidents == old(db.incidents)
  {
    if message == "" {
      return Error(400, MessageRequired);
    }
    ChatSteps(|db.conversations|, message, history, incidentId, model);
    var context := BuildChatTranscript(history, message);
    var reply := model(ChatPrompt(context));
    if reply.Failure? {
      return Error(500, reply.message);
    }
    var aiText := Strip(reply.value);
    StoreTurns(db, incidentId, message, aiText);
    resp := Response(200, Reply(aiText));
  }

  /** The persistence block of `chat_with_gemini` (main_1.py lines 391-396):
      with a truthy incident id, the user turn and then the AI turn. */
  method StoreTurns(db: Database, incidentId: Option<int>, message: string, aiText: string)
    requires db.Valid()
    modifies db
    ensures db.Valid()
    ensures db.conversations == old(db.conversations) +
      if Truthy(incidentId)
      then [Message(|old(db.conversations)| + 1, incidentId.value, "user", message),
            Message(|old(db.conversations)| + 2, incidentId.value, "ai", aiText)]
      else []
    ensures db.incidents == old(db.incidents)
  {
    if Truthy(incidentId) {
      var _ := db.AddMessage(incidentId.value, "user", message);
      var _ := db.AddMessage(incidentId.value, "ai", aiText);
    }
  }

  /** The chat response and rows, one step at a time after the model's reply. */
  lemma ChatSteps(count: nat, message: string, history: seq<ChatTurn>, incidentId: Option<int>, model: Model)
    requires message != ""
    ensures var reply := model(ChatPrompt(ChatTranscript(history, message)));
      && (reply.Failure? ==>
        ChatResponse(message, history, model) == Error(500, reply.message)
        && ChatRows(count, message, history, incidentId, model) == [])
      && (reply.Success? ==>
        ChatResponse(message, history, model) == Response(200, Reply(Strip(reply.value)))
        && ChatRows(count, message, history, incidentId, model)
           == if Truthy(incidentId)
              then [Message(count + 1, incidentId.value, "user", message),
                    Message(count + 2, incidentId.value, "ai", Strip(reply.value))]
              else [])
  {
  }

  /** An empty message is refused with 400 before the model is asked, and
      nothing is stored. */
  lemma EmptyMessageRefused(count: nat, history: seq<ChatTurn>, incidentId: Option<int>, model: Model, other: Model)
    ensures ChatResponse("", history, model) == ChatResponse("", history, other) == Error(400, MessageRequired)
    ensures ChatRows(count, "", history, incidentId, model) == []
  {
  }

  /** Turns older than the last six do not change the reply, and hence
      neither the response nor the stored rows. */
  lemma ChatSeesLastSixTurns(message: string, older: seq<ChatTurn>, history: seq<ChatTurn>, model: Model)
    requires |history| >= HistoryWindow
    ensures ChatResponse(message, older + history, model) == ChatResponse(message, history, model)
    ensures ChatAnswer(message, older + history, model) == ChatAnswer(message, history, model)
  {
    OlderTurnsIgnored(older, history, message);
  }

  /** `get_incident_chat`: the stored turns of one incident, each as its
      sender, text and id. */
  function GetIncidentChat(conversations: seq<Message>, incidentId: int): (r: Response)
    ensures r.code == 200 && r.body.Messages?
    ensures forall e :: e in r.body.messages <==>
      exists m :: m in conversations && m.incidentId == incidentId && Entry(m) == e
  {
    Response(200, Messages(Entries(MessagesOf(conversations, incidentId))))
  }

  /** After a chat call, the incident's chat listing holds what it held
      before plus the user turn and the AI turn just added; the listing of
      every other incident is unchanged. */
  lemma ChatReadBack(conversations: seq<Message>, message: string, history: seq<ChatTurn>,
                     incidentId: Option<int>, model: Model, id: int)
    ensures var added := ChatRows(|conversations|, message, history, incidentId, model);
      forall e :: e in GetIncidentChat(conversations + added, id).body.messages
        <==> e in GetIncidentChat(conversations, id).body.messages || (e in Entries(added) && incidentId == Some(id))
  {
  }
}

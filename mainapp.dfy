/** The routes of main.py: every route that reads or writes incidents
    depends on the collapsing `get_current_user`, and the listing and the
    analysis lookup are scoped to the caller. */
module MainApp {
  import opened Optional
  import opened Store
  import opened Jwks
  import opened Api

  /** What every failed authentication looks like in main.py. */
  const InvalidTokenResponse := Response(401, Detail(InvalidToken))

  /** `create_text_incident` (main.py lines 111-119). */
  method CreateTextIncident(db: Database, token: Token, text: string) returns (resp: Response)
    requires db.Valid()
    modifies db
    ensures db.Valid()
    ensures db.conversations == old(db.conversations)
    ensures CollapsingAuth(token).Authenticated? ==>
      && db.incidents == old(db.incidents) + [Incident(|old(db.incidents)| + 1, CollapsingAuth(token).subject, text, "text")]
      && resp == Response(200, Status("success", "Incident reported"))
    ensures !CollapsingAuth(token).Authenticated? ==>
      db.incidents == old(db.incidents) && resp == InvalidTokenResponse
  {
    var auth := CollapsingGetCurrentUser(token);
    if !auth.Authenticated? {
      return Rejection(auth);
    }
    resp := StoreTextIncident(db, auth.subject, text);
  }

  /** `create_audio_incident` (main.py lines 121-136). */
  method CreateAudioIncident(db: Database, uploads: Uploads, token: Token, fileName: string,
                             transcript: Outcome<string>, committed: bool)
    returns (resp: Response)
    requires db.Valid()
    modifies db, uploads
    ensures db.Valid()
    ensures db.conversations == old(db.conversations)
    ensures !CollapsingAuth(token).Authenticated? ==>
      && db.incidents == old(db.incidents) && uploads.files == old(uploads.files)
      && resp == InvalidTokenResponse
    ensures CollapsingAuth(token).Authenticated? ==>
      uploads.files == old(uploads.files) - {JoinPath(UploadDir, fileName)}
    ensures CollapsingAuth(token).Authenticated? && transcript.Success? && committed ==>
      && db.incidents == old(db.incidents) + [Incident(|old(db.incidents)| + 1, CollapsingAuth(token).subject, transcript.value, "audio")]
      && resp == Response(200, Transcribed(transcript.value))
    ensures CollapsingAuth(token).Authenticated? && !(transcript.Success? && committed) ==>
      db.incidents == old(db.incidents) && resp == Response(500, ServerFault)
  {
    var auth := CollapsingGetCurrentUser(token);
    if !auth.Authenticated? {
      return Rejection(auth);
    }
    resp := StoreAudioIncident(db, uploads, auth.subject, fileName, transcript, committed);
  }

  /** `text_to_speech_incident` (main.py lines 138-153). */
  method TextToSpeechIncident(uploads: Uploads, token: Token, speech: Outcome<seq<bv8>>) returns (resp: Response)
    modifies uploads
    ensures !CollapsingAuth(token).Authenticated? ==>
      uploads.files == old(uploads.files) && resp == InvalidTokenResponse
    ensures CollapsingAuth(token).Authenticated? && speech.Failure? ==>
      uploads.files == old(uploads.files) && resp == Error(500, speech.message)
    ensures CollapsingAuth(token).Authenticated? && speech.Success? ==>
      && uploads.files == old(uploads.files) + {JoinPath(UploadDir, SpeechFileName(CollapsingAuth(token).subject))}
      && resp == Response(200, SpeechFile(SpeechFileName(CollapsingAuth(token).subject)))
  {
    var auth := CollapsingGetCurrentUser(token);
    if !auth.Authenticated? {
      return Rejection(auth);
    }
    resp := TextToSpeech(uploads, auth.subject, speech);
  }

  /** `get_incidents`: the listing holds every row of the caller and no row
      of anybody else; without a valid token it is a 401 "Invalid token". */
  function GetIncidents(rows: seq<Incident>, token: Token): (r: Response)
    ensures CollapsingAuth(token).Authenticated? ==>
      && r.code == 200 && r.body.Incidents?
      && forall x :: x in r.body.rows <==> x in rows && x.userId == CollapsingAuth(token).subject
    ensures !CollapsingAuth(token).Authenticated? ==> r == InvalidTokenResponse
  {
    match CollapsingAuth(token)
    case Authenticated(owner) => Response(200, Incidents(OwnedBy(rows, owner)))
    case _ => InvalidTokenResponse
  }

  /** `analyze_incident`: the lookup needs both the id and the caller. */
  function AnalyzeIncident(rows: seq<Incident>, token: Token, incidentId: int, model: Model): (r: Response)
    ensures !CollapsingAuth(token).Authenticated? ==> r == InvalidTokenResponse
    ensures CollapsingAuth(token).Authenticated? ==>
      (r.code == 404 <==> forall x :: x in rows && x.id == incidentId ==> x.userId != CollapsingAuth(token).subject)
    ensures r.body.IncidentAnalysis? ==>
      && CollapsingAuth(token).Authenticated?
      && r.body.incidentId == incidentId
      && exists x :: x in rows && x.id == incidentId && x.userId == CollapsingAuth(token).subject
                     && model(AnalyzePrompt(x.text)) == Success(r.body.analysis)
  {
    match CollapsingAuth(token)
    case Authenticated(owner) => AnalyzeRecord(FindOwned(rows, incidentId, owner), model)
    case _ => InvalidTokenResponse
  }

  /** For an authenticated caller, asking about another user's incident gets
      exactly the answer that asking about an id with no row gets, whatever
      the model; and the answer is a 404 exactly when the caller owns no row
      with that id. */
  lemma ForeignIncidentIsNotFound(rows: seq<Incident>, token: Token, id: int, missing: int, model: Model, other: Model)
    requires Numbered(rows) && CollapsingAuth(token).Authenticated?
    requires 1 <= id <= |rows| && rows[id - 1].userId != CollapsingAuth(token).subject
    requires missing < 1 || missing > |rows|
    ensures AnalyzeIncident(rows, token, id, model) == AnalyzeIncident(rows, token, missing, other)
         == Error(404, NotFound)
  {
    ForeignLooksMissing(rows, id, CollapsingAuth(token).subject, missing);
  }

  lemma {:induction false} AnalyzeIncidentNotFoundIff(rows: seq<Incident>, token: Token, id: int, model: Model)
    requires Numbered(rows) && CollapsingAuth(token).Authenticated?
    ensures AnalyzeIncident(rows, token, id, model).code == 404
        <==> !(1 <= id <= |rows| && rows[id - 1].userId == CollapsingAuth(token).subject)
  {
    var owner := CollapsingAuth(token).subject;
    FindOwnedScopes(rows, id, owner);
    FindByIdNumbered(rows, id);
    AnalyzeRecordOutcome(FindOwned(rows, id, owner), model, model);
  }
}

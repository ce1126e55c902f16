# SheSafe backend core in Dafny

This project models the core of the SheSafe backend, a FastAPI service in which users report safety incidents as text or audio. A generative model analyses the reports and chats with the user about them, and a speech service reads text aloud. The repository holds three variants of the application. `main_1.py` is the most complete. `main.py` scopes incidents to the authenticated caller. `main_2.py` takes some owners from form fields. The model covers the logic these files carry out themselves:

- **Analysis-text parser** (`AnalysisParser`, on top of `PyStrings`). It models Python's `strip`, `split("\n")`, `replace(label, "")`, `capitalize` and `in`. The model reply is cut into non-blank stripped lines, and the summary, severity and recommendation are read from lines 1, 2 and 3 by position. Every occurrence of the line's own label is deleted. Severity defaults to "medium".
- **Prompt-context serialisers** (`PromptContext`). These are the chat transcript (the last six history turns, senders capitalised, then the new "User:" line) and the follow-up context (incident text, "User:"/"AI:" pairs, then the "User follow-up:" line). Each is a loop method proved against a specification function. Lemmas show that, for newline-free input, each context reads back line by line.
- **JWKS key selection and authentication** (`Jwks`). The key loop is a method proved against a fold. Lemmas give its declarative meaning: the last key whose "kid" matches wins, a KeyError arises on missing members, and nothing is chosen exactly when no "kid" matches. There are two dependency variants:
  - in `main_1.py` and `main_2.py`, only "no key" is a 401 and every other failure is a 500;
  - `main.py` turns every failure into a 401 "Invalid token".

  The variants decode with different libraries: `main_1.py` and `main_2.py` with python-jose, `main.py` with PyJWT. Each library's verdict is its own parameter (see "## Findings").
- **Incident and conversation store** (`Store`).
  - `Database` is a class holding both tables. Ids are assigned as SQLite assigns them.
  - The owner filter, the lookups by id and by id plus owner, and the per-incident conversation query are pure functions.
  - `Uploads` is the upload directory, held as a set of paths.
- **Handlers** (`Api` for the bodies shared once the owner is known, `Main1App` and `MainApp` for the routes, `Variants` for how they relate). Covered behaviour:
  - validation and not-found answers that do not depend on the model;
  - removal of the uploaded file on every path of the audio handler;
  - the speech file name `"{user_id}_incident.mp3"`;
  - the two conversation rows a chat call stores.

`main_2.py`'s text-incident, listing and analyze routes are the same code as `main_1.py`'s (`Main1App.CreateTextIncident`, `Main1App.GetIncidents`, `Main1App.AnalyzeIncident`). Its audio and speech routes take the owner from a form field, with no authentication dependency, so they are exactly `Api.StoreAudioIncident` and `Api.TextToSpeech` applied to that field.

External results are parameters:
- the Gemini reply for every prompt (`Model`, a function from the exact prompt text to a reply or an exception message);
- the transcript;
- whether an insert reaches the table;
- the ElevenLabs result;
- the fetched key set, the token header, and the verdicts of python-jose's and of PyJWT's `jwt.decode` (`Token`).

Behaviour worth knowing:
- The analysis parser is positional. A reply whose first line is "Severity: high" has that whole line as its summary, and its severity is read off the second line (`AnalysisParser.FieldsArePositional`).
- Severity is "medium" whenever fewer than two non-blank lines exist. It can also be "medium" with more lines, when line 2 says so (`AnalysisParser.SeverityDefault`, `AnalysisParser.SeverityMediumOnSecondLine`).
- `"ai".capitalize()` is `"Ai"`, so the chat transcript labels AI turns "Ai:", while the follow-up context writes "AI:".
- Every outcome of `follow_up_incident` is sent with status 200, including "Incident not found" and a failing model call.

## Model

| member | source | states |
|---|---|---|
| `PyStrings.Strip` | main_1.py:312 | `strip` returns text with no whitespace at either end, no longer than its argument, and empty exactly when the argument is all whitespace |
| `PyStrings.StripKeeps` | main_1.py:312 | `strip` only removes characters: every character of its result occurs in its argument |
| `PyStrings.Split` | main_1.py:312 | `split("\n")` yields at least one piece, and no piece holds the separator |
| `PyStrings.JoinSplit` | main_1.py:312 | joining the pieces of a split with the separator gives back the original text |
| `PyStrings.RemoveAll` | main_1.py:313-315 | `replace(label, "")` never lengthens the text, keeps only characters of its argument, and leaves text without the label unchanged; `RemoveAllAfter` shows that an occurrence after the start is deleted as well |
| `PyStrings.RemoveAllAfter` | main_1.py:313-315 | every occurrence is deleted, not only a leading one: when the text before an occurrence cannot begin the label, `replace` keeps that text and deletes the occurrence, so "high Severity: now" loses its label |
| `AnalysisParser.NonBlankLines` | main_1.py:312 | no line the parser reads holds a newline |
| `AnalysisParser.StrippedNonBlank` | main_1.py:312 | the comprehension that strips the lines and keeps the non-blank ones never yields more lines than it is given (what each kept line is, is `StrippedNonBlankClean`) |
| `AnalysisParser.StrippedNonBlankClean` | main_1.py:312 | every line kept by the comprehension is non-empty and has no whitespace at either end, and it holds no newline when its source lines held none |
| `AnalysisParser.NonBlankLinesOfJoin` | main_1.py:312 | non-empty, stripped, newline-free lines joined with newlines are read back as exactly those lines |
| `AnalysisParser.Field` | main_1.py:313-315 | a field whose line is missing is its default; a present field is stripped and made only of characters of its line |
| `AnalysisParser.ParseLines` | main_1.py:313-315 | summary, severity and recommendation come from lines 1, 2 and 3; a missing line gives "", "medium", "" respectively; every field is stripped |
| `AnalysisParser.ParseAnalysis` | main_1.py:312-315 | every parsed field is stripped and holds no line break |
| `AnalysisParser.BlankReplyDefaults` | main_1.py:312-315 | a reply of only whitespace parses to summary "", severity "medium", recommendation "" |
| `AnalysisParser.SeverityDefault` | main_1.py:314 | with fewer than two non-blank lines the severity is "medium"; otherwise it is the second non-blank line with every "Severity:" removed, stripped |
| `AnalysisParser.SeverityMediumOnSecondLine` | main_1.py:312-314 | a clean first line followed by the line "medium" gives two non-blank lines and severity "medium", so "medium" does not mean fewer than two lines |
| `AnalysisParser.ParseSkipsBlankLines` | main_1.py:312 | inserting a whitespace-only line anywhere in the reply does not change the parse |
| `AnalysisParser.ParseIgnoresLaterLines` | main_1.py:315 | once the reply has three non-blank lines, whatever follows them does not change the parse |
| `AnalysisParser.ParseLabelledReply` | main_1.py:312-315 | a reply "Summary: s", "Severity: v", "Recommendation: r" (clean one-line values without their own label) parses back to exactly (s, v, r) |
| `AnalysisParser.FieldsArePositional` | main_1.py:313-315 | a line that lacks its position's label is taken whole as that position's field: fields are read by position, not found by label |
| `PromptContext.BuildChatTranscript` | main_1.py:371-374 | the loop builds exactly the transcript function: one capitalised "sender: text" line per recent turn, then "User: message" |
| `PromptContext.RecentTurns` | main_1.py:372 | `history[-6:]` keeps min(6, n) turns, and they are the last ones |
| `PromptContext.TranscriptLines` | main_1.py:373-374 | for newline-free input, the transcript splits into the recent turns' lines in original order, then "User: message", then the empty piece after the final newline |
| `PromptContext.OlderTurnsIgnored` | main_1.py:372 | turns older than the last six never change the transcript |
| `PromptContext.BuildFollowUpContext` | main_1.py:340-343 | the loop builds exactly the follow-up context: incident text, "User:"/"AI:" lines per exchange, then "User follow-up: f" |
| `PromptContext.ExchangeLinesAt` | main_1.py:342 | exchange k becomes lines 2k ("User: u") and 2k+1 ("AI: a") |
| `PromptContext.FollowUpLines` | main_1.py:340-343 | for newline-free input, the follow-up context splits back into the incident text, the exchange lines in order and the follow-up line |
| `PromptContext.CapitalizeNoNewline` | main_1.py:373 | capitalising a sender never introduces a line break |
| `PyStrings.Capitalize` | main_1.py:373 | the first character is upper-cased and every other character lower-cased, the length is kept |
| `Jwks.Project` | main_1.py:98-104 | the chosen key holds exactly kty, kid, use, n and e, with the key's values |
| `Jwks.SelectKeyOf` | main_1.py:95-104 | an empty key set chooses nothing; a chosen key holds exactly the five key members and its "kid" equals the header's |
| `Jwks.SelectKey` | main_1.py:95-104 | the key loop computes the fold: a match replaces the earlier choice, a missing "kid" or key member is a KeyError that nothing later undoes |
| `Jwks.NoMatchIffNoKid` | main_2.py:109-119 | with every member present, no key is chosen exactly when no key's "kid" equals the header's |
| `Jwks.LastMatchWins` | main.py:93-101 | the last key whose "kid" matches is chosen, reduced to its five members |
| `Jwks.HeaderWithoutKid` | main_1.py:96-97 | a header without "kid" is a KeyError as soon as the key set is non-empty |
| `Jwks.SelectKeyMissing` | main_1.py:96-104 | once a KeyError is raised, no later key changes the outcome |
| `Jwks.StrictAuth` | main_1.py:89-115 | a subject is returned exactly when python-jose verifies claims with the chosen key whose "sub" is that subject; every 401 says "Invalid token" |
| `Jwks.StrictGetCurrentUser` | main_2.py:103-129 | the dependency of main_1.py and main_2.py computes the strict outcome: the subject of the claims verified with the chosen key, 401 "Invalid token" when no key matches, 500 otherwise |
| `Jwks.StrictUnauthorizedIff` | main_1.py:105-106 | in the strict variant a 401 happens exactly when no key matched, and its detail is "Invalid token" |
| `Jwks.GuardedAuth` | main.py:87-105 | inside main.py's `try`, a subject is returned exactly when PyJWT verifies it with the chosen key, and the block raises its 401 "Unable to find appropriate key" exactly when no key matches |
| `Jwks.CollapsingAuth` | main.py:85-107 | main.py returns a subject exactly when PyJWT verifies it with the chosen key; everything else is a 401 "Invalid token", never a 500 |
| `Jwks.CollapsingGetCurrentUser` | main.py:85-107 | main.py's dependency returns the subject on success and 401 "Invalid token" on every failure, its own "Unable to find appropriate key" included |
| `Jwks.CollapsingAgreesWithStrict` | main.py:85-107 | when PyJWT and python-jose give the same verdict on the chosen key, main.py accepts exactly the tokens the strict variant accepts, with the same subject, and rejects the rest with "Invalid token" |
| `Jwks.MainRefusesWhatStrictAccepts` | main.py:104 | with the `rsa_key` dict passed to PyJWT as written, a token the strict variant accepts as "alice" is refused by main.py with "Invalid token" |
| `Jwks.AuthenticatedByLastMatch` | main_1.py:108-115 | the subject comes from the claims verified with the last matching key, in each variant by its own library; when the libraries agree on that key, both variants accept the token or neither does |
| `Store.Database.AddIncident` | main_1.py:135-137 | one incident row is appended with the next id; nothing else changes |
| `Store.Database.AddMessage` | main_1.py:393-395 | one conversation row is appended with the next id; nothing else changes |
| `Store.OwnedBy` | main.py:158 | the owner filter keeps every row of the owner and no other row |
| `Store.FindById` | main_1.py:198 | a found row is in the table with the requested id; nothing found means no row has that id |
| `Store.FindOwned` | main.py:173 | a found row has both the id and the owner; nothing found means no row with the id belongs to the owner |
| `Store.FindByIdNumbered` | main_1.py:53 | with the autoincrement primary key, ids are 1..n in insertion order, so the `filter(Incident.id == incident_id)` query of main_1.py:198 finds row k for id k and nothing for an id outside 1..n |
| `Store.FindOwnedScopes` | main.py:173 | the owner-scoped lookup is the plain lookup, kept only when the caller owns the row |
| `Store.ForeignLooksMissing` | main.py:173-176 | another user's incident looks exactly like one that does not exist |
| `Store.MessagesOf` | main_1.py:406 | the conversation query returns exactly the rows of the given incident |
| `Store.JoinPath` | main_1.py:144 | `os.path.join` keeps a name starting with "/" and otherwise puts "uploads/" in front |
| `Store.NameOfPath` | main_1.py:173-174 | the joined name can be read back from the path string, so different names give different path strings |
| `Store.Uploads.Write` | main_1.py:145-146 | writing adds the path to the directory |
| `Store.Uploads.Remove` | main_1.py:157 | removing takes exactly that path out of the directory |
| `Api.Rejection` | main.py:106-107 | a failed dependency answers 401 with its detail, or 500 for an exception it did not handle |
| `Api.StoreTextIncident` | main_2.py:131-139 | a "text" incident is appended under the given owner, and the answer is "Incident reported" |
| `Api.StoreAudioIncident` | main_2.py:141-158 | the saved upload is removed on every path; a row of type "audio" with the transcript is added only when transcription and insert succeed (200), otherwise nothing is added (500) |
| `Api.SpeechFileName` | main_2.py:172 | the file name is the user id followed by "_incident.mp3" |
| `Api.SpeechPathsDistinct` | main_2.py:172-173 | different user ids give different speech path strings |
| `Api.TextToSpeech` | main_2.py:160-177 | a failed synthesis is a 500 with its message and writes nothing; a successful one writes the named file and returns its name |
| `Api.AnalyzePrompt` | main_2.py:205-214 | the incident text sits unchanged between the exact fixed head and tail of the analysis prompt |
| `Api.AnalyzeRecord` | main_2.py:201-226 | a missing record is a 404; with a record, a model reply is a 200 naming the record's id with the reply as analysis, and a model exception is a 500 with its message |
| `Api.AnalyzeRecordOutcome` | main_2.py:201-226 | the answer is a 404 exactly when no record was found, the same whatever the model; an analysis names the record it was found for |
| `Main1App.CreateTextIncident` | main_1.py:129-140 | an authenticated caller's incident is stored under their subject; otherwise nothing is stored and the dependency's failure is returned |
| `Main1App.CreateAudioIncident` | main_1.py:142-159 | without a caller nothing is written; with one the upload is always removed and the row is added under the caller's subject only on success |
| `Main1App.TextToSpeechIncident` | main_1.py:161-178 | the speech file is named after the authenticated subject |
| `Main1App.GetIncidents` | main_1.py:180-185 | the listing needs no token and is the whole incident table, every owner's rows included |
| `Main1App.AnalyzeIncident` | main_1.py:195-223 | the answer is a 404 exactly when no row has the id; an analysis names that id and is the model's reply for the text of a row with that id |
| `Main1App.AnalyzeIncidentLookup` | main_1.py:195-223 | the analysis is a 404 exactly for an id with no row, whatever the model, and otherwise names the requested id |
| `Main1App.AnalyzeIncidentText` | main_1.py:291-325 | a model reply gives a 200 whose fields are the parse of that reply; a model exception gives a 500 with its message |
| `Main1App.AnalyzeIncidentTextLabelled` | main_1.py:291-321 | a labelled three-line reply comes back as exactly those three fields |
| `Main1App.AnalyzeIncidentTextBlank` | main_1.py:310-321 | a whitespace-only reply yields "", "medium", "" |
| `Main1App.PyText` | main_1.py:343 | the f-string keeps a given follow-up as it is and renders a missing one as "None", so the two are indistinguishable exactly when the follow-up text is "None" |
| `Main1App.FindIncident` | main_1.py:329-334 | a missing "incidentId" finds nothing; a found record has the requested id |
| `Main1App.FollowUpPrompt` | main_1.py:346-352 | the follow-up context sits unchanged between the exact fixed head and tail of the prompt |
| `Main1App.FollowUpResponse` | main_1.py:327-358 | the status is always 200; a missing incident is "error"/"Incident not found"; a found incident gives the model's reply to the prompt built from its text as the answer exactly when the model succeeds, and otherwise "error" with the exception text |
| `Main1App.FollowUpIncident` | main_1.py:327-358 | the route computes the follow-up answer from the context function |
| `Main1App.FollowUpOutcome` | main_1.py:336-358 | every follow-up answer has status 200; a missing incident answers "Incident not found" whatever the model |
| `Main1App.Truthy` | main_1.py:392 | `if incident_id:` holds only for a present id, and never for 0 |
| `Main1App.ChatPrompt` | main_1.py:376-385 | the chat transcript sits unchanged between the exact fixed head and tail of the prompt |
| `Main1App.ChatAnswer` | main_1.py:387-388 | the reply is stripped of surrounding whitespace |
| `Main1App.ChatResponse` | main_1.py:360-401 | an empty message is a 400 "Message is required"; otherwise a 200 carries the stripped model reply, and a model exception is a 500 with its message |
| `Main1App.ChatRows` | main_1.py:391-396 | a chat call adds no rows or two: the user's message with id n+1, then the stripped reply as sender "ai" with id n+2, both under the incident id; two exactly when the message is non-empty, the id is truthy and the model answered |
| `Main1App.ChatWithGemini` | main_1.py:360-401 | the route answers the chat response and appends exactly the chat rows to the conversations table, leaving incidents alone |
| `Main1App.EmptyMessageRefused` | main_1.py:367-368 | an empty message is a 400 "Message is required" whatever the model, and stores nothing |
| `Main1App.StoreTurns` | main_1.py:391-396 | with a truthy incident id the user turn and then the AI turn are appended with the next two ids; otherwise nothing is stored; incidents are untouched |
| `Main1App.ChatSeesLastSixTurns` | main_1.py:372-374 | turns older than the last six do not change the reply |
| `Api.Entries` | main_1.py:408-411 | the listing has one item per stored turn, the i-th being that turn's sender, text and id, and an item is listed exactly when some given turn projects to it |
| `Main1App.GetIncidentChat` | main_1.py:403-411 | the chat listing holds exactly the requested incident's stored turns, each as its sender, text and id (the incident id is not part of an item) |
| `Main1App.ChatReadBack` | main_1.py:403-411 | after a chat call, an incident's chat listing is what it was plus the items of the two new turns when the call was about it, and unchanged otherwise |
| `MainApp.CreateTextIncident` | main.py:111-119 | the incident is stored under the authenticated subject; every failure of `get_current_user` answers 401 "Invalid token" and stores nothing |
| `MainApp.CreateAudioIncident` | main.py:121-136 | as main_1.py's audio route, with every failure of `get_current_user` a 401 "Invalid token" |
| `MainApp.TextToSpeechIncident` | main.py:138-153 | the speech file is named after the authenticated subject; every failure of `get_current_user` is a 401 "Invalid token" |
| `MainApp.GetIncidents` | main.py:155-160 | the listing holds every row of the caller and no row of anybody else; without a valid token it is a 401 "Invalid token" |
| `MainApp.AnalyzeIncident` | main.py:170-192 | without a valid token a 401 "Invalid token"; otherwise a 404 exactly when the caller owns no row with the id, and an analysis is the model's reply for the caller's own row with that id |
| `MainApp.ForeignIncidentIsNotFound` | main.py:170-176 | asking about another user's incident gets the same 404 as an id with no row |
| `MainApp.AnalyzeIncidentNotFoundIff` | main.py:173-176 | the analysis is a 404 exactly when the caller owns no row with that id |
| `Variants.ListingIsOwnerFilter` | main_2.py:179-184 | main.py lists the caller's share of what main_1.py and main_2.py list |
| `Variants.AnalyzeIsOwnerScoped` | main_2.py:195-202 | main.py analyses what main_1.py and main_2.py analyse when the caller owns the incident, and answers 404 otherwise |

## Left out

- Calls into the Gemini, ElevenLabs and transcription SDKs, the JWKS HTTP fetch, `jwt.get_unverified_header` and `jwt.decode` (signature, audience and issuer checks) are foreign code. Their results are parameters.
- The Auth0 Management API routes (main_1.py:227-289, main_2.py:230-264) and `/voices` are HTTP plumbing with no local logic. `/users` in main.py is outside the core.
- SQLAlchemy sessions, engine and durability. Only the logical table contents are modelled. Query results are returned in table order in the model, but SQLite without ORDER BY promises no order, so no property about the order of query results is claimed.
- Storage failures are modelled only on the audio path (`committed`). A failing commit in the other routes is not modelled, and neither is a failing file write: in main_2.py a form `user_id` such as "x/y" names a directory under `uploads/` that does not exist, so `open` at main_2.py:174 raises and the route answers 500, where `Api.TextToSpeech` answers 200; an upload whose file name has a directory part fails the same way at main_2.py:144.
- File bytes are not modelled; only the presence of a path in the upload directory is.
- `Main1App.AnalyzeIncident`, `Main1App.AnalyzeIncidentLookup`, `Main1App.FollowUpResponse`, `Main1App.ChatRows`, `Main1App.ChatWithGemini`, `Main1App.GetIncidentChat`, `MainApp.AnalyzeIncident`, `Store.FindByIdNumbered`: ids are unbounded integers in the model. sqlite3 binds only signed 64-bit integers, so for an id outside -2^63..2^63-1 (2^63, say) the query raises `OverflowError` and the route answers 500 (main_1.py:198, main.py:173, main_1.py:334, main_1.py:395 inside its `try`, main_1.py:406). The model treats such an id as a missing row: 404, "Incident not found" with 200, an empty listing, or two stored turns. The "exactly when no row has the id" statements hold for ids in the 64-bit range only.
- JSON payloads are typed in the model. A history turn without "sender"/"text", a conversation turn without "user"/"ai", a non-string message (a KeyError or TypeError answered with 500) is not modelled. Neither is an "incidentId" given as a string such as "3": SQLite's integer affinity matches it against row 3 and stores it as 3.
- `schemas.py` is not part of this model. The model assumes `IncidentCreate` carries the fields the handlers read, so main_2.py's log line after the insert does not fail.
- `PyStrings.Capitalize`: only ASCII letters change case. Python's full Unicode case mapping is not modelled.
- `PyStrings.IsSpace`: this is Python's `str.isspace` for the code points listed. It is exact for the Latin-1 range and the common Unicode spaces.
- `Api.SpeechPathsDistinct`: shows that different user ids give different path strings, not different files. Path normalisation is not modelled, and in main_2.py the user id is a free form field, so "a" and "./a" give "uploads/a_incident.mp3" and "uploads/./a_incident.mp3", which name one file.
- A request without a bearer credential is refused by FastAPI's `HTTPBearer` (main.py:83, main_1.py:87, main_2.py:101) with its own "Not authenticated" error, before `get_current_user` runs. The model starts at `get_current_user`.
- `print` logging, environment loading, CORS set-up and concurrency between requests are not modelled.

## Findings

| source | as written | input that shows it | evidently intended | confidence | as-written member | corrected member |
|---|---|---|---|---|---|---|
| main.py:20, main.py:104 | `import jwt` is PyJWT, and `jwt.decode` is handed the JWK dict `rsa_key`; PyJWT prepares an RS256 key only from PEM text or a key object and raises `TypeError` otherwise, which the `except` at main.py:106-107 turns into 401 | a token whose "kid" names the only key and that python-jose verifies as "alice": main_1.py accepts it, main.py answers 401 "Invalid token" | build a key object from the JWK (for example PyJWT's `PyJWK`) so that main.py accepts the tokens python-jose accepts; the routes in `MainApp` take PyJWT's verdict as a parameter, which covers that decode | medium; not executed; rests on PyJWT's key preparation, which is not part of this repository | `Jwks.MainRefusesWhatStrictAccepts` | `Jwks.CollapsingAgreesWithStrict` |

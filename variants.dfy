/** How main.py's scoping relates to the unscoped routes that main_1.py and
    main_2.py share. */
module Variants {
  import opened Store
  import opened Jwks
  import opened Api
  import Main1App
  import MainApp

  /** main.py lists the caller's share of what main_1.py and main_2.py list. */
  lemma ListingIsOwnerFilter(rows: seq<Incident>, token: Token)
    requires CollapsingAuth(token).Authenticated?
    ensures MainApp.GetIncidents(rows, token)
         == Response(200, Incidents(OwnedBy(Main1App.GetIncidents(rows).body.rows, CollapsingAuth(token).subject)))
  {
  }

  /** main.py analyses what main_1.py and main_2.py analyse when the caller
      owns the incident, and answers 404 otherwise. */
  lemma {:induction false} AnalyzeIsOwnerScoped(rows: seq<Incident>, token: Token, id: int, model: Model)
    requires Numbered(rows) && CollapsingAuth(token).Authenticated?
    ensures MainApp.AnalyzeIncident(rows, token, id, model)
         == if 1 <= id <= |rows| && rows[id - 1].userId == CollapsingAuth(token).subject
            then Main1App.AnalyzeIncident(rows, id, model)
            else Error(404, NotFound)
  {
    FindOwnedScopes(rows, id, CollapsingAuth(token).subject);
    FindByIdNumbered(rows, id);
  }
}

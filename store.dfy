/** The two SQLite tables the applications write through SQLAlchemy,
    `incidents` and `conversations`, as an in-memory database whose rows get
    the ids SQLite assigns (one more than the number of rows before, since
    nothing is ever deleted), the queries the handlers run over them, and the
    `uploads` directory as a set of file paths. */
module Store {
  import opened Optional

  /** A row of `incidents`; `kind` is the `type` column, "text" or "audio". */
  datatype Incident = Incident(id: int, userId: string, text: string, kind: string)

  /** A row of `conversations`; `sender` is "user" or "ai". */
  datatype Message = Message(id: int, incidentId: int, sender: string, text: string)

  class Database {
    var incidents: seq<Incident>
    var conversations: seq<Message>

    /** Row ids are 1, 2, 3, ... in insertion order. */
    ghost predicate Valid()
      reads this
    {
      && (forall i :: 0 <= i < |incidents| ==> incidents[i].id == i + 1)
      && (forall i :: 0 <= i < |conversations| ==> conversations[i].id == i + 1)
    }

    constructor ()
      ensures Valid()
      ensures incidents == [] && conversations == []
    {
      incidents := [];
      conversations := [];
    }

    /** `db.add(Incident(...))` followed by `db.commit()`. */
    method AddIncident(userId: string, text: string, kind: string) returns (id: int)
      requires Valid()
      modifies this
      ensures Valid()
      ensures id == |old(incidents)| + 1
      ensures incidents == old(incidents) + [Incident(id, userId, text, kind)]
      ensures conversations == old(conversations)
    {
      id := |incidents| + 1;
      incidents := incidents + [Incident(id, userId, text, kind)];
    }

    /** `db.add(Conversation(...))` followed by `db.commit()`. */
    method AddMessage(incidentId: int, sender: string, text: string) returns (id: int)
      requires Valid()
      modifies this
      ensures Valid()
      ensures id == |old(conversations)| + 1
      ensures conversations == old(conversations) + [Message(id, incidentId, sender, text)]
      ensures incidents == old(incidents)
    {
      id := |conversations| + 1;
      conversations := conversations + [Message(id, incidentId, sender, text)];
    }
  }

  /** Ids as SQLite assigns them: row i has id i + 1. */
  predicate Numbered(rows: seq<Incident>) {
    forall i :: 0 <= i < |rows| ==> rows[i].id == i + 1
  }

  /** `query(Incident).filter(Incident.user_id == owner).all()`: the owner's
      rows and nothing else. */
  function OwnedBy(rows: seq<Incident>, owner: string): (r: seq<Incident>)
    ensures |r| <= |rows|
    ensures forall x :: x in r <==> x in rows && x.userId == owner
    decreases |rows|
  {
    if rows == [] then []
    else
      var rest := OwnedBy(rows[..|rows| - 1], owner);
      var last := rows[|rows| - 1];
      assert forall x :: x in rows <==> x in rows[..|rows| - 1] || x == last;
      if last.userId == owner then rest + [last] else rest
  }

  /** `query(Incident).filter(Incident.id == id).first()`. */
  function FindById(rows: seq<Incident>, id: int): (r: Option<Incident>)
    ensures r.Some? ==> r.value in rows && r.value.id == id
    ensures r.None? ==> forall x :: x in rows ==> x.id != id
    decreases |rows|
  {
    if rows == [] then None
    else if rows[0].id == id then Some(rows[0])
    else FindById(rows[1..], id)
  }

  /** `query(Incident).filter(Incident.id == id, Incident.user_id == owner).first()`. */
  function FindOwned(rows: seq<Incident>, id: int, owner: string): (r: Option<Incident>)
    ensures r.Some? ==> r.value in rows && r.value.id == id && r.value.userId == owner
    ensures r.None? ==> forall x :: x in rows && x.id == id ==> x.userId != owner
    decreases |rows|
  {
    if rows == [] then None
    else if rows[0].id == id && rows[0].userId == owner then Some(rows[0])
    else FindOwned(rows[1..], id, owner)
  }

  /** In a table whose ids are row numbers, row `id` is the one looked up. */
  lemma {:induction false} FindByIdNumbered(rows: seq<Incident>, id: int)
    requires Numbered(rows)
    ensures FindById(rows, id) == if 1 <= id <= |rows| then Some(rows[id - 1]) else None
  {
    var r := FindById(rows, id);
    if r.Some? {
      var k :| 0 <= k < |rows| && rows[k] == r.value;
    }
  }

  /** With ids unique, the owner-scoped lookup is the plain lookup, kept only
      when the caller owns the row. */
  lemma {:induction false} FindOwnedScopes(rows: seq<Incident>, id: int, owner: string)
    requires Numbered(rows)
    ensures FindOwned(rows, id, owner)
         == if FindById(rows, id).Some? && FindById(rows, id).value.userId == owner then FindById(rows, id) else None
  {
    FindByIdNumbered(rows, id);
    var r := FindOwned(rows, id, owner);
    if r.Some? {
      var k :| 0 <= k < |rows| && rows[k] == r.value;
      assert k == id - 1;
    } else if 1 <= id <= |rows| {
      assert rows[id - 1] in rows;
    }
  }

  /** Another user's incident is indistinguishable from one that does not exist. */
  lemma ForeignLooksMissing(rows: seq<Incident>, id: int, owner: string, missing: int)
    requires Numbered(rows)
    requires 1 <= id <= |rows| && rows[id - 1].userId != owner
    requires missing < 1 || missing > |rows|
    ensures FindOwned(rows, id, owner) == FindOwned(rows, missing, owner) == None
  {
    FindOwnedScopes(rows, id, owner);
    FindOwnedScopes(rows, missing, owner);
    FindByIdNumbered(rows, id);
    FindByIdNumbered(rows, missing);
  }

  /** `query(Conversation).filter(Conversation.incident_id == incidentId).all()`. */
  function MessagesOf(rows: seq<Message>, incidentId: int): (r: seq<Message>)
    ensures |r| <= |rows|
    ensures forall m :: m in r <==> m in rows && m.incidentId == incidentId
    decreases |rows|
  {
    if rows == [] then []
    else
      var rest := MessagesOf(rows[..|rows| - 1], incidentId);
      var last := rows[|rows| - 1];
      assert forall m :: m in rows <==> m in rows[..|rows| - 1] || m == last;
      if last.incidentId == incidentId then rest + [last] else rest
  }

  /** `os.path.join(directory, name)`: a name starting with "/" is already a
      full path and replaces the directory. */
  function JoinPath(directory: string, name: string): (r: string)
    ensures name != [] && name[0] == '/' ==> r == name
    ensures (name == [] || name[0] != '/') ==>
      |r| == |directory| + 1 + |name| && r[..|directory|] == directory && r[|directory|] == '/' && r[|directory| + 1..] == name
  {
    if name != [] && name[0] == '/' then name else directory + "/" + name
  }

  const UploadDir := "uploads"

  /** The file name a path in the upload directory was joined from. */
  function NameOf(path: string): string {
    if path != [] && path[0] == '/' then path
    else if |path| > |UploadDir| then path[|UploadDir| + 1..]
    else path
  }

  /** Joining a name onto the upload directory loses nothing: the name can be
      read back from the path, so different names give different paths. */
  lemma NameOfPath(name: string)
    ensures NameOf(JoinPath(UploadDir, name)) == name
  {
    var path := JoinPath(UploadDir, name);
    if name == [] || name[0] != '/' {
      assert path[0] == UploadDir[0];
    }
  }

  /** The upload directory, as the set of paths of the files in it. */
  class Uploads {
    var files: set<string>

    constructor (files: set<string>)
      ensures this.files == files
    {
      this.files := files;
    }

    /** `open(path, "wb")` and a write: the file exists afterwards, replaced if it did before. */
    method Write(path: string)
      modifies this
      ensures files == old(files) + {path}
    {
      files := files + {path};
    }

    /** `os.remove(path)`, which raises unless the file exists. */
    method Remove(path: string)
      requires path in files
      modifies this
      ensures files == old(files) - {path}
    {
      files := files - {path};
    }
  }
}

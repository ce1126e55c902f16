/** The `get_current_user` dependency of the three FastAPI applications:
    choosing the verification key for a bearer token out of the Auth0 JSON
    Web Key Set, and the outcome of the whole check. Fetching the key set,
    reading the token header and verifying the signature, audience and issuer
    are external; their results are parameters. */
module Jwks {
  import opened Optional

  /** A JSON object with string values: one entry of `jwks["keys"]`, the
      token's unverified header, or the verified claims. */
  type Json = map<string, string>

  /** The members copied out of a matching key, in the order the code reads them. */
  const KeyFields: seq<string> := ["kty", "kid", "use", "n", "e"]

  predicate HasKeyFields(key: Json) {
    forall f :: f in KeyFields ==> f in key
  }

  /** The `rsa_key` dictionary built from a matching key: exactly the five
      key members, with the key's own values. */
  function Project(key: Json): (r: Json)
    requires HasKeyFields(key)
    ensures forall f :: f in r <==> f in KeyFields
    ensures forall f :: f in r ==> r[f] == key[f]
  {
    map f | f in KeyFields :: key[f]
  }

  /** How the loop over the key set ends: with a chosen key, with no key
      chosen (`rsa_key` still empty), or with a `KeyError` from a member the
      loop reads that is missing. */
  datatype KeyLookup = Selected(key: Json) | NoMatch | MissingMember

  /** The loop over `jwks["keys"]`, as a fold from the first key to the last:
      each key's "kid" is compared with the header's "kid", and a match
      replaces whatever was chosen before. */
  function SelectKeyOf(keys: seq<Json>, header: Json): (r: KeyLookup)
    ensures keys == [] ==> r == NoMatch
    ensures r.Selected? ==>
      && "kid" in header
      && (forall f :: f in r.key <==> f in KeyFields)
      && r.key["kid"] == header["kid"]
    decreases |keys|
  {
    if keys == [] then NoMatch
    else
      var before := SelectKeyOf(keys[..|keys| - 1], header);
      var key := keys[|keys| - 1];
      if before.MissingMember? then MissingMember
      else if "kid" !in key || "kid" !in header then MissingMember
      else if key["kid"] != header["kid"] then before
      else if HasKeyFields(key) then Selected(Project(key))
      else MissingMember
  }

  /** The key-selection loop (main_1.py lines 95-106). */
  method SelectKey(keys: seq<Json>, header: Json) returns (r: KeyLookup)
    ensures r == SelectKeyOf(keys, header)
  {
    var rsaKey: Json := map[];
    for i := 0 to |keys|
      invariant SelectKeyOf(keys[..i], header) == if rsaKey == map[] then NoMatch else Selected(rsaKey)
    {
      var key := keys[i];
      assert keys[..i + 1][..i] == keys[..i];
      if "kid" !in key || "kid" !in header {
        assert keys[..i + 1] == keys[..i] + [key];
        SelectKeyMissing(keys[..i + 1], keys[i + 1..], header);
        assert keys[..i + 1] + keys[i + 1..] == keys;
        return MissingMember;
      }
      if key["kid"] == header["kid"] {
        if !HasKeyFields(key) {
          SelectKeyMissing(keys[..i + 1], keys[i + 1..], header);
          assert keys[..i + 1] + keys[i + 1..] == keys;
          return MissingMember;
        }
        rsaKey := Project(key);
        assert "kid" in rsaKey;
      }
    }
    assert keys[..|keys|] == keys;
    if rsaKey == map[] {
      r := NoMatch;
    } else {
      r := Selected(rsaKey);
    }
  }

  /** Once a `KeyError` has been raised, later keys cannot undo it. */
  lemma {:induction false} SelectKeyMissing(keys: seq<Json>, more: seq<Json>, header: Json)
    requires SelectKeyOf(keys, header) == MissingMember
    ensures SelectKeyOf(keys + more, header) == MissingMember
    decreases |more|
  {
    if more == [] {
      assert keys + more == keys;
    } else {
      var n := |more| - 1;
      SelectKeyMissing(keys, more[..n], header);
      assert (keys + more)[..|keys + more| - 1] == keys + more[..n];
    }
  }

  /** Every key carries the five members and the header carries "kid". */
  predicate WellFormed(keys: seq<Json>, header: Json) {
    "kid" in header && forall i :: 0 <= i < |keys| ==> HasKeyFields(keys[i])
  }

  /** With well-formed input nothing is missing, and no key is chosen exactly
      when no key's "kid" equals the header's. */
  lemma {:induction false} NoMatchIffNoKid(keys: seq<Json>, header: Json)
    requires WellFormed(keys, header)
    ensures !SelectKeyOf(keys, header).MissingMember?
    ensures SelectKeyOf(keys, header) == NoMatch
        <==> forall i :: 0 <= i < |keys| ==> keys[i]["kid"] != header["kid"]
    decreases |keys|
  {
    if keys != [] {
      var n := |keys| - 1;
      assert WellFormed(keys[..n], header);
      NoMatchIffNoKid(keys[..n], header);
      assert "kid" in keys[n] by { assert HasKeyFields(keys[n]); }
      if keys[n]["kid"] == header["kid"] {
        assert "kid" in Project(keys[n]);
      }
      forall i | 0 <= i < n ensures keys[..n][i] == keys[i] { }
    }
  }

  /** The last key whose "kid" equals the header's is the one chosen, reduced
      to its five key members; earlier matches are overwritten. */
  lemma {:induction false} LastMatchWins(keys: seq<Json>, header: Json, i: int)
    requires WellFormed(keys, header)
    requires 0 <= i < |keys| && keys[i]["kid"] == header["kid"]
    requires forall j :: i < j < |keys| ==> keys[j]["kid"] != header["kid"]
    ensures SelectKeyOf(keys, header) == Selected(Project(keys[i]))
    decreases |keys|
  {
    var n := |keys| - 1;
    assert WellFormed(keys[..n], header);
    NoMatchIffNoKid(keys[..n], header);
    if i < n {
      LastMatchWins(keys[..n], header, i);
    }
  }

  /** A header without "kid" is a `KeyError` as soon as there is a key to compare. */
  lemma {:induction false} HeaderWithoutKid(keys: seq<Json>, header: Json)
    requires "kid" !in header && keys != []
    ensures SelectKeyOf(keys, header) == MissingMember
  {
    assert keys[..1] == [keys[0]];
    assert SelectKeyOf(keys[..1], header) == MissingMember by {
      assert keys[..1][..0] == [];
    }
    SelectKeyMissing(keys[..1], keys[1..], header);
    assert keys[..1] + keys[1..] == keys;
  }

  /** What the dependency gives a handler: the caller's subject, an HTTP 401
      with its detail, or an unhandled exception (HTTP 500). */
  datatype AuthResult = Authenticated(subject: string) | Unauthorized(detail: string) | ServerError

  const InvalidToken := "Invalid token"
  const NoAppropriateKey := "Unable to find appropriate key"

  /** What a library's `jwt.decode` makes of this token with a given key: the
      verified claims, or None when it raises. */
  type Verdict = Json -> Option<Json>

  /** The inputs the dependency gets from outside: the fetched `jwks["keys"]`
      (None when the fetch, the JSON parse or the "keys" lookup fails), the
      unverified token header (None when it cannot be read), and two verdicts,
      because the applications decode with two different libraries:
      main_1.py and main_2.py with python-jose (`from jose import jwt`), main.py
      with PyJWT (`import jwt`). */
  datatype Token = Token(keys: Option<seq<Json>>, header: Option<Json>, joseDecode: Verdict, pyjwtDecode: Verdict)

  /** The outcome once a key is chosen: the "sub" claim of the verified payload. */
  function Subject(claims: Option<Json>): AuthResult {
    if claims.Some? && "sub" in claims.value then Authenticated(claims.value["sub"]) else ServerError
  }

  /** The key set and the header were read, a key was chosen, and `decode`
      with that key verified claims whose "sub" is `subject`. */
  ghost predicate VerifiedSubject(t: Token, decode: Verdict, subject: string) {
    && t.keys.Some? && t.header.Some?
    && SelectKeyOf(t.keys.value, t.header.value).Selected?
    && var claims := decode(SelectKeyOf(t.keys.value, t.header.value).key);
       claims.Some? && "sub" in claims.value && claims.value["sub"] == subject
  }

  /** `get_current_user` of main_1.py and main_2.py, which handle nothing:
      only "no key chosen" is a 401, every other failure is a 500. A subject
      is returned exactly when python-jose verifies it with the chosen key. */
  function StrictAuth(t: Token): (r: AuthResult)
    ensures r.Authenticated? ==> VerifiedSubject(t, t.joseDecode, r.subject)
    ensures forall s :: VerifiedSubject(t, t.joseDecode, s) ==> r == Authenticated(s)
    ensures r.Unauthorized? ==> r.detail == InvalidToken
  {
    if t.keys.None? || t.header.None? then ServerError
    else match SelectKeyOf(t.keys.value, t.header.value)
      case MissingMember => ServerError
      case NoMatch => Unauthorized(InvalidToken)
      case Selected(key) => Subject(t.joseDecode(key))
  }

  /** main_1.py lines 89-115 and main_2.py lines 103-129. */
  method StrictGetCurrentUser(t: Token) returns (r: AuthResult)
    ensures r == StrictAuth(t)
  {
    if t.keys.None? || t.header.None? {
      return ServerError;
    }
    var found := SelectKey(t.keys.value, t.header.value);
    match found
    case MissingMember => r := ServerError;
    case NoMatch => r := Unauthorized(InvalidToken);
    case Selected(key) => r := Subject(t.joseDecode(key));
  }

  /** The body of main.py's `try` block, before the `except`: the same steps
      with PyJWT's verdict, and its own detail for "no key chosen". */
  function GuardedAuth(t: Token): (r: AuthResult)
    ensures r.Authenticated? ==> VerifiedSubject(t, t.pyjwtDecode, r.subject)
    ensures forall s :: VerifiedSubject(t, t.pyjwtDecode, s) ==> r == Authenticated(s)
    ensures r.Unauthorized? <==>
      t.keys.Some? && t.header.Some? && SelectKeyOf(t.keys.value, t.header.value) == NoMatch
    ensures r.Unauthorized? ==> r.detail == NoAppropriateKey
  {
    if t.keys.None? || t.header.None? then ServerError
    else match SelectKeyOf(t.keys.value, t.header.value)
      case MissingMember => ServerError
      case NoMatch => Unauthorized(NoAppropriateKey)
      case Selected(key) => Subject(t.pyjwtDecode(key))
  }

  /** main.py's `except Exception` turns every failure of the block, the
      `HTTPException` it raised itself included, into a 401 "Invalid token":
      a subject is returned exactly when PyJWT verifies it with the chosen
      key, and nothing else is ever a 500 or carries another detail. */
  function CollapsingAuth(t: Token): (r: AuthResult)
    ensures r.Authenticated? ==> VerifiedSubject(t, t.pyjwtDecode, r.subject)
    ensures forall s :: VerifiedSubject(t, t.pyjwtDecode, s) ==> r == Authenticated(s)
    ensures !r.Authenticated? ==> r == Unauthorized(InvalidToken)
  {
    var inner := GuardedAuth(t);
    if inner.Authenticated? then inner else Unauthorized(InvalidToken)
  }

  /** main.py lines 85-107. */
  method CollapsingGetCurrentUser(t: Token) returns (r: AuthResult)
    ensures r == CollapsingAuth(t)
  {
    if t.keys.None? || t.header.None? {
      return Unauthorized(InvalidToken);
    }
    var found := SelectKey(t.keys.value, t.header.value);
    match found
    case MissingMember => r := Unauthorized(InvalidToken);
    case NoMatch => r := Unauthorized(InvalidToken);
    case Selected(key) =>
      r := Subject(t.pyjwtDecode(key));
      if !r.Authenticated? {
        r := Unauthorized(InvalidToken);
      }
  }

  /** When the two libraries agree on the chosen key, main.py accepts exactly
      the tokens the strict variant accepts, with the same subject, and
      rejects the rest with "Invalid token" where the strict variant may
      answer 500. */
  lemma CollapsingAgreesWithStrict(t: Token)
    requires t.keys.Some? && t.header.Some? && SelectKeyOf(t.keys.value, t.header.value).Selected? ==>
      var key := SelectKeyOf(t.keys.value, t.header.value).key;
      t.pyjwtDecode(key) == t.joseDecode(key)
    ensures CollapsingAuth(t) == if StrictAuth(t).Authenticated? then StrictAuth(t) else Unauthorized(InvalidToken)
  {
  }

  /** PyJWT's `decode` prepares an RS256 key only from PEM text or a key
      object and raises `TypeError` for anything else. main.py hands it the
      `rsa_key` dict, so its verdict refuses every key. */
  const PyJwtWithKeyDict: Verdict := key => None

  /** A key set with one complete key "k1", as Auth0 publishes it. */
  const SampleKey: Json := map["kty" := "RSA", "kid" := "k1", "use" := "sig", "n" := "n0", "e" := "AQAB"]

  /** With the `rsa_key` dict as written, main.py refuses a token that
      main_1.py and main_2.py accept: one whose "kid" names the only key and
      that python-jose verifies as user "alice". */
  lemma MainRefusesWhatStrictAccepts()
    ensures var t := Token(Some([SampleKey]), Some(map["kid" := "k1"]),
                           key => Some(map["sub" := "alice"]), PyJwtWithKeyDict);
      StrictAuth(t) == Authenticated("alice") && CollapsingAuth(t) == Unauthorized(InvalidToken)
  {
    var t := Token(Some([SampleKey]), Some(map["kid" := "k1"]),
                   key => Some(map["sub" := "alice"]), PyJwtWithKeyDict);
    assert HasKeyFields(SampleKey);
    assert SelectKeyOf([SampleKey], map["kid" := "k1"]) == Selected(Project(SampleKey)) by {
      assert [SampleKey][..0] == [];
    }
  }

  /** In the strict variant a 401 happens exactly when key set and header were
      read and no key matched; its detail is always "Invalid token". */
  lemma StrictUnauthorizedIff(t: Token)
    ensures StrictAuth(t).Unauthorized?
        <==> t.keys.Some? && t.header.Some? && SelectKeyOf(t.keys.value, t.header.value) == NoMatch
    ensures StrictAuth(t).Unauthorized? ==> StrictAuth(t).detail == InvalidToken
  {
  }

  /** A subject is returned only from the claims verified with the last
      matching key, in either variant by its own library; when the two
      libraries agree on that key, both variants accept the token or neither
      does. */
  lemma {:induction false} AuthenticatedByLastMatch(t: Token, i: int)
    requires t.keys.Some? && t.header.Some? && WellFormed(t.keys.value, t.header.value)
    requires 0 <= i < |t.keys.value| && t.keys.value[i]["kid"] == t.header.value["kid"]
    requires forall j :: i < j < |t.keys.value| ==> t.keys.value[j]["kid"] != t.header.value["kid"]
    ensures StrictAuth(t) == Subject(t.joseDecode(Project(t.keys.value[i])))
    ensures CollapsingAuth(t) ==
      var main := Subject(t.pyjwtDecode(Project(t.keys.value[i])));
      if main.Authenticated? then main else Unauthorized(InvalidToken)
    ensures t.pyjwtDecode(Project(t.keys.value[i])) == t.joseDecode(Project(t.keys.value[i])) ==>
      (CollapsingAuth(t).Authenticated? <==> StrictAuth(t).Authenticated?)
  {
    LastMatchWins(t.keys.value, t.header.value, i);
  }
}

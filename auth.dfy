/** The `login` view of part3/auth.py as a decision over the request body,
    the e-mail lookup and the password-verify oracle. */
module Auth {
  import opened Common
  import opened AuthUsers

  /** The claims handed to `create_access_token`. */
  datatype Claims = Claims(identity: string, isAdmin: bool)

  /** A JSON response body: an error message or the issued token. */
  datatype Body = Error(message: string) | AccessToken(claims: Claims)

  datatype Response = Response(status: int, body: Body)

  /** The body is present and carries both `email` and `password` (an empty
      body is falsy in Python, and has neither key anyway). */
  predicate HasCredentials(data: Option<map<string, string>>) {
    data.Some? && "email" in data.value && "password" in data.value
  }

  /** The user the query finds for the body's e-mail; no query is made for a
      body without credentials. */
  function Candidate(data: Option<map<string, string>>, lookup: string -> Option<User>): Option<User> {
    if HasCredentials(data) then lookup(data.value["email"]) else None
  }

  function Footprint(u: Option<User>): set<object> {
    if u.Some? then {u.value} else {}
  }

  /** `login`: 400 without credentials, 401 "Invalid credentials" when the
      e-mail is unknown or the password fails, and otherwise 200 with a token
      whose identity is the user's id and whose `is_admin` claim is the
      user's flag. */
  function Login(data: Option<map<string, string>>, lookup: string -> Option<User>,
                 verify: (string, string) -> bool): (r: Response)
    reads Footprint(Candidate(data, lookup))
    ensures r.status == 400 || r.status == 401 || r.status == 200
    ensures r.status == 400 <==> !HasCredentials(data)
    ensures r.status == 400 ==> r.body == Error("Email and password required")
    ensures r.status == 401 ==> r.body == Error("Invalid credentials")
    ensures r.status == 200 <==>
      HasCredentials(data) && Candidate(data, lookup).Some?
      && Candidate(data, lookup).value.CheckPassword(data.value["password"], verify)
    ensures r.status == 200 ==>
      r.body == AccessToken(Claims(Candidate(data, lookup).value.id, Candidate(data, lookup).value.isAdmin))
  {
    if !HasCredentials(data) then
      Response(400, Error("Email and password required"))
    else
      var user := lookup(data.value["email"]);
      if user.None? || !user.value.CheckPassword(data.value["password"], verify) then
        Response(401, Error("Invalid credentials"))
      else
        Response(200, AccessToken(Claims(user.value.id, user.value.isAdmin)))
  }

  /** A body without credentials is refused the same way whatever the
      database and the hash verifier would say. */
  lemma BadRequestIgnoresLookup(data: Option<map<string, string>>,
                                lookup1: string -> Option<User>, lookup2: string -> Option<User>,
                                verify1: (string, string) -> bool, verify2: (string, string) -> bool)
    requires !HasCredentials(data)
    ensures Login(data, lookup1, verify1) == Login(data, lookup2, verify2)
  {
  }

  /** An unknown e-mail and a wrong password give identical responses. */
  lemma UnknownEmailLooksLikeWrongPassword(data: Option<map<string, string>>,
                                           unknown: string -> Option<User>, known: string -> Option<User>,
                                           verify: (string, string) -> bool)
    requires HasCredentials(data)
    requires unknown(data.value["email"]).None?
    requires known(data.value["email"]).Some?
    requires !known(data.value["email"]).value.CheckPassword(data.value["password"], verify)
    ensures Login(data, unknown, verify) == Login(data, known, verify)
  {
  }

  /** A user whose hash was set from the password being presented logs in,
      provided the verifier accepts every hash of its own password; the token
      then names that user and snapshots its admin flag. */
  lemma LoginSucceedsAfterSetPassword(data: Option<map<string, string>>, lookup: string -> Option<User>,
                                      hash: string -> string, verify: (string, string) -> bool)
    requires HasCredentials(data)
    requires lookup(data.value["email"]).Some?
    requires lookup(data.value["email"]).value.passwordHash == Some(hash(data.value["password"]))
    requires forall p :: verify(hash(p), p)
    ensures Login(data, lookup, verify).status == 200
    ensures Login(data, lookup, verify).body
         == AccessToken(Claims(lookup(data.value["email"]).value.id, lookup(data.value["email"]).value.isAdmin))
  {
    CheckAcceptsSetPassword(lookup(data.value["email"]).value, data.value["password"], hash, verify);
  }
}

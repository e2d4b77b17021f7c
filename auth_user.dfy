/** The persisted `User` of part3/user.py: credentials held only as a hash,
    and a serialisation that never shows it. Hashing and verification are
    the oracles `hash` and `verify`; the database columns are plain fields. */
module AuthUsers {
  import opened Common

  const AuthUserKeys: set<string> := {"id", "email", "first_name", "last_name", "is_admin"}

  class User {
    var id: string
    var email: string
    var firstName: string
    var lastName: string
    var isAdmin: bool
    /** None until `set_password` has run. */
    var passwordHash: Option<string>

    /** A new row: the column defaults give a uuid4 id when none is supplied
        and `is_admin` false. */
    constructor (freshId: string, email: string, firstName: string, lastName: string,
                 id: Option<string> := None, isAdmin: bool := false)
      requires freshId != ""
      ensures this.id == (if id.Some? then id.value else freshId)
      ensures this.email == email && this.firstName == firstName && this.lastName == lastName
      ensures this.isAdmin == isAdmin
      ensures passwordHash == None
    {
      this.id := if id.Some? then id.value else freshId;
      this.email := email;
      this.firstName := firstName;
      this.lastName := lastName;
      this.isAdmin := isAdmin;
      passwordHash := None;
    }

    /** `set_password`: only the hash changes, to `hash(password)`. */
    method SetPassword(password: string, hash: string -> string)
      modifies this`passwordHash
      ensures passwordHash == Some(hash(password))
    {
      passwordHash := Some(hash(password));
    }

    /** `check_password`: the verify oracle applied to the stored hash. */
    function CheckPassword(password: string, verify: (string, string) -> bool): (ok: bool)
      reads this
      ensures ok ==> passwordHash.Some? && verify(passwordHash.value, password)
      ensures passwordHash.Some? && verify(passwordHash.value, password) ==> ok
    {
      passwordHash.Some? && verify(passwordHash.value, password)
    }

    /** `to_dict`: exactly the five public columns; never a password key. */
    function ToDict(): (d: map<string, Value>)
      reads this
      ensures d.Keys == AuthUserKeys
      ensures d.Keys !! PasswordKeys
      ensures d["id"] == Str(id) && d["email"] == Str(email)
      ensures d["first_name"] == Str(firstName) && d["last_name"] == Str(lastName)
      ensures d["is_admin"] == Bool(isAdmin)
    {
      map["id" := Str(id), "email" := Str(email), "first_name" := Str(firstName),
          "last_name" := Str(lastName), "is_admin" := Bool(isAdmin)]
    }
  }

  /** The outcome of `check_password` depends on the stored hash alone. */
  lemma CheckPasswordDependsOnlyOnHash(u: User, v: User, password: string, verify: (string, string) -> bool)
    requires u.passwordHash == v.passwordHash
    ensures u.CheckPassword(password, verify) == v.CheckPassword(password, verify)
  {
  }

  /** If the oracles agree that every hash verifies its own password, a
      password just set is accepted. */
  lemma CheckAcceptsSetPassword(u: User, password: string, hash: string -> string,
                                verify: (string, string) -> bool)
    requires u.passwordHash == Some(hash(password))
    requires forall p :: verify(hash(p), p)
    ensures u.CheckPassword(password, verify)
  {
  }
}

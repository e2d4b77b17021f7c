/** `UserService` of part2/user_service.py: validation and defaults in front
    of a `UserRepository`. */
module UserServices {
  import opened Common
  import opened BaseModel
  import opened Users
  import opened UserRepositories

  /** The fields `create_user` demands, in the order it checks them. */
  const Required: seq<string> := ["email", "password"]

  /** The `for field in required` loop of `create_user`: the first required
      field absent from `data`, or None when all are present. */
  method FirstMissing(required: seq<string>, data: map<string, string>) returns (missing: Option<string>)
    ensures missing.None? <==> forall i :: 0 <= i < |required| ==> required[i] in data
    ensures missing.Some? ==>
      exists i :: 0 <= i < |required| && required[i] == missing.value && required[i] !in data
        && forall j :: 0 <= j < i ==> required[j] in data
  {
    for i := 0 to |required|
      invariant forall j :: 0 <= j < i ==> required[j] in data
    {
      if required[i] !in data {
        return Some(required[i]);
      }
    }
    return None;
  }

  class UserService {
    const repo: UserRepository

    ghost predicate Valid()
      reads this, repo
    {
      repo.Valid()
    }

    /** `UserService.__init__`: a service over a new, empty repository. */
    constructor ()
      ensures Valid() && fresh(repo)
      ensures repo.users == map[]
    {
      repo := new UserRepository();
    }

    /** `create_user`: "email is required" is reported before "password is
        required", and a failure leaves the repository as it was. On success a
        new user with a fresh id, the given credentials and the names (default
        "") is stored; e-mail uniqueness is not checked. */
    method CreateUser(data: map<string, string>, freshId: string, now: Time) returns (r: Result<User>)
      requires Valid() && freshId != ""
      modifies repo
      ensures Valid()
      ensures r.Success? <==> "email" in data && "password" in data
      ensures "email" !in data ==> r == Failure("email is required")
      ensures "email" in data && "password" !in data ==> r == Failure("password is required")
      ensures r.Failure? ==> repo.users == old(repo.users) && repo.order == old(repo.order)
      ensures r.Success? ==>
        && fresh(r.value)
        && r.value.base == Init(None, None, None, freshId, now)
        && r.value.email == data["email"] && r.value.password == data["password"]
        && r.value.firstName == DictGet(data, "first_name", "")
        && r.value.lastName == DictGet(data, "last_name", "")
        && r.value.reviews == []
        && repo.users == old(repo.users)[freshId := r.value]
      ensures r.Success? && freshId !in old(repo.users) ==> |repo.users| == |old(repo.users)| + 1
      ensures r.Success? && freshId !in old(repo.users) ==> repo.order == old(repo.order) + [freshId]
      ensures r.Success? && freshId in old(repo.users) ==> repo.order == old(repo.order)
    {
      var missing := FirstMissing(Required, data);
      assert Required[0] == "email" && Required[1] == "password";
      if missing.Some? {
        assert missing.value == "email" || missing.value == "password";
        assert "email" + " is required" == "email is required";
        assert "password" + " is required" == "password is required";
        return Failure(missing.value + " is required");
      }
      var user := new User(freshId, now, data["email"], data["password"],
                           DictGet(data, "first_name", ""), DictGet(data, "last_name", ""));
      var stored := repo.Create(user);
      r := Success(stored);
    }

    /** `get_user`: the repository's lookup. */
    function GetUser(id: string): (r: Option<User>)
      reads repo
      ensures r == repo.GetById(id)
      ensures r.None? <==> id !in repo.users
    {
      repo.GetById(id)
    }

    /** `list_users`: the repository's listing. */
    function ListUsers(): (r: seq<User>)
      reads this, repo
      requires Valid()
      ensures r == repo.ListAll()
      ensures |r| == |repo.users|
    {
      repo.ListAll()
    }

    /** `update_user`: None for an unknown id, with nothing changed; otherwise
        the stored user after the repository's partial update. */
    method UpdateUser(id: string, data: map<string, string>, now: Time) returns (r: Option<User>)
      modifies if id in repo.users then {repo.users[id]} else {}
      ensures id !in repo.users ==> r == None
      ensures id in repo.users ==>
        && r == Some(repo.users[id])
        && repo.users[id].State() == Patch(old(repo.users[id].State()), data, now)
    {
      var found := repo.GetById(id);
      if found.None? {
        return None;
      }
      var updated := repo.Update(found.value, data, now);
      r := Some(updated);
    }
  }

  /** Two users with the same e-mail are both accepted and both stored. */
  method DuplicateEmailsAccepted(email: string, password: string, id1: string, id2: string, now: Time)
    returns (service: UserService, a: User, b: User)
    requires id1 != "" && id2 != "" && id1 != id2
    ensures a != b && a.email == email && b.email == email
    ensures service.repo.users == map[id1 := a, id2 := b]
  {
    service := new UserService();
    var data := map["email" := email, "password" := password];
    var r1 := service.CreateUser(data, id1, now);
    var r2 := service.CreateUser(data, id2, now);
    a, b := r1.value, r2.value;
  }
}

/** `UserRepository` of part2/user_repository.py: an in-memory table of users
    keyed by id, changed in place. */
module UserRepositories {
  import opened Common
  import opened BaseModel
  import opened Users

  /** The four fields a patch may set; any other key is ignored. */
  const Whitelist: set<string> := {"email", "first_name", "last_name", "password"}

  /** The user field that a whitelisted patch key names. */
  function Field(s: UserState, key: string): string
    requires key in Whitelist
  {
    match key
    case "email" => s.email
    case "first_name" => s.firstName
    case "last_name" => s.lastName
    case _ => s.password
  }

  /** What `update` does to a user: each whitelisted key present in the patch
      sets its field, then `save` refreshes `updated_at`. */
  function Patch(s: UserState, data: map<string, string>, now: Time): (r: UserState)
    ensures forall key :: key in Whitelist ==> Field(r, key) == DictGet(data, key, Field(s, key))
    ensures r.base.id == s.base.id && r.base.createdAt == s.base.createdAt
    ensures r.base.updatedAt == now
    ensures r.reviews == s.reviews
  {
    UserState(Touch(s.base, now),
              DictGet(data, "email", s.email),
              DictGet(data, "password", s.password),
              DictGet(data, "first_name", s.firstName),
              DictGet(data, "last_name", s.lastName),
              s.reviews)
  }

  /** The part of a patch that `update` can see. */
  function Restrict(data: map<string, string>): (r: map<string, string>)
    ensures r.Keys == data.Keys * Whitelist
    ensures forall k :: k in r ==> r[k] == data[k]
  {
    map k | k in data && k in Whitelist :: data[k]
  }

  /** Keys outside the whitelist (`id`, `created_at`, ...) have no effect. */
  lemma PatchIgnoresOtherKeys(s: UserState, data: map<string, string>, now: Time)
    ensures Patch(s, data, now) == Patch(s, Restrict(data), now)
  {
  }

  /** An empty patch still refreshes `updated_at` and changes nothing else. */
  lemma EmptyPatchOnlyTouches(s: UserState, now: Time)
    ensures Patch(s, map[], now) == s.(base := Touch(s.base, now))
  {
  }

  /** A field changes only if its key is in the patch. */
  lemma PatchChangesOnlyPatchedFields(s: UserState, data: map<string, string>, now: Time, key: string)
    requires key in Whitelist && key !in data
    ensures Field(Patch(s, data, now), key) == Field(s, key)
  {
  }

  /** Applying the same patch twice at the same time is applying it once. */
  lemma PatchIdempotent(s: UserState, data: map<string, string>, now: Time)
    ensures Patch(Patch(s, data, now), data, now) == Patch(s, data, now)
  {
  }

  class UserRepository {
    /** `self.users`. */
    var users: map<string, User>
    /** The keys of `self.users` in insertion order, as a Python dict keeps them. */
    var order: seq<string>

    ghost predicate Valid()
      reads this
    {
      Distinct(order) && (forall k :: k in order <==> k in users)
    }

    /** `UserRepository.__init__`: an empty store. */
    constructor ()
      ensures Valid()
      ensures users == map[] && order == []
    {
      users := map[];
      order := [];
    }

    /** `get_by_id`: `self.users.get(user_id)`. */
    function GetById(id: string): (r: Option<User>)
      reads this
      ensures r.None? <==> id !in users
      ensures r.Some? ==> r.value == users[id]
    {
      if id in users then Some(users[id]) else None
    }

    /** `create`: stores the user under its id, silently replacing a previous
        entry with that id (which keeps its place in the listing). */
    method Create(user: User) returns (r: User)
      requires Valid()
      modifies this
      ensures Valid()
      ensures r == user
      ensures users == old(users)[user.base.id := user]
      ensures order == if user.base.id in old(users) then old(order) else old(order) + [user.base.id]
      ensures GetById(user.base.id) == Some(user)
    {
      var id := user.base.id;
      if id !in users {
        order := order + [id];
      }
      users := users[id := user];
      r := user;
    }

    /** `list_all`: `list(self.users.values())`, one entry per stored id, in
        insertion order. */
    function ListAll(): (r: seq<User>)
      reads this
      requires Valid()
      ensures |r| == |users| == |order|
      ensures forall i :: 0 <= i < |r| ==> r[i] == users[order[i]]
      ensures forall k :: k in users ==> users[k] in r
    {
      DistinctCard(order);
      assert (set k | k in order) == users.Keys;
      var m, ks := users, order;
      var listing := seq(|ks|, i requires 0 <= i < |ks| => m[ks[i]]);
      assert forall k :: k in m ==> exists i :: 0 <= i < |ks| && ks[i] == k;
      listing
    }

    /** `update`: a partial update of the whitelisted fields followed by
        `save`; the table itself is not touched. */
    method Update(user: User, data: map<string, string>, now: Time) returns (r: User)
      modifies user
      ensures r == user
      ensures user.State() == Patch(old(user.State()), data, now)
      ensures users == old(users) && order == old(order)
    {
      if "email" in data {
        user.email := data["email"];
      }
      if "first_name" in data {
        user.firstName := data["first_name"];
      }
      if "last_name" in data {
        user.lastName := data["last_name"];
      }
      if "password" in data {
        user.password := data["password"];
      }
      user.Save(now);
      r := user;
    }
  }
}

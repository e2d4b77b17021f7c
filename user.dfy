/** `User` of part2/user.py: a mutable entity whose `to_dict` never carries
    the password. */
module Users {
  import opened Common
  import opened BaseModel
  import opened Reviews

  /** The whole state of one user object, for stating what a method changes. */
  datatype UserState = UserState(base: Base, email: string, password: string,
                                 firstName: string, lastName: string, reviews: seq<Review>)

  const UserKeys: set<string> := BaseKeys + {"email", "first_name", "last_name", "reviews"}

  class User {
    var base: Base
    var email: string
    var password: string
    var firstName: string
    var lastName: string
    var reviews: seq<Review>

    /** `User.__init__`: credentials and names stored as given, names default
        to "", and the review list starts empty. */
    constructor (freshId: string, now: Time, email: string, password: string,
                 firstName: string := "", lastName: string := "", id: Option<string> := None,
                 createdAt: Option<Time> := None, updatedAt: Option<Time> := None)
      requires freshId != ""
      ensures base == Init(id, createdAt, updatedAt, freshId, now)
      ensures this.email == email && this.password == password
      ensures this.firstName == firstName && this.lastName == lastName
      ensures reviews == []
    {
      base := Init(id, createdAt, updatedAt, freshId, now);
      this.email := email;
      this.password := password;
      this.firstName := firstName;
      this.lastName := lastName;
      reviews := [];
    }

    ghost function State(): UserState
      reads this
    {
      UserState(base, email, password, firstName, lastName, reviews)
    }

    /** `save` (inherited from `BaseModel`): only `updated_at` moves. */
    method Save(now: Time)
      modifies this`base
      ensures base == Touch(old(base), now)
    {
      base := Touch(base, now);
    }

    /** `User.add_review`: appends, duplicates allowed. */
    method AddReview(review: Review)
      modifies this`reviews
      ensures reviews == old(reviews) + [review]
    {
      reviews := reviews + [review];
    }

    /** `User.to_dict`: the base entries, the profile fields and the review
        ids in order; the password is never among the keys. */
    function ToDict(iso: Time -> string): (d: map<string, Value>)
      reads this
      ensures d.Keys == UserKeys
      ensures d.Keys !! PasswordKeys
      ensures forall k :: k in BaseKeys ==> d[k] == BaseDict(base, iso)[k]
      ensures d["email"] == Str(email)
      ensures d["first_name"] == Str(firstName) && d["last_name"] == Str(lastName)
      ensures d["reviews"] == Strs(ReviewIds(reviews))
    {
      BaseDict(base, iso) + map["email" := Str(email), "first_name" := Str(firstName),
                                "last_name" := Str(lastName), "reviews" := Strs(ReviewIds(reviews))]
    }
  }
}

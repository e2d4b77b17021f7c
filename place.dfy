/** `Place` of part2/place.py: a mutable entity holding its reviews and,
    without repetition, its amenities. */
module Places {
  import opened Common
  import opened BaseModel
  import opened Reviews
  import opened Amenities

  const PlaceKeys: set<string> :=
    BaseKeys + {"owner_id", "name", "description", "price", "reviews", "amenities"}

  /** The guarded append of `add_amenity`: `amenity not in self.amenities`
      compares object identity, since `BaseModel` defines no `__eq__`. */
  function WithAmenity(s: seq<Amenity>, a: Amenity): (r: seq<Amenity>)
    ensures a in r
    ensures forall i :: 0 <= i < |r| ==> r[i] in s || r[i] == a
    ensures |s| <= |r| <= |s| + 1 && r[..|s|] == s
    ensures a in s ==> r == s
    ensures a !in s ==> r == s + [a]
  {
    if a in s then s else s + [a]
  }

  /** Adding an amenity twice is the same as adding it once. */
  lemma WithAmenityIdempotent(s: seq<Amenity>, a: Amenity)
    ensures WithAmenity(WithAmenity(s, a), a) == WithAmenity(s, a)
  {
  }

  /** Guarded appends never introduce a repetition. */
  lemma WithAmenityKeepsDistinct(s: seq<Amenity>, a: Amenity)
    requires Distinct(s)
    ensures Distinct(WithAmenity(s, a))
  {
  }

  /** Two distinct objects are both kept even when their ids coincide. */
  lemma SameIdDistinctObjectsBothAdded(s: seq<Amenity>, a: Amenity, b: Amenity)
    requires a != b && a.base.id == b.base.id
    requires a !in s && b !in s
    ensures WithAmenity(WithAmenity(s, a), b) == s + [a, b]
  {
  }

  class Place {
    var base: Base
    var ownerId: string
    var name: string
    var description: string
    var price: Value
    var reviews: seq<Review>
    var amenities: seq<Amenity>

    /** `Place.__init__`: description defaults to "", price to 0.0 and is
        stored unchanged, both lists start empty. */
    constructor (freshId: string, now: Time, ownerId: string, name: string,
                 description: string := "", price: Value := Real(0.0), id: Option<string> := None,
                 createdAt: Option<Time> := None, updatedAt: Option<Time> := None)
      requires freshId != ""
      ensures base == Init(id, createdAt, updatedAt, freshId, now)
      ensures this.ownerId == ownerId && this.name == name
      ensures this.description == description && this.price == price
      ensures reviews == [] && amenities == []
      ensures Distinct(amenities)
    {
      base := Init(id, createdAt, updatedAt, freshId, now);
      this.ownerId := ownerId;
      this.name := name;
      this.description := description;
      this.price := price;
      reviews := [];
      amenities := [];
    }

    /** `Place.add_review`: always appends; the amenities are not touched. */
    method AddReview(review: Review)
      modifies this`reviews
      ensures reviews == old(reviews) + [review]
    {
      reviews := reviews + [review];
    }

    /** `Place.add_amenity`: appends unless that very object is present. */
    method AddAmenity(amenity: Amenity)
      modifies this`amenities
      ensures amenities == WithAmenity(old(amenities), amenity)
      ensures amenity in old(amenities) ==> amenities == old(amenities)
      ensures Distinct(old(amenities)) ==> Distinct(amenities)
    {
      if amenity !in amenities {
        amenities := amenities + [amenity];
      }
    }

    /** `Place.to_dict`: the base entries, the place fields, and the review
        and amenity ids in insertion order. */
    function ToDict(iso: Time -> string): (d: map<string, Value>)
      reads this
      ensures d.Keys == PlaceKeys
      ensures forall k :: k in BaseKeys ==> d[k] == BaseDict(base, iso)[k]
      ensures d["owner_id"] == Str(ownerId) && d["name"] == Str(name)
      ensures d["description"] == Str(description) && d["price"] == price
      ensures d["reviews"] == Strs(ReviewIds(reviews))
      ensures d["amenities"] == Strs(AmenityIds(amenities))
    {
      BaseDict(base, iso) + map["owner_id" := Str(ownerId), "name" := Str(name),
                                "description" := Str(description), "price" := price,
                                "reviews" := Strs(ReviewIds(reviews)),
                                "amenities" := Strs(AmenityIds(amenities))]
    }
  }
}

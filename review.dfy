/** `Review` of part2/review.py: an immutable record plus its serialisation. */
module Reviews {
  import opened Common
  import opened BaseModel

  datatype Review = Review(base: Base, userId: string, placeId: string, text: string, rating: Value)

  const ReviewKeys: set<string> := BaseKeys + {"user_id", "place_id", "text", "rating"}

  /** `Review.__init__`: the references and text are stored as given, the
      rating defaults to 0 and is accepted whatever it is (no 1..5 check). */
  function NewReview(freshId: string, now: Time, userId: string, placeId: string, text: string,
                     rating: Value := Int(0), id: Option<string> := None,
                     createdAt: Option<Time> := None, updatedAt: Option<Time> := None): (r: Review)
    requires freshId != ""
    ensures r.base == Init(id, createdAt, updatedAt, freshId, now)
    ensures r.userId == userId && r.placeId == placeId && r.text == text
    ensures r.rating == rating
  {
    Review(Init(id, createdAt, updatedAt, freshId, now), userId, placeId, text, rating)
  }

  /** `Review.to_dict`: the base entries plus the four review fields. */
  function ReviewDict(r: Review, iso: Time -> string): (d: map<string, Value>)
    ensures d.Keys == ReviewKeys
    ensures forall k :: k in BaseKeys ==> d[k] == BaseDict(r.base, iso)[k]
    ensures d["user_id"] == Str(r.userId) && d["place_id"] == Str(r.placeId)
    ensures d["text"] == Str(r.text) && d["rating"] == r.rating
  {
    BaseDict(r.base, iso) + map["user_id" := Str(r.userId), "place_id" := Str(r.placeId),
                                "text" := Str(r.text), "rating" := r.rating]
  }

  /** `[r.id for r in reviews]`: the ids, position by position. */
  function ReviewIds(rs: seq<Review>): (ids: seq<string>)
    ensures |ids| == |rs|
    ensures forall i :: 0 <= i < |rs| ==> ids[i] == rs[i].base.id
  {
    seq(|rs|, i requires 0 <= i < |rs| => rs[i].base.id)
  }

  /** Appending a review appends its id to the serialised list. */
  lemma ReviewIdsAppend(rs: seq<Review>, r: Review)
    ensures ReviewIds(rs + [r]) == ReviewIds(rs) + [r.base.id]
  {
    assert forall i :: 0 <= i < |rs| ==> (rs + [r])[i] == rs[i];
  }

  /** A review built without a rating carries the rating 0. */
  lemma DefaultRatingIsZero(freshId: string, now: Time, userId: string, placeId: string, text: string,
                            iso: Time -> string)
    requires freshId != ""
    ensures NewReview(freshId, now, userId, placeId, text).rating == Int(0)
    ensures ReviewDict(NewReview(freshId, now, userId, placeId, text), iso)["rating"] == Int(0)
  {
  }
}

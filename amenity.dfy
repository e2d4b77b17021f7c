/** `Amenity` of part2/amenity.py. It is a class so that two amenities with
    equal fields remain two objects: `Place.add_amenity` compares identity. */
module Amenities {
  import opened Common
  import opened BaseModel

  const AmenityKeys: set<string> := BaseKeys + {"name"}

  class Amenity {
    const base: Base
    const name: string

    /** `Amenity.__init__`: the base fields are defaulted, `name` is kept. */
    constructor (freshId: string, now: Time, name: string, id: Option<string> := None,
                 createdAt: Option<Time> := None, updatedAt: Option<Time> := None)
      requires freshId != ""
      ensures base == Init(id, createdAt, updatedAt, freshId, now)
      ensures this.name == name
    {
      this.base := Init(id, createdAt, updatedAt, freshId, now);
      this.name := name;
    }

    /** `Amenity.to_dict`: the three base entries and `name`, nothing else. */
    function ToDict(iso: Time -> string): (d: map<string, Value>)
      ensures d.Keys == AmenityKeys && |d| == 4
      ensures forall k :: k in BaseKeys ==> d[k] == BaseDict(base, iso)[k]
      ensures d["name"] == Str(name)
    {
      assert |AmenityKeys| == 4;
      BaseDict(base, iso)["name" := Str(name)]
    }
  }

  /** `[a.id for a in amenities]`. */
  function AmenityIds(s: seq<Amenity>): (ids: seq<string>)
    ensures |ids| == |s|
    ensures forall i :: 0 <= i < |s| ==> ids[i] == s[i].base.id
  {
    seq(|s|, i requires 0 <= i < |s| => s[i].base.id)
  }
}

/** `BaseModel` of part2/base_model.py, as the identity-and-timestamps record
    that every entity embeds. */
module BaseModel {
  import opened Common

  datatype Base = Base(id: string, createdAt: Time, updatedAt: Time)

  /** The keys every entity's `to_dict` starts from. */
  const BaseKeys: set<string> := {"id", "created_at", "updated_at"}

  /** Python truthiness of an optional id: None and "" are falsy. */
  predicate IdGiven(id: Option<string>) {
    id.Some? && id.value != ""
  }

  /** `BaseModel.__init__`: `id or uuid4()`, `created_at or utcnow()`,
      `updated_at or utcnow()`. A datetime is always truthy, so only an absent
      timestamp falls back to the clock. `freshId` is the uuid4 string. */
  function Init(id: Option<string>, createdAt: Option<Time>, updatedAt: Option<Time>,
                freshId: string, now: Time): (b: Base)
    requires freshId != ""
    ensures b.id != ""
    ensures IdGiven(id) ==> b.id == id.value
    ensures !IdGiven(id) ==> b.id == freshId
    ensures createdAt.Some? ==> b.createdAt == createdAt.value
    ensures createdAt.None? ==> b.createdAt == now
    ensures updatedAt.Some? ==> b.updatedAt == updatedAt.value
    ensures updatedAt.None? ==> b.updatedAt == now
  {
    Base(if IdGiven(id) then id.value else freshId,
         if createdAt.Some? then createdAt.value else now,
         if updatedAt.Some? then updatedAt.value else now)
  }

  /** `BaseModel.save` on the record: only `updated_at` moves, to the clock reading. */
  function Touch(b: Base, now: Time): (t: Base)
    ensures t.id == b.id && t.createdAt == b.createdAt
    ensures t.updatedAt == now
  {
    b.(updatedAt := now)
  }

  /** `BaseModel.to_dict`; `iso` stands for `datetime.isoformat`. */
  function BaseDict(b: Base, iso: Time -> string): (d: map<string, Value>)
    ensures d.Keys == BaseKeys
    ensures d["id"] == Str(b.id)
    ensures d["created_at"] == Str(iso(b.createdAt))
    ensures d["updated_at"] == Str(iso(b.updatedAt))
  {
    map["id" := Str(b.id), "created_at" := Str(iso(b.createdAt)), "updated_at" := Str(iso(b.updatedAt))]
  }

  /** Re-creating an entity from its own stored fields gives it back: the
      constructor keeps every truthy argument, whatever the oracles say. */
  lemma InitKeepsGivenFields(b: Base, freshId: string, now: Time)
    requires b.id != "" && freshId != ""
    ensures Init(Some(b.id), Some(b.createdAt), Some(b.updatedAt), freshId, now) == b
  {
  }

  /** Saving changes the serialised record in its `updated_at` entry only. */
  lemma TouchChangesOnlyUpdatedAt(b: Base, now: Time, iso: Time -> string)
    ensures BaseDict(Touch(b, now), iso) == BaseDict(b, iso)["updated_at" := Str(iso(now))]
  {
  }

  /** Two saves in a row leave the record as the second one alone would. */
  lemma TouchLastWins(b: Base, t1: Time, t2: Time)
    ensures Touch(Touch(b, t1), t2) == Touch(b, t2)
  {
  }
}

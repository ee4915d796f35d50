/** `LockEntity`: an entity with a state topic and a command topic, tagged "lock". */
module LockEntity {
  import opened Json
  import opened BaseEntity

  /** `new LockEntity(def)`: the definition's fields, with `type` overwritten by "lock". */
  function New(def: EntityDefinition): (e: Entity)
    ensures e.Lock? && e.Valid()
    ensures e.base.entity_type == "lock"
    ensures AsDefinition(e.base) == def.(entity_type := "lock")
  {
    Lock(NewBase(def.(entity_type := "lock")))
  }

  /** `toJSON`: the literal tag and three fields; `name` and `states` are dropped. */
  function ToJson(e: Entity): (obj: Object)
    requires e.Lock?
    ensures obj.Keys == {"id", "type", "state_topic", "command_topic"}
    ensures obj["type"] == JStr("lock")
  {
    map["id" := JStr(e.base.id),
        "type" := JStr("lock"),
        "state_topic" := JStr(e.base.state_topic),
        "command_topic" := OptStr(e.base.command_topic)]
  }

  /** `LockEntity.fromJSON`: builds the entity from a stored record. */
  function FromJson(json: EntityDefinition): (e: Entity)
    ensures e.Lock? && AsDefinition(e.base) == json.(entity_type := "lock")
  {
    New(json)
  }

  /**
   * Serialising a freshly built entity: id, state topic and command topic are the
   * definition's own, the type is "lock" whatever the definition said, and nothing else
   * is emitted.
   */
  lemma ToJsonOfNew(def: EntityDefinition)
    ensures ToJson(New(def)) == map["id" := JStr(def.id),
                                    "type" := JStr("lock"),
                                    "state_topic" := JStr(def.state_topic),
                                    "command_topic" := OptStr(def.command_topic)]
  {
  }

  /** A valid entity's own record reads back from its `toJSON`. */
  lemma ReadsBackOwn(e: Entity)
    requires e.Lock? && e.Valid()
    ensures ReadsBack(AsDefinition(e.base), ToJson(e))
  {
  }

  /**
   * Re-serialisation is stable: any record that reads back from an entity's `toJSON`
   * rebuilds an entity with the same `toJSON`.
   */
  lemma RoundTrip(e: Entity, d: EntityDefinition)
    requires e.Lock? && ReadsBack(d, ToJson(e))
    ensures ToJson(FromJson(d)) == ToJson(e)
  {
    assert d.command_topic == e.base.command_topic by {
      assert OptStr(d.command_topic) == OptStr(e.base.command_topic);
    }
  }
}

/** `LightEntity`: an entity with a state topic and a command topic, tagged "light". */
module LightEntity {
  import opened Json
  import opened BaseEntity

  /** `new LightEntity(def)`: the definition's fields, with `type` overwritten by "light". */
  function New(def: EntityDefinition): (e: Entity)
    ensures e.Light? && e.Valid()
    ensures e.base.entity_type == "light"
    ensures AsDefinition(e.base) == def.(entity_type := "light")
  {
    Light(NewBase(def.(entity_type := "light")))
  }

  /** `toJSON`: the literal tag and three fields; `name` and `states` are dropped. */
  function ToJson(e: Entity): (obj: Object)
    requires e.Light?
    ensures obj.Keys == {"id", "type", "state_topic", "command_topic"}
    ensures obj["type"] == JStr("light")
  {
    map["id" := JStr(e.base.id),
        "type" := JStr("light"),
        "state_topic" := JStr(e.base.state_topic),
        "command_topic" := OptStr(e.base.command_topic)]
  }

  /** `LightEntity.fromJSON`: builds the entity from a stored record. */
  function FromJson(json: EntityDefinition): (e: Entity)
    ensures e.Light? && AsDefinition(e.base) == json.(entity_type := "light")
  {
    New(json)
  }

  /**
   * Serialising a freshly built entity: id, state topic and command topic are the
   * definition's own, the type is "light" whatever the definition said, and nothing else
   * is emitted.
   */
  lemma ToJsonOfNew(def: EntityDefinition)
    ensures ToJson(New(def)) == map["id" := JStr(def.id),
                                    "type" := JStr("light"),
                                    "state_topic" := JStr(def.state_topic),
                                    "command_topic" := OptStr(def.command_topic)]
  {
  }

  /** A valid entity's own record reads back from its `toJSON`. */
  lemma ReadsBackOwn(e: Entity)
    requires e.Light? && e.Valid()
    ensures ReadsBack(AsDefinition(e.base), ToJson(e))
  {
  }

  /**
   * Re-serialisation is stable: any record that reads back from an entity's `toJSON`
   * rebuilds an entity with the same `toJSON`.
   */
  lemma RoundTrip(e: Entity, d: EntityDefinition)
    requires e.Light? && ReadsBack(d, ToJson(e))
    ensures ToJson(FromJson(d)) == ToJson(e)
  {
    assert d.command_topic == e.base.command_topic by {
      assert OptStr(d.command_topic) == OptStr(e.base.command_topic);
    }
  }
}

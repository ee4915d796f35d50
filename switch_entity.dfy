/** `SwitchEntity`: an entity with a state topic and a command topic, tagged "switch". */
module SwitchEntity {
  import opened Json
  import opened BaseEntity

  /** `new SwitchEntity(def)`: the definition's fields, with `type` overwritten by "switch". */
  function New(def: EntityDefinition): (e: Entity)
    ensures e.Switch? && e.Valid()
    ensures e.base.entity_type == "switch"
    ensures AsDefinition(e.base) == def.(entity_type := "switch")
  {
    Switch(NewBase(def.(entity_type := "switch")))
  }

  /** `toJSON`: the literal tag and three fields; `name` and `states` are dropped. */
  function ToJson(e: Entity): (obj: Object)
    requires e.Switch?
    ensures obj.Keys == {"id", "type", "state_topic", "command_topic"}
    ensures obj["type"] == JStr("switch")
  {
    map["id" := JStr(e.base.id),
        "type" := JStr("switch"),
        "state_topic" := JStr(e.base.state_topic),
        "command_topic" := OptStr(e.base.command_topic)]
  }

  /** `SwitchEntity.fromJSON`: builds the entity from a stored record. */
  function FromJson(json: EntityDefinition): (e: Entity)
    ensures e.Switch? && AsDefinition(e.base) == json.(entity_type := "switch")
  {
    New(json)
  }

  /**
   * Serialising a freshly built entity: id, state topic and command topic are the
   * definition's own, the type is "switch" whatever the definition said, and nothing else
   * is emitted.
   */
  lemma ToJsonOfNew(def: EntityDefinition)
    ensures ToJson(New(def)) == map["id" := JStr(def.id),
                                    "type" := JStr("switch"),
                                    "state_topic" := JStr(def.state_topic),
                                    "command_topic" := OptStr(def.command_topic)]
  {
  }

  /** A valid entity's own record reads back from its `toJSON`. */
  lemma ReadsBackOwn(e: Entity)
    requires e.Switch? && e.Valid()
    ensures ReadsBack(AsDefinition(e.base), ToJson(e))
  {
  }

  /**
   * Re-serialisation is stable: any record that reads back from an entity's `toJSON`
   * rebuilds an entity with the same `toJSON`.
   */
  lemma RoundTrip(e: Entity, d: EntityDefinition)
    requires e.Switch? && ReadsBack(d, ToJson(e))
    ensures ToJson(FromJson(d)) == ToJson(e)
  {
    assert d.command_topic == e.base.command_topic by {
      assert OptStr(d.command_topic) == OptStr(e.base.command_topic);
    }
  }
}

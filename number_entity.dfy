/** `NumberEntity`: an entity with an optional range and unit. */
module NumberEntity {
  import opened Wrappers
  import opened Json
  import opened BaseEntity

  /**
   * `new NumberEntity(def, min, max, unit)`: the definition's fields with `type`
   * overwritten by "number", plus the three extra fields as given.
   */
  function New(def: EntityDefinition, min: Option<int>, max: Option<int>, unit: Option<string>): (e: Entity)
    ensures e.Number? && e.Valid()
    ensures e.base.entity_type == "number"
    ensures AsDefinition(e.base) == def.(entity_type := "number")
    ensures e.min == min && e.max == max && e.unit == unit
  {
    Number(NewBase(def.(entity_type := "number")), min, max, unit)
  }

  /** `toJSON`: the stored type and seven fields; only `states` is dropped. */
  function ToJson(e: Entity): (obj: Object)
    requires e.Number?
    ensures obj.Keys == {"id", "type", "name", "state_topic", "command_topic", "min", "max", "unit"}
  {
    map["id" := JStr(e.base.id),
        "type" := JStr(e.base.entity_type),
        "name" := JStr(e.base.name),
        "state_topic" := JStr(e.base.state_topic),
        "command_topic" := OptStr(e.base.command_topic),
        "min" := OptNum(e.min),
        "max" := OptNum(e.max),
        "unit" := OptStr(e.unit)]
  }

  /** `NumberEntity.fromJSON`: passes only the record, so `min`, `max` and `unit` stay undefined. */
  function FromJson(json: EntityDefinition): (e: Entity)
    ensures e.Number? && AsDefinition(e.base) == json.(entity_type := "number")
    ensures e.min.None? && e.max.None? && e.unit.None?
  {
    New(json, None, None, None)
  }

  /** The range and unit given to the constructor come out of `toJSON` unchanged. */
  lemma ToJsonOfNew(def: EntityDefinition, min: Option<int>, max: Option<int>, unit: Option<string>)
    ensures ToJson(New(def, min, max, unit)) == map["id" := JStr(def.id),
                                                    "type" := JStr("number"),
                                                    "name" := JStr(def.name),
                                                    "state_topic" := JStr(def.state_topic),
                                                    "command_topic" := OptStr(def.command_topic),
                                                    "min" := OptNum(min),
                                                    "max" := OptNum(max),
                                                    "unit" := OptStr(unit)]
  {
  }

  /** A valid entity's own record reads back from its `toJSON`. */
  lemma ReadsBackOwn(e: Entity)
    requires e.Number? && e.Valid()
    ensures ReadsBack(AsDefinition(e.base), ToJson(e))
  {
  }

  /**
   * Rebuilding from any record that reads back from a valid entity's `toJSON` reproduces
   * the same `toJSON` exactly when the entity had no `min`, no `max` and no `unit`, since
   * `fromJSON` drops all three.
   */
  lemma RoundTrip(e: Entity, d: EntityDefinition)
    requires e.Number? && e.Valid() && ReadsBack(d, ToJson(e))
    ensures ToJson(FromJson(d)) == ToJson(e) <==> e.min.None? && e.max.None? && e.unit.None?
  {
    var obj := ToJson(e);
    var back := ToJson(FromJson(d));
    assert d.command_topic == e.base.command_topic by {
      assert OptStr(d.command_topic) == OptStr(e.base.command_topic);
    }
    if back == obj {
      assert back["min"] == obj["min"] && back["max"] == obj["max"] && back["unit"] == obj["unit"];
    }
  }
}

/** `BinarySensorEntity`: a read-only entity with an optional unit and device class. */
module BinarySensorEntity {
  import opened Wrappers
  import opened Json
  import opened BaseEntity

  /**
   * `new BinarySensorEntity(def, unit, device_class)`: the definition's fields with
   * `type` overwritten by "binary_sensor", plus the two extra fields as given.
   */
  function New(def: EntityDefinition, unit: Option<string>, device_class: Option<string>): (e: Entity)
    ensures e.BinarySensor? && e.Valid()
    ensures e.base.entity_type == "binary_sensor"
    ensures AsDefinition(e.base) == def.(entity_type := "binary_sensor")
    ensures e.unit == unit && e.device_class == device_class
  {
    BinarySensor(NewBase(def.(entity_type := "binary_sensor")), unit, device_class)
  }

  /** `toJSON`: the stored type and four fields; `name`, `command_topic` and `states` are dropped. */
  function ToJson(e: Entity): (obj: Object)
    requires e.BinarySensor?
    ensures obj.Keys == {"id", "type", "state_topic", "unit", "device_class"}
  {
    map["id" := JStr(e.base.id),
        "type" := JStr(e.base.entity_type),
        "state_topic" := JStr(e.base.state_topic),
        "unit" := OptStr(e.unit),
        "device_class" := OptStr(e.device_class)]
  }

  /** `BinarySensorEntity.fromJSON`: passes only the record, so `unit` and `device_class` stay undefined. */
  function FromJson(json: EntityDefinition): (e: Entity)
    ensures e.BinarySensor? && AsDefinition(e.base) == json.(entity_type := "binary_sensor")
    ensures e.unit.None? && e.device_class.None?
  {
    New(json, None, None)
  }

  /** The unit and device class given to the constructor come out of `toJSON` unchanged. */
  lemma ToJsonOfNew(def: EntityDefinition, unit: Option<string>, device_class: Option<string>)
    ensures ToJson(New(def, unit, device_class)) == map["id" := JStr(def.id),
                                                        "type" := JStr("binary_sensor"),
                                                        "state_topic" := JStr(def.state_topic),
                                                        "unit" := OptStr(unit),
                                                        "device_class" := OptStr(device_class)]
  {
  }

  /** A valid entity's own record reads back from its `toJSON`. */
  lemma ReadsBackOwn(e: Entity)
    requires e.BinarySensor? && e.Valid()
    ensures ReadsBack(AsDefinition(e.base), ToJson(e))
  {
  }

  /**
   * Rebuilding from any record that reads back from a valid entity's `toJSON` reproduces
   * the same `toJSON` exactly when the entity had neither a unit nor a device class,
   * since `fromJSON` drops both.
   */
  lemma RoundTrip(e: Entity, d: EntityDefinition)
    requires e.BinarySensor? && e.Valid() && ReadsBack(d, ToJson(e))
    ensures ToJson(FromJson(d)) == ToJson(e) <==> e.unit.None? && e.device_class.None?
  {
    var obj := ToJson(e);
    var back := ToJson(FromJson(d));
    if back == obj {
      assert back["unit"] == obj["unit"] && back["device_class"] == obj["device_class"];
    }
  }
}

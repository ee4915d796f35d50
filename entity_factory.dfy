/**
 * The entity registry: a fixed table from type names to entity classes, the factory
 * that dispatches on it, and the list of supported type names.
 */
module EntityFactory {
  import opened Wrappers
  import opened Json
  import opened BaseEntity
  import opened Table
  import BinarySensorEntity
  import LightEntity
  import LockEntity
  import NumberEntity
  import SwitchEntity

  /** The concrete entity classes a registry entry can name. */
  datatype EntityClass = BinarySensorClass | LightClass | LockClass | NumberClass | SwitchClass

  /**
   * `ENTITY_REGISTRY`, in its declaration order (which is the order of `Object.keys`).
   * "sensor" is registered to the light class.
   */
  const Registry: seq<(string, EntityClass)> := [
    ("binary_sensor", BinarySensorClass),
    ("sensor", LightClass),
    ("lock", LockClass),
    ("light", LightClass),
    ("number", NumberClass),
    ("switch", SwitchClass)
  ]

  /** The registry as a table: what looking each key up gives. */
  lemma RegistryTable(key: string)
    ensures Lookup(Registry, key) ==
      if key == "binary_sensor" then Some(BinarySensorClass)
      else if key == "sensor" then Some(LightClass)
      else if key == "lock" then Some(LockClass)
      else if key == "light" then Some(LightClass)
      else if key == "number" then Some(NumberClass)
      else if key == "switch" then Some(SwitchClass)
      else None
  {
    var r1 := Registry[1..];
    var r2 := r1[1..];
    var r3 := r2[1..];
    var r4 := r3[1..];
    var r5 := r4[1..];
    assert Lookup(Registry, key) == if key == "binary_sensor" then Some(BinarySensorClass) else Lookup(r1, key);
    assert Lookup(r1, key) == if key == "sensor" then Some(LightClass) else Lookup(r2, key);
    assert Lookup(r2, key) == if key == "lock" then Some(LockClass) else Lookup(r3, key);
    assert Lookup(r3, key) == if key == "light" then Some(LightClass) else Lookup(r4, key);
    assert Lookup(r4, key) == if key == "number" then Some(NumberClass) else Lookup(r5, key);
    assert r5[1..] == [];
    assert Lookup(r5, key) == if key == "switch" then Some(SwitchClass) else None;
  }

  /**
   * `EntityClass.fromJSON(def)` for the chosen class: an entity of that class carrying the
   * definition's fields under the class's tag, with the class's own extra fields undefined.
   */
  function FromJson(cls: EntityClass, def: EntityDefinition): (e: Entity)
    ensures e.Valid()
    ensures cls == BinarySensorClass ==> e.BinarySensor? && e.unit.None? && e.device_class.None?
    ensures cls == LightClass ==> e.Light?
    ensures cls == LockClass ==> e.Lock?
    ensures cls == NumberClass ==> e.Number? && e.min.None? && e.max.None? && e.unit.None?
    ensures cls == SwitchClass ==> e.Switch?
    ensures AsDefinition(e.base) == def.(entity_type := e.Tag())
  {
    match cls
    case BinarySensorClass => BinarySensorEntity.FromJson(def)
    case LightClass => LightEntity.FromJson(def)
    case LockClass => LockEntity.FromJson(def)
    case NumberClass => NumberEntity.FromJson(def)
    case SwitchClass => SwitchEntity.FromJson(def)
  }

  /** `getAvailableEntityTypes`: the registry's keys in declaration order. */
  function GetAvailableEntityTypes(): (types: seq<string>)
    ensures types == ["binary_sensor", "sensor", "lock", "light", "number", "switch"]
  {
    Keys(Registry)
  }

  /**
   * `createEntity`: builds the entity the registry names for the definition's type, or
   * throws "Unknown entity type: <type>" when the type is not a registry key.
   */
  function CreateEntity(def: EntityDefinition): (r: Result<Entity, string>)
    ensures r.Success? <==> def.entity_type in {"binary_sensor", "sensor", "lock", "light", "number", "switch"}
    ensures r.Failure? ==> r.error == "Unknown entity type: " + def.entity_type
    ensures r.Success? ==> r.value.Valid()
    ensures r.Success? ==> r.value.Tag() == (if def.entity_type == "sensor" then "light" else def.entity_type)
    ensures r.Success? ==> AsDefinition(r.value.base) == def.(entity_type := r.value.Tag())
  {
    RegistryTable(def.entity_type);
    match Lookup(Registry, def.entity_type)
    case None => Failure("Unknown entity type: " + def.entity_type)
    case Some(cls) => Success(FromJson(cls, def))
  }

  /** Every type the registry advertises is accepted by the factory. */
  lemma AvailableTypesAreAccepted(def: EntityDefinition)
    requires def.entity_type in GetAvailableEntityTypes()
    ensures CreateEntity(def).Success?
  {
  }

  /** A "sensor" definition is built by the light class and so comes back tagged "light". */
  lemma SensorBecomesLight(def: EntityDefinition)
    requires def.entity_type == "sensor"
    ensures CreateEntity(def).Success? && CreateEntity(def).value.Light?
    ensures CreateEntity(def).value.base.entity_type == "light"
  {
  }

  /** No entity the factory builds is tagged "sensor": its type is one of the five class tags. */
  lemma NeverTaggedSensor(def: EntityDefinition)
    requires CreateEntity(def).Success?
    ensures CreateEntity(def).value.base.entity_type in {"binary_sensor", "lock", "light", "number", "switch"}
  {
  }

  /**
   * The abstract `toJSON`, answered by each concrete class's own serialiser. Every
   * serialisation of a valid entity carries its id, its class tag and its state topic,
   * and none carries `states`.
   */
  function ToJson(e: Entity): (obj: Object)
    ensures "id" in obj && obj["id"] == JStr(e.base.id)
    ensures "state_topic" in obj && obj["state_topic"] == JStr(e.base.state_topic)
    ensures "type" in obj && (e.Valid() ==> obj["type"] == JStr(e.Tag()))
    ensures "states" !in obj
  {
    match e
    case BinarySensor(_, _, _) => BinarySensorEntity.ToJson(e)
    case Light(_) => LightEntity.ToJson(e)
    case Lock(_) => LockEntity.ToJson(e)
    case Number(_, _, _, _) => NumberEntity.ToJson(e)
    case Switch(_) => SwitchEntity.ToJson(e)
  }

  /** The properties each class's `toJSON` emits. */
  function SchemaKeys(tag: string): set<string> {
    match tag
    case "binary_sensor" => {"id", "type", "state_topic", "unit", "device_class"}
    case "number" => {"id", "type", "name", "state_topic", "command_topic", "min", "max", "unit"}
    case _ => {"id", "type", "state_topic", "command_topic"}
  }

  /**
   * Building an entity of a registered type and serialising it gives exactly that class's
   * schema and tag, whatever other fields the definition carried.
   */
  lemma CreatedEntitySchema(def: EntityDefinition)
    requires CreateEntity(def).Success?
    ensures ToJson(CreateEntity(def).value).Keys == SchemaKeys(CreateEntity(def).value.Tag())
    ensures ToJson(CreateEntity(def).value)["type"]
            == JStr(if def.entity_type == "sensor" then "light" else def.entity_type)
  {
  }
}

/**
 * The stored entity record, the fields every entity object carries, and the closed
 * set of concrete entity classes as one tagged union.
 */
module BaseEntity {
  import opened Wrappers
  import opened Json

  /** The optional `states` block of an entity definition. */
  datatype EntityStates = EntityStates(available_states: seq<string>, default_state: string)

  /**
   * `EntityDefinition`: an entity as it is stored and exchanged. `entity_type` is the
   * record's `type` property; `command_topic` and `states` are optional.
   */
  datatype EntityDefinition = EntityDefinition(
    id: string,
    entity_type: string,
    name: string,
    state_topic: string,
    command_topic: Option<string>,
    states: Option<EntityStates>)

  /** The six instance fields of `BaseEntity`. */
  datatype Base = Base(
    id: string,
    entity_type: string,
    name: string,
    state_topic: string,
    command_topic: Option<string>,
    states: Option<EntityStates>)

  /**
   * The concrete subclasses of the abstract `BaseEntity`, each with the fields it adds.
   * Both `BinarySensorEntity` and `NumberEntity` add a `unit`.
   */
  datatype Entity =
    | BinarySensor(base: Base, unit: Option<string>, device_class: Option<string>)
    | Light(base: Base)
    | Lock(base: Base)
    | Number(base: Base, min: Option<int>, max: Option<int>, unit: Option<string>)
    | Switch(base: Base)
  {
    /** The `type` that the subclass's constructor writes over the definition's. */
    function Tag(): string {
      match this
      case BinarySensor(_, _, _) => "binary_sensor"
      case Light(_) => "light"
      case Lock(_) => "lock"
      case Number(_, _, _, _) => "number"
      case Switch(_) => "switch"
    }

    /** The invariant every subclass constructor establishes: the stored type is the class's tag. */
    predicate Valid() {
      base.entity_type == Tag()
    }
  }

  /** The record a `BaseEntity` object's fields spell out. */
  function AsDefinition(b: Base): EntityDefinition {
    EntityDefinition(b.id, b.entity_type, b.name, b.state_topic, b.command_topic, b.states)
  }

  /**
   * The `BaseEntity` constructor: copies the six fields of the definition as they are;
   * an absent `command_topic` or `states` stays absent.
   */
  function NewBase(def: EntityDefinition): (b: Base)
    ensures AsDefinition(b) == def
  {
    Base(def.id, def.entity_type, def.name, def.state_topic, def.command_topic, def.states)
  }

  /** Every field of a `BaseEntity` came from the definition it was built from. */
  lemma BaseRoundTrip(b: Base)
    ensures NewBase(AsDefinition(b)) == b
  {
  }

  /** The error message of the abstract `BaseEntity.fromJSON`. */
  const FromJsonUnimplemented := "fromJSON must be implemented in subclasses"

  /** `BaseEntity.fromJSON`: the base class cannot be instantiated from a record; it always throws. */
  function FromJson(json: EntityDefinition): (r: Result<Entity, string>)
    ensures r.Failure? && r.error == "fromJSON must be implemented in subclasses"
  {
    Failure(FromJsonUnimplemented)
  }

  /** The `states` block as a JavaScript value. */
  function StatesJson(s: Option<EntityStates>): Json {
    match s
    case None => JUndefined
    case Some(st) =>
      JObject(map["available_states" := StrArray(st.available_states),
                  "default_state" := JStr(st.default_state)])
  }

  /**
   * `d` is what a `toJSON` object `obj` reads back as when it is handed to a `fromJSON`:
   * every definition property that `obj` has holds `d`'s value for it. Properties that
   * `obj` lacks (a dropped `name`, say) are unconstrained, and properties that are not
   * part of a definition (`unit`, `min`) are ignored.
   */
  predicate ReadsBack(d: EntityDefinition, obj: Object) {
    && ("id" in obj ==> obj["id"] == JStr(d.id))
    && ("type" in obj ==> obj["type"] == JStr(d.entity_type))
    && ("name" in obj ==> obj["name"] == JStr(d.name))
    && ("state_topic" in obj ==> obj["state_topic"] == JStr(d.state_topic))
    && ("command_topic" in obj ==> obj["command_topic"] == OptStr(d.command_topic))
    && ("states" in obj ==> obj["states"] == StatesJson(d.states))
  }
}

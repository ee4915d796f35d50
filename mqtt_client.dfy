/**
 * The MQTT side of the add-on: Home Assistant discovery topics and payloads, the
 * command-topic parser, state normalisation, and the order of the publishes the client
 * makes. The broker is a log of acknowledged publishes.
 */
module MqttClient {
  import opened Wrappers
  import opened Json
  import opened Text
  import opened BaseEntity
  import opened DeviceStore
  import opened Table

  // ---------------------------------------------------------------------------
  // Topics

  /** The Home Assistant discovery prefix. */
  const DiscoveryPrefix := "homeassistant"

  /** `<deviceId>_<entityId>`, the discovery object id. */
  function ObjectId(deviceId: string, entityId: string): string {
    deviceId + "_" + entityId
  }

  /** `iot_spoofer_<objectId>`, the entity's unique id. */
  function UniqueId(deviceId: string, entityId: string): string {
    "iot_spoofer_" + ObjectId(deviceId, entityId)
  }

  /** `<prefix>/<component>/<objectId>/config`. */
  function ConfigTopic(component: string, objectId: string): string {
    DiscoveryPrefix + "/" + component + "/" + objectId + "/" + "config"
  }

  /** `iot_spoofer/<deviceId>/<entityId>/state`. */
  function StateTopic(deviceId: string, entityId: string): string {
    "iot_spoofer" + "/" + deviceId + "/" + entityId + "/" + "state"
  }

  /** `iot_spoofer/<deviceId>/<entityId>/set`. */
  function CommandTopic(deviceId: string, entityId: string): string {
    "iot_spoofer" + "/" + deviceId + "/" + entityId + "/" + "set"
  }

  /** `iot_spoofer/<deviceId>/availability`. */
  function AvailabilityTopic(deviceId: string): string {
    "iot_spoofer" + "/" + deviceId + "/" + "availability"
  }

  /** Four '/'-free segments joined by '/' split back into those segments. */
  lemma FourSegments(a: string, b: string, c: string, d: string)
    requires '/' !in a && '/' !in b && '/' !in c && '/' !in d
    ensures Split(a + "/" + b + "/" + c + "/" + d, '/') == [a, b, c, d]
  {
    SplitNoSep(a, '/');
    SplitSnoc(a, b, '/');
    SplitSnoc(a + "/" + b, c, '/');
    SplitSnoc(a + "/" + b + "/" + c, d, '/');
  }

  /** An object id of '/'-free ids holds no '/'. */
  lemma ObjectIdNoSlash(deviceId: string, entityId: string)
    requires '/' !in deviceId && '/' !in entityId
    ensures '/' !in ObjectId(deviceId, entityId)
  {
    var objectId := ObjectId(deviceId, entityId);
    forall i | 0 <= i < |objectId| ensures objectId[i] != '/' {
      if i < |deviceId| {
        assert objectId[i] == deviceId[i];
      } else if i > |deviceId| {
        assert objectId[i] == entityId[i - |deviceId| - 1];
      }
    }
  }

  /** A config topic splits into prefix, component, object id and "config". */
  lemma ConfigTopicSegments(component: string, deviceId: string, entityId: string)
    requires '/' !in component && '/' !in deviceId && '/' !in entityId
    ensures Split(ConfigTopic(component, ObjectId(deviceId, entityId)), '/')
            == ["homeassistant", component, deviceId + "_" + entityId, "config"]
  {
    ObjectIdNoSlash(deviceId, entityId);
    FourSegments("homeassistant", component, ObjectId(deviceId, entityId), "config");
  }

  /** A state topic splits into "iot_spoofer", the two ids and "state". */
  lemma StateTopicSegments(deviceId: string, entityId: string)
    requires '/' !in deviceId && '/' !in entityId
    ensures Split(StateTopic(deviceId, entityId), '/') == ["iot_spoofer", deviceId, entityId, "state"]
  {
    FourSegments("iot_spoofer", deviceId, entityId, "state");
  }

  /** A command topic splits into "iot_spoofer", the two ids and "set". */
  lemma CommandTopicSegments(deviceId: string, entityId: string)
    requires '/' !in deviceId && '/' !in entityId
    ensures Split(CommandTopic(deviceId, entityId), '/') == ["iot_spoofer", deviceId, entityId, "set"]
  {
    FourSegments("iot_spoofer", deviceId, entityId, "set");
  }

  /** Three '/'-free segments joined by '/' split back into those segments. */
  lemma ThreeSegments(a: string, b: string, c: string)
    requires '/' !in a && '/' !in b && '/' !in c
    ensures Split(a + "/" + b + "/" + c, '/') == [a, b, c]
  {
    SplitNoSep(a, '/');
    SplitSnoc(a, b, '/');
    SplitSnoc(a + "/" + b, c, '/');
  }

  /** An availability topic splits into "iot_spoofer", the device id and "availability". */
  lemma AvailabilityTopicSegments(deviceId: string)
    requires '/' !in deviceId
    ensures Split(AvailabilityTopic(deviceId), '/') == ["iot_spoofer", deviceId, "availability"]
  {
    ThreeSegments("iot_spoofer", deviceId, "availability");
  }

  // ---------------------------------------------------------------------------
  // Components and payloads

  /** The Home Assistant components an entity can be announced as. */
  datatype Component = BinarySensorComponent | SensorComponent | LightComponent | SwitchComponent | LockComponent | NumberComponent
  {
    /** The component's name, the second segment of its config topic. */
    function Name(): string {
      match this
      case BinarySensorComponent => "binary_sensor"
      case SensorComponent => "sensor"
      case LightComponent => "light"
      case SwitchComponent => "switch"
      case LockComponent => "lock"
      case NumberComponent => "number"
    }
  }

  /** `mapEntityTypeToComponent`'s table, in its declaration order. */
  const ComponentTable: seq<(string, Component)> := [
    ("binary_sensor", BinarySensorComponent),
    ("sensor", SensorComponent),
    ("light", LightComponent),
    ("switch", SwitchComponent),
    ("lock", LockComponent),
    ("number", NumberComponent)]

  /**
   * `mapEntityTypeToComponent`: the table's value for the entity type, or the sensor
   * component for a type the table lacks (the table's values are non-empty strings, so
   * `mapping[entityType] || 'sensor'` only falls back when the key is missing).
   */
  function ComponentOf(entityType: string): Component {
    match Lookup(ComponentTable, entityType)
    case Some(c) => c
    case None => SensorComponent
  }

  /** The six component names are announced as themselves, and every other type as a sensor. */
  lemma ComponentOfName(entityType: string)
    ensures ComponentOf(entityType).Name() ==
      if entityType in {"binary_sensor", "sensor", "light", "switch", "lock", "number"} then entityType else "sensor"
  {
    var t1 := ComponentTable[1..];
    var t2 := t1[1..];
    var t3 := t2[1..];
    var t4 := t3[1..];
    var t5 := t4[1..];
    assert Lookup(ComponentTable, entityType) == if entityType == "binary_sensor" then Some(BinarySensorComponent) else Lookup(t1, entityType);
    assert Lookup(t1, entityType) == if entityType == "sensor" then Some(SensorComponent) else Lookup(t2, entityType);
    assert Lookup(t2, entityType) == if entityType == "light" then Some(LightComponent) else Lookup(t3, entityType);
    assert Lookup(t3, entityType) == if entityType == "switch" then Some(SwitchComponent) else Lookup(t4, entityType);
    assert Lookup(t4, entityType) == if entityType == "lock" then Some(LockComponent) else Lookup(t5, entityType);
    assert t5[1..] == [];
    assert Lookup(t5, entityType) == if entityType == "number" then Some(NumberComponent) else None;
  }

  /** The discovery payload every component shares. */
  function BasePayload(device: Device, entity: EntityDefinition): Object {
    map["name" := JStr(entity.name),
        "unique_id" := JStr(UniqueId(device.id, entity.id)),
        "state_topic" := JStr(StateTopic(device.id, entity.id)),
        "command_topic" := JStr(CommandTopic(device.id, entity.id)),
        "device" := JObject(map["identifiers" := JArray([JStr(device.id)]),
                                "name" := JStr(device.name),
                                "manufacturer" := JStr(device.manufacturer),
                                "model" := JStr("IoT Device Spoofer"),
                                "via_device" := JStr("iot_device_spoofer")]),
        "availability" := JObject(map["topic" := JStr(AvailabilityTopic(device.id)),
                                      "payload_available" := JStr("online"),
                                      "payload_not_available" := JStr("offline")])]
  }

  /** The fixed properties each component adds to the shared payload; a sensor adds none. */
  function ComponentExtras(component: Component): Object {
    match component
    case SwitchComponent => map["payload_on" := JStr("On"), "payload_off" := JStr("Off")]
    case LightComponent => map["payload_on" := JStr("On"), "payload_off" := JStr("Off")]
    case LockComponent => map["payload_lock" := JStr("Lock"), "payload_unlock" := JStr("Unlock")]
    case NumberComponent => map["min" := JNum(0), "max" := JNum(100)]
    case BinarySensorComponent => map["payload_on" := JStr("on"), "payload_off" := JStr("off")]
    case SensorComponent => map[]
  }

  /**
   * `buildEntitySpecificPayload`: copies the base payload and sets the component's fixed
   * properties on the copy. The entity is not consulted: a number's own range is ignored.
   */
  method BuildEntitySpecificPayload(basePayload: Object, entity: EntityDefinition, component: Component)
    returns (payload: Object)
    ensures payload.Keys == basePayload.Keys + ComponentExtras(component).Keys
    ensures forall k :: k in ComponentExtras(component) ==> payload[k] == ComponentExtras(component)[k]
    ensures forall k :: k in basePayload && k !in ComponentExtras(component) ==> payload[k] == basePayload[k]
  {
    payload := basePayload;
    match component {
      case SwitchComponent =>
        payload := payload["payload_on" := JStr("On")];
        payload := payload["payload_off" := JStr("Off")];
      case LightComponent =>
        payload := payload["payload_on" := JStr("On")];
        payload := payload["payload_off" := JStr("Off")];
      case LockComponent =>
        payload := payload["payload_lock" := JStr("Lock")];
        payload := payload["payload_unlock" := JStr("Unlock")];
      case NumberComponent =>
        payload := payload["min" := JNum(0)];
        payload := payload["max" := JNum(100)];
      case BinarySensorComponent =>
        payload := payload["payload_on" := JStr("on")];
        payload := payload["payload_off" := JStr("off")];
      case SensorComponent =>
    }
  }

  /** The discovery payload published for one entity of a device. */
  function DiscoveryPayload(device: Device, entity: EntityDefinition): Object {
    BasePayload(device, entity) + ComponentExtras(ComponentOf(entity.entity_type))
  }

  /** No component's extras overwrite a shared property. */
  lemma ExtrasDisjoint(device: Device, entity: EntityDefinition, component: Component)
    ensures BasePayload(device, entity).Keys !! ComponentExtras(component).Keys
  {
  }

  /** A map that holds every key of `x` with `x`'s value and every other key of `b` with `b`'s is `b + x`. */
  lemma OverrideIs(p: Object, b: Object, x: Object)
    requires p.Keys == b.Keys + x.Keys
    requires forall k :: k in x ==> p[k] == x[k]
    requires forall k :: k in b && k !in x ==> p[k] == b[k]
    ensures p == b + x
  {
  }

  /**
   * The discovery payload keeps every shared property as it is and adds exactly the
   * component's extras; a sensor (or an unknown type) gets the shared payload alone.
   */
  lemma DiscoveryPayloadKeeps(device: Device, entity: EntityDefinition)
    ensures var p := DiscoveryPayload(device, entity);
      && p.Keys == BasePayload(device, entity).Keys + ComponentExtras(ComponentOf(entity.entity_type)).Keys
      && (forall k :: k in BasePayload(device, entity) ==> p[k] == BasePayload(device, entity)[k])
      && (ComponentOf(entity.entity_type) == SensorComponent ==> p == BasePayload(device, entity))
  {
    ExtrasDisjoint(device, entity, ComponentOf(entity.entity_type));
  }

  /** The discovery payload names the entity and carries `iot_spoofer_<deviceId>_<entityId>` as its unique id. */
  lemma DiscoveryPayloadIdentity(device: Device, entity: EntityDefinition)
    ensures var p := DiscoveryPayload(device, entity);
      && p["name"] == JStr(entity.name)
      && p["unique_id"] == JStr("iot_spoofer_" + device.id + "_" + entity.id)
  {
    DiscoveryPayloadKeeps(device, entity);
    assert "iot_spoofer_" + ObjectId(device.id, entity.id) == "iot_spoofer_" + device.id + "_" + entity.id;
  }

  /** The discovery payload carries the entity's state and command topics and the device's availability topic. */
  lemma DiscoveryPayloadTopics(device: Device, entity: EntityDefinition)
    ensures var p := DiscoveryPayload(device, entity);
      && p["state_topic"] == JStr(StateTopic(device.id, entity.id))
      && p["command_topic"] == JStr(CommandTopic(device.id, entity.id))
      && p["availability"].JObject?
      && p["availability"].fields["topic"] == JStr(AvailabilityTopic(device.id))
  {
    DiscoveryPayloadKeeps(device, entity);
  }

  // ---------------------------------------------------------------------------
  // Command handling

  /**
   * `handleMessage`'s topic test: exactly four '/'-segments, the first "iot_spoofer"
   * and the last "set"; the device and entity ids are the middle two.
   */
  function ParseCommandTopic(topic: string): (r: Option<(string, string)>)
    ensures r.Some? ==> '/' !in r.value.0 && '/' !in r.value.1
    ensures r.Some? ==> topic == CommandTopic(r.value.0, r.value.1)
  {
    var parts := Split(topic, '/');
    if |parts| == 4 && parts[0] == "iot_spoofer" && parts[3] == "set" then
      assert parts == [parts[0], parts[1], parts[2], parts[3]];
      JoinSplit(topic, '/');
      JoinFour(parts[0], parts[1], parts[2], parts[3], '/');
      Some((parts[1], parts[2]))
    else
      None
  }

  /** Every command topic of '/'-free ids parses back to those ids. */
  lemma ParseCommandTopicInverse(deviceId: string, entityId: string)
    requires '/' !in deviceId && '/' !in entityId
    ensures ParseCommandTopic(CommandTopic(deviceId, entityId)) == Some((deviceId, entityId))
  {
    CommandTopicSegments(deviceId, entityId);
  }

  /** A topic the parser accepts is one the handler can publish a state for: the topics only differ in the last segment. */
  lemma ParsedStateTopic(topic: string)
    requires ParseCommandTopic(topic).Some?
    ensures var (d, e) := ParseCommandTopic(topic).value;
      Split(StateTopic(d, e), '/') == Split(topic, '/')[3 := "state"]
  {
    var (d, e) := ParseCommandTopic(topic).value;
    StateTopicSegments(d, e);
    CommandTopicSegments(d, e);
  }

  /** A device id holding one '/' gives a command topic of five segments, which the handler ignores. */
  lemma SlashedIdIgnored(a: string, b: string, entityId: string)
    requires '/' !in a && '/' !in b && '/' !in entityId
    ensures ParseCommandTopic(CommandTopic(a + "/" + b, entityId)) == None
  {
    var tail := a + "/" + b + "/" + entityId + "/" + "set";
    assert CommandTopic(a + "/" + b, entityId) == "iot_spoofer" + "/" + tail;
    FourSegments(a, b, entityId, "set");
    SplitPrefix("iot_spoofer", tail, '/');
  }

  /** The ten keys of `normalizeStatePayload`'s table and their canonical values. */
  const StateMapping: map<string, string> := map[
    "on" := "On", "1" := "On", "true" := "On",
    "off" := "Off", "0" := "Off", "false" := "Off",
    "lock" := "Lock", "locked" := "Lock",
    "unlock" := "Unlock", "unlocked" := "Unlock"]

  /** The lower-cased, trimmed payload that the table is consulted with. */
  function Canonical(payload: string): string {
    Trim(ToLower(payload))
  }

  /** A payload whose lower case `t` has no white space at its ends has canonical form `t`. */
  lemma CanonicalOf(payload: string, t: string)
    requires |payload| == |t| && forall i :: 0 <= i < |t| ==> LowerChar(payload[i]) == t[i]
    requires t == [] || (!IsSpace(t[0]) && !IsSpace(t[|t| - 1]))
    ensures Canonical(payload) == t
  {
    assert ToLower(payload) == t;
    TrimUnchanged(t);
  }

  /** The canonical form of "On". */
  lemma CanonicalOn()
    ensures Canonical("On") == "on"
  {
    CanonicalOf("On", "on");
  }

  /** The canonical form of "Off". */
  lemma CanonicalOff()
    ensures Canonical("Off") == "off"
  {
    CanonicalOf("Off", "off");
  }

  /** The canonical form of "Lock". */
  lemma CanonicalLock()
    ensures Canonical("Lock") == "lock"
  {
    CanonicalOf("Lock", "lock");
  }

  /** The canonical form of "Unlock". */
  lemma CanonicalUnlock()
    ensures Canonical("Unlock") == "unlock"
  {
    CanonicalOf("Unlock", "unlock");
  }

  /**
   * `normalizeStatePayload`: a payload whose lower-cased, trimmed form is a key of the
   * table becomes that key's value; every other payload is returned as it came, neither
   * trimmed nor lower-cased. The table's values are non-empty strings, so the code's
   * `mapping[key] || payload` always takes the table's value for a key. What each value
   * is reached from is stated by `NormalizeOn`, `NormalizeOff`, `NormalizeLock`,
   * `NormalizeUnlock` and `NormalizeOther`.
   */
  function NormalizeStatePayload(payload: string): (r: string)
    ensures r == payload || r in {"On", "Off", "Lock", "Unlock"}
  {
    var key := Canonical(payload);
    if key in StateMapping then StateMapping[key] else payload
  }

  /** The table sends exactly on, 1 and true to "On". */
  lemma MappingOn(key: string)
    requires key in StateMapping
    ensures StateMapping[key] == "On" <==> key in {"on", "1", "true"}
  {
  }

  /** The table sends exactly off, 0 and false to "Off". */
  lemma MappingOff(key: string)
    requires key in StateMapping
    ensures StateMapping[key] == "Off" <==> key in {"off", "0", "false"}
  {
  }

  /** The table sends exactly lock and locked to "Lock". */
  lemma MappingLock(key: string)
    requires key in StateMapping
    ensures StateMapping[key] == "Lock" <==> key in {"lock", "locked"}
  {
  }

  /** The table sends exactly unlock and unlocked to "Unlock". */
  lemma MappingUnlock(key: string)
    requires key in StateMapping
    ensures StateMapping[key] == "Unlock" <==> key in {"unlock", "unlocked"}
  {
  }

  /** A payload normalises to "On" exactly when its canonical form is on, 1 or true. */
  lemma NormalizeOn(payload: string)
    ensures NormalizeStatePayload(payload) == "On" <==> Canonical(payload) in {"on", "1", "true"}
  {
    var key := Canonical(payload);
    if key in StateMapping {
      MappingOn(key);
    } else if payload == "On" {
      CanonicalOn();
      assert false;
    }
  }

  /** A payload normalises to "Off" exactly when its canonical form is off, 0 or false. */
  lemma NormalizeOff(payload: string)
    ensures NormalizeStatePayload(payload) == "Off" <==> Canonical(payload) in {"off", "0", "false"}
  {
    var key := Canonical(payload);
    if key in StateMapping {
      MappingOff(key);
    } else if payload == "Off" {
      CanonicalOff();
      assert false;
    }
  }

  /** A payload normalises to "Lock" exactly when its canonical form is lock or locked. */
  lemma NormalizeLock(payload: string)
    ensures NormalizeStatePayload(payload) == "Lock" <==> Canonical(payload) in {"lock", "locked"}
  {
    var key := Canonical(payload);
    if key in StateMapping {
      MappingLock(key);
    } else if payload == "Lock" {
      CanonicalLock();
      assert false;
    }
  }

  /** A payload normalises to "Unlock" exactly when its canonical form is unlock or unlocked. */
  lemma NormalizeUnlock(payload: string)
    ensures NormalizeStatePayload(payload) == "Unlock" <==> Canonical(payload) in {"unlock", "unlocked"}
  {
    var key := Canonical(payload);
    if key in StateMapping {
      MappingUnlock(key);
    } else if payload == "Unlock" {
      CanonicalUnlock();
      assert false;
    }
  }

  /** A payload whose canonical form is not a key passes through untouched. */
  lemma NormalizeOther(payload: string)
    requires Canonical(payload) !in StateMapping
    ensures NormalizeStatePayload(payload) == payload
  {
  }

  /** Normalising an already normalised payload changes nothing. */
  lemma NormalizeIdempotent(payload: string)
    ensures NormalizeStatePayload(NormalizeStatePayload(payload)) == NormalizeStatePayload(payload)
  {
    var r := NormalizeStatePayload(payload);
    if r == "On" {
      CanonicalOn();
      NormalizeOn(r);
    } else if r == "Off" {
      CanonicalOff();
      NormalizeOff(r);
    } else if r == "Lock" {
      CanonicalLock();
      NormalizeLock(r);
    } else if r == "Unlock" {
      CanonicalUnlock();
      NormalizeUnlock(r);
    }
  }

  /** The canonical form of "ON". */
  lemma CanonicalUpperOn()
    ensures Canonical("ON") == "on"
  {
    CanonicalOf("ON", "on");
  }

  /** "ON" normalises to "On". */
  lemma NormalizeUpperOn()
    ensures NormalizeStatePayload("ON") == "On"
  {
    CanonicalUpperOn();
    NormalizeOn("ON");
  }

  /** The canonical form of " true ": lower-casing keeps it, trimming drops the spaces. */
  lemma CanonicalPaddedTrue()
    ensures Canonical(" true ") == "true"
  {
    ToLowerUnchanged(" true ");
    assert " true " == [' '] + "true" + [' '];
    TrimPadded("true");
  }

  /** " true " is trimmed before the table is consulted, and normalises to "On". */
  lemma NormalizePaddedTrue()
    ensures NormalizeStatePayload(" true ") == "On"
  {
    CanonicalPaddedTrue();
    NormalizeOn(" true ");
  }

  /** The canonical form of "locked". */
  lemma CanonicalLocked()
    ensures Canonical("locked") == "locked"
  {
    CanonicalOf("locked", "locked");
  }

  /** "locked" normalises to "Lock". */
  lemma NormalizeLocked()
    ensures NormalizeStatePayload("locked") == "Lock"
  {
    CanonicalLocked();
    NormalizeLock("locked");
  }

  /** The canonical form of "42". */
  lemma CanonicalNumber()
    ensures Canonical("42") == "42"
  {
    CanonicalOf("42", "42");
  }

  /** "42" is not a key and passes through. */
  lemma NormalizeNumber()
    ensures NormalizeStatePayload("42") == "42"
  {
    CanonicalNumber();
    NormalizeOther("42");
  }

  /** The command topics `subscribeToCommands` subscribes to: one for every entity of every device. */
  function CommandTopics(devices: seq<Device>): (topics: seq<string>)
    ensures forall t :: t in topics <==>
              exists i, j :: 0 <= i < |devices| && 0 <= j < |devices[i].entities|
                             && t == CommandTopic(devices[i].id, devices[i].entities[j].id)
  {
    if devices == [] then []
    else EntityCommandTopics(devices[0]) + CommandTopics(devices[1..])
  }

  /** The command topics of one device's entities. */
  function EntityCommandTopics(device: Device): (topics: seq<string>)
    ensures |topics| == |device.entities|
    ensures forall j :: 0 <= j < |topics| ==> topics[j] == CommandTopic(device.id, device.entities[j].id)
  {
    seq(|device.entities|, j requires 0 <= j < |device.entities| => CommandTopic(device.id, device.entities[j].id))
  }

  // ---------------------------------------------------------------------------
  // The client and its publishes

  /** What a publish carries: literal text, or an object that is sent as `JSON.stringify(obj)`. */
  datatype Payload = Plain(text: string) | JsonText(obj: Object)

  /** One publish the broker acknowledged. All of the client's publishes use QoS 1. */
  datatype Message = Message(topic: string, payload: Payload, retain: bool)

  /** `MqttConfig`: where the client connects; only the transport reads it. */
  datatype MqttConfig = MqttConfig(host: string, port: int, username: Option<string>, password: Option<string>)

  /** How far one entity's discovery got before a publish was rejected. */
  datatype EntityOutcome = ConfigRejected | OnlineRejected | Announced

  /** The retained config publish that announces one entity. */
  function ConfigMessage(device: Device, entity: EntityDefinition): Message {
    Message(ConfigTopic(ComponentOf(entity.entity_type).Name(), ObjectId(device.id, entity.id)),
            JsonText(DiscoveryPayload(device, entity)), true)
  }

  /** The retained "online" publish to the device's availability topic. */
  function OnlineMessage(device: Device): Message {
    Message(AvailabilityTopic(device.id), Plain("online"), true)
  }

  /** The retained "offline" publish to the device's availability topic. */
  function OfflineMessage(device: Device): Message {
    Message(AvailabilityTopic(device.id), Plain("offline"), true)
  }

  /** The retained empty config publish that withdraws one entity. */
  function RemovalMessage(device: Device, entity: EntityDefinition): Message {
    Message(ConfigTopic(ComponentOf(entity.entity_type).Name(), ObjectId(device.id, entity.id)), Plain(""), true)
  }

  /** The config publishes of a sequence of the device's entities, in order. */
  function Configs(device: Device, entities: seq<EntityDefinition>): (configs: seq<Message>)
    ensures |configs| == |entities|
  {
    if entities == [] then []
    else Configs(device, entities[..|entities| - 1]) + [ConfigMessage(device, entities[|entities| - 1])]
  }

  /** The removal publishes of a sequence of the device's entities, in order. */
  function Removals(device: Device, entities: seq<EntityDefinition>): (removals: seq<Message>)
    ensures |removals| == |entities|
  {
    if entities == [] then []
    else Removals(device, entities[..|entities| - 1]) + [RemovalMessage(device, entities[|entities| - 1])]
  }

  /** The i-th config publish is the i-th entity's. */
  lemma {:induction false} ConfigsIndex(device: Device, entities: seq<EntityDefinition>, i: nat)
    requires i < |entities|
    ensures Configs(device, entities)[i] == ConfigMessage(device, entities[i])
  {
    var n := |entities| - 1;
    var prev := Configs(device, entities[..n]);
    assert Configs(device, entities) == prev + [ConfigMessage(device, entities[n])];
    if i < n {
      ConfigsIndex(device, entities[..n], i);
      assert entities[..n][i] == entities[i];
    }
  }

  /** The i-th removal publish is the i-th entity's. */
  lemma {:induction false} RemovalsIndex(device: Device, entities: seq<EntityDefinition>, i: nat)
    requires i < |entities|
    ensures Removals(device, entities)[i] == RemovalMessage(device, entities[i])
  {
    var n := |entities| - 1;
    var prev := Removals(device, entities[..n]);
    assert Removals(device, entities) == prev + [RemovalMessage(device, entities[n])];
    if i < n {
      RemovalsIndex(device, entities[..n], i);
      assert entities[..n][i] == entities[i];
    }
  }

  /** Taking one more entity appends its config publish. */
  lemma ConfigsSnoc(device: Device, entities: seq<EntityDefinition>, i: nat)
    requires i < |entities|
    ensures Configs(device, entities[..i + 1]) == Configs(device, entities[..i]) + [ConfigMessage(device, entities[i])]
  {
    assert entities[..i + 1][..i] == entities[..i];
  }

  /** Taking one more entity appends its removal publish. */
  lemma RemovalsSnoc(device: Device, entities: seq<EntityDefinition>, i: nat)
    requires i < |entities|
    ensures Removals(device, entities[..i + 1]) == Removals(device, entities[..i]) + [RemovalMessage(device, entities[i])]
  {
    assert entities[..i + 1][..i] == entities[..i];
  }

  /** The publishes one entity's discovery makes (its config, then "online"), given how far it got. */
  function EntityDiscoveryLog(config: Message, online: Message, outcome: EntityOutcome): seq<Message> {
    match outcome
    case ConfigRejected => []
    case OnlineRejected => [config]
    case Announced => [config, online]
  }

  /** The publishes discovery makes for a sequence of entity configs, one outcome per entity. */
  function DiscoveryLog(configs: seq<Message>, online: Message, outcomes: seq<EntityOutcome>): seq<Message>
    requires |outcomes| == |configs|
  {
    if configs == [] then []
    else DiscoveryLog(configs[..|configs| - 1], online, outcomes[..|outcomes| - 1])
         + EntityDiscoveryLog(configs[|configs| - 1], online, outcomes[|outcomes| - 1])
  }

  /** The removal publishes the broker acknowledged, one acknowledgement per entity. */
  function RemovalLog(removals: seq<Message>, acked: seq<bool>): seq<Message>
    requires |acked| == |removals|
  {
    if removals == [] then []
    else
      RemovalLog(removals[..|removals| - 1], acked[..|acked| - 1])
      + (if acked[|acked| - 1] then [removals[|removals| - 1]] else [])
  }

  /** Concatenation of logs is associative. */
  lemma AppendAssoc(a: seq<Message>, b: seq<Message>, c: seq<Message>)
    ensures (a + b) + c == a + (b + c)
  {
  }

  /** Discovering one more entity extends the log by that entity's publishes. */
  lemma DiscoveryLogSnoc(configs: seq<Message>, config: Message, online: Message,
                         outcomes: seq<EntityOutcome>, outcome: EntityOutcome)
    requires |outcomes| == |configs|
    ensures DiscoveryLog(configs + [config], online, outcomes + [outcome])
            == DiscoveryLog(configs, online, outcomes) + EntityDiscoveryLog(config, online, outcome)
  {
    assert (configs + [config])[..|configs|] == configs;
    assert (outcomes + [outcome])[..|outcomes|] == outcomes;
  }

  /** Removing one more entity extends the log by its removal when that was acknowledged. */
  lemma RemovalLogSnoc(removals: seq<Message>, removal: Message, acked: seq<bool>, a: bool)
    requires |acked| == |removals|
    ensures RemovalLog(removals + [removal], acked + [a])
            == RemovalLog(removals, acked) + (if a then [removal] else [])
  {
    assert (removals + [removal])[..|removals|] == removals;
    assert (acked + [a])[..|acked|] == acked;
  }

  /** Every outcome is `Announced`. */
  predicate AllAnnounced(outcomes: seq<EntityOutcome>) {
    forall i :: 0 <= i < |outcomes| ==> outcomes[i] == Announced
  }

  /**
   * When the broker acknowledges everything, discovery publishes each entity's config
   * and then "online", entity by entity; so a device with entities ends on "online".
   */
  lemma {:induction false} DiscoveryLogAllAnnounced(configs: seq<Message>, online: Message, outcomes: seq<EntityOutcome>)
    requires |outcomes| == |configs| && AllAnnounced(outcomes)
    ensures |DiscoveryLog(configs, online, outcomes)| == 2 * |configs|
    ensures forall i :: 0 <= i < |configs| ==>
              DiscoveryLog(configs, online, outcomes)[2 * i] == configs[i]
              && DiscoveryLog(configs, online, outcomes)[2 * i + 1] == online
  {
    if configs != [] {
      var n := |configs| - 1;
      var prev := DiscoveryLog(configs[..n], online, outcomes[..n]);
      DiscoveryLogAllAnnounced(configs[..n], online, outcomes[..n]);
      assert outcomes[n] == Announced;
      var log := prev + [configs[n], online];
      assert DiscoveryLog(configs, online, outcomes) == log;
      forall i | 0 <= i < n
        ensures log[2 * i] == configs[i] && log[2 * i + 1] == online
      {
        assert configs[..n][i] == configs[i];
      }
    }
  }

  /**
   * Whatever the broker rejects, discovery only publishes configs of the entities and
   * "online", and one entity's rejection does not stop the later entities' configs: the
   * last entity's config is published unless that very publish is rejected.
   */
  lemma {:induction false} DiscoveryLogShape(configs: seq<Message>, online: Message, outcomes: seq<EntityOutcome>)
    requires |outcomes| == |configs|
    ensures forall p :: p in DiscoveryLog(configs, online, outcomes) ==> p == online || p in configs
    ensures |configs| > 0 && outcomes[|configs| - 1] != ConfigRejected ==>
              configs[|configs| - 1] in DiscoveryLog(configs, online, outcomes)
  {
    if configs != [] {
      var n := |configs| - 1;
      var prev := DiscoveryLog(configs[..n], online, outcomes[..n]);
      DiscoveryLogShape(configs[..n], online, outcomes[..n]);
      assert DiscoveryLog(configs, online, outcomes) == prev + EntityDiscoveryLog(configs[n], online, outcomes[n]);
      assert forall p :: p in configs[..n] ==> p in configs;
    }
  }

  /** Every publish of a device's discovery is retained, and is one of its configs or its "online". */
  lemma DeviceDiscoveryRetained(device: Device, outcomes: seq<EntityOutcome>)
    requires |outcomes| == |device.entities|
    ensures forall p :: p in DiscoveryLog(Configs(device, device.entities), OnlineMessage(device), outcomes) ==>
              p.retain
              && (p == OnlineMessage(device)
                  || exists j :: 0 <= j < |device.entities| && p == ConfigMessage(device, device.entities[j]))
  {
    var configs := Configs(device, device.entities);
    DiscoveryLogShape(configs, OnlineMessage(device), outcomes);
    forall p | p in DiscoveryLog(configs, OnlineMessage(device), outcomes) && p != OnlineMessage(device)
      ensures p.retain
      ensures exists j :: 0 <= j < |device.entities| && p == ConfigMessage(device, device.entities[j])
    {
      var j :| 0 <= j < |configs| && configs[j] == p;
      ConfigsIndex(device, device.entities, j);
    }
  }

  /** There are at most as many acknowledged removals as requested ones, and each is one of them. */
  lemma {:induction false} RemovalLogShape(removals: seq<Message>, acked: seq<bool>)
    requires |acked| == |removals|
    ensures |RemovalLog(removals, acked)| <= |removals|
    ensures forall p :: p in RemovalLog(removals, acked) ==> p in removals
  {
    if removals != [] {
      var n := |removals| - 1;
      RemovalLogShape(removals[..n], acked[..n]);
      assert forall p :: p in removals[..n] ==> p in removals;
    }
  }

  /** When the broker acknowledges everything, removal publishes exactly the requested removals, in order. */
  lemma {:induction false} RemovalLogAllAcked(removals: seq<Message>, acked: seq<bool>)
    requires |acked| == |removals| && forall i :: 0 <= i < |acked| ==> acked[i]
    ensures RemovalLog(removals, acked) == removals
  {
    if removals != [] {
      var n := |removals| - 1;
      RemovalLogAllAcked(removals[..n], acked[..n]);
      assert removals[..n] + [removals[n]] == removals;
    }
  }

  /** The publishes one entity's discovery attempts: its config, then "online" unless the config was rejected. */
  function EntityDiscoveryAttempts(config: Message, online: Message, outcome: EntityOutcome): seq<Message> {
    if outcome == ConfigRejected then [config] else [config, online]
  }

  /** The publishes discovery attempts for a sequence of entity configs, one outcome per entity. */
  function DiscoveryAttempts(configs: seq<Message>, online: Message, outcomes: seq<EntityOutcome>): seq<Message>
    requires |outcomes| == |configs|
  {
    if configs == [] then []
    else DiscoveryAttempts(configs[..|configs| - 1], online, outcomes[..|outcomes| - 1])
         + EntityDiscoveryAttempts(configs[|configs| - 1], online, outcomes[|outcomes| - 1])
  }

  /** The number of publishes the discovery of entities with these outcomes attempts. */
  function AttemptCount(outcomes: seq<EntityOutcome>): nat {
    if outcomes == [] then 0
    else AttemptCount(outcomes[..|outcomes| - 1]) + (if outcomes[|outcomes| - 1] == ConfigRejected then 1 else 2)
  }

  /** One more entity adds one attempt for a rejected config and two otherwise. */
  lemma AttemptCountSnoc(outcomes: seq<EntityOutcome>, k: nat)
    requires k < |outcomes|
    ensures AttemptCount(outcomes[..k + 1]) == AttemptCount(outcomes[..k]) + (if outcomes[k] == ConfigRejected then 1 else 2)
  {
    assert outcomes[..k + 1][..k] == outcomes[..k];
  }

  /** Later entities' attempts start strictly later. */
  lemma {:induction false} AttemptCountIncreasing(outcomes: seq<EntityOutcome>, i: nat, j: nat)
    requires i < j <= |outcomes|
    ensures AttemptCount(outcomes[..i]) < AttemptCount(outcomes[..j])
  {
    AttemptCountSnoc(outcomes, j - 1);
    if i < j - 1 {
      AttemptCountIncreasing(outcomes, i, j - 1);
    }
  }

  /** Discovering one more entity extends the attempts by that entity's. */
  lemma DiscoveryAttemptsSnoc(configs: seq<Message>, config: Message, online: Message,
                              outcomes: seq<EntityOutcome>, outcome: EntityOutcome)
    requires |outcomes| == |configs|
    ensures DiscoveryAttempts(configs + [config], online, outcomes + [outcome])
            == DiscoveryAttempts(configs, online, outcomes) + EntityDiscoveryAttempts(config, online, outcome)
  {
    assert (configs + [config])[..|configs|] == configs;
    assert (outcomes + [outcome])[..|outcomes|] == outcomes;
  }

  /** Discovery attempts one publish per entity whose config was rejected and two per other entity. */
  lemma {:induction false} DiscoveryAttemptsLength(configs: seq<Message>, online: Message, outcomes: seq<EntityOutcome>)
    requires |outcomes| == |configs|
    ensures |DiscoveryAttempts(configs, online, outcomes)| == AttemptCount(outcomes)
  {
    if configs != [] {
      var n := |configs| - 1;
      DiscoveryAttemptsLength(configs[..n], online, outcomes[..n]);
    }
  }

  /**
   * Whatever the broker rejects, discovery attempts the i-th entity's config at position
   * `AttemptCount(outcomes[..i])`, and right after it "online" unless that config was
   * rejected. Those positions grow with i (`AttemptCountIncreasing`), so every config is
   * attempted, in entity order.
   */
  lemma {:induction false} DiscoveryAttemptsAt(configs: seq<Message>, online: Message, outcomes: seq<EntityOutcome>, i: nat)
    requires |outcomes| == |configs| && i < |configs|
    ensures AttemptCount(outcomes[..i]) < |DiscoveryAttempts(configs, online, outcomes)|
    ensures DiscoveryAttempts(configs, online, outcomes)[AttemptCount(outcomes[..i])] == configs[i]
    ensures outcomes[i] != ConfigRejected ==>
              AttemptCount(outcomes[..i]) + 1 < |DiscoveryAttempts(configs, online, outcomes)|
              && DiscoveryAttempts(configs, online, outcomes)[AttemptCount(outcomes[..i]) + 1] == online
  {
    var n := |configs| - 1;
    var prev := DiscoveryAttempts(configs[..n], online, outcomes[..n]);
    var all := prev + EntityDiscoveryAttempts(configs[n], online, outcomes[n]);
    assert DiscoveryAttempts(configs, online, outcomes) == all;
    if i == n {
      DiscoveryAttemptsLength(configs[..n], online, outcomes[..n]);
    } else {
      DiscoveryAttemptsAt(configs[..n], online, outcomes[..n], i);
      assert outcomes[..n][..i] == outcomes[..i];
      assert configs[..n][i] == configs[i];
      assert outcomes[..n][i] == outcomes[i];
    }
  }

  /** Every entity of the device has its config attempted, whatever the broker rejects. */
  lemma DeviceDiscoveryAttemptsEvery(device: Device, outcomes: seq<EntityOutcome>, i: nat)
    requires |outcomes| == |device.entities| && i < |device.entities|
    ensures AttemptCount(outcomes[..i]) < |DiscoveryAttempts(Configs(device, device.entities), OnlineMessage(device), outcomes)|
    ensures DiscoveryAttempts(Configs(device, device.entities), OnlineMessage(device), outcomes)[AttemptCount(outcomes[..i])]
            == ConfigMessage(device, device.entities[i])
  {
    DiscoveryAttemptsAt(Configs(device, device.entities), OnlineMessage(device), outcomes, i);
    ConfigsIndex(device, device.entities, i);
  }

  /** The retained publish of a state to an entity's state topic. */
  function StateMessage(deviceId: string, entityId: string, state: string): Message {
    Message(StateTopic(deviceId, entityId), Plain(state), true)
  }

  /**
   * `MqttClient`. `connected` is the transport's connection state (set by the
   * transport, which is not modelled). `attempts` holds every publish the client
   * handed to the broker while connected, and `log` the ones the broker acknowledged.
   */
  class Client {
    const config: MqttConfig
    var connected: bool
    var hasCommandHandler: bool
    ghost var attempts: seq<Message>
    var log: seq<Message>

    /** `new MqttClient(config)`: not connected, no command handler, nothing published. */
    constructor(config: MqttConfig)
      ensures this.config == config
      ensures !connected && !hasCommandHandler && attempts == [] && log == []
    {
      this.config := config;
      connected := false;
      hasCommandHandler := false;
      attempts := [];
      log := [];
    }

    /** `setCommandHandler`: registers the external command callback. */
    method SetCommandHandler()
      modifies this`hasCommandHandler
      ensures hasCommandHandler
    {
      hasCommandHandler := true;
    }

    /**
     * `publish`: rejected at once when not connected; otherwise the message goes to the
     * broker, which may acknowledge or reject it, and only an acknowledged publish is logged.
     */
    method Publish(topic: string, payload: Payload, retain: bool) returns (acked: bool)
      modifies this`attempts, this`log
      ensures attempts == if connected then old(attempts) + [Message(topic, payload, retain)] else old(attempts)
      ensures acked ==> connected
      ensures log == if acked then old(log) + [Message(topic, payload, retain)] else old(log)
    {
      if !connected {
        return false;
      }
      attempts := attempts + [Message(topic, payload, retain)];
      acked := *;
      if acked {
        log := log + [Message(topic, payload, retain)];
      }
    }

    /**
     * `publishEntityDiscovery`: publishes the entity's config and then "online" to the
     * device's availability topic; a rejection is caught, and a rejected config skips
     * the "online".
     */
    method PublishEntityDiscovery(device: Device, entity: EntityDefinition) returns (ghost outcome: EntityOutcome)
      modifies this`attempts, this`log
      ensures !connected ==> outcome == ConfigRejected
      ensures attempts == old(attempts) + (if connected then EntityDiscoveryAttempts(ConfigMessage(device, entity), OnlineMessage(device), outcome) else [])
      ensures log == old(log) + EntityDiscoveryLog(ConfigMessage(device, entity), OnlineMessage(device), outcome)
    {
      var component := ComponentOf(entity.entity_type);
      var objectId := ObjectId(device.id, entity.id);
      var configTopic := ConfigTopic(component.Name(), objectId);
      var basePayload := BasePayload(device, entity);
      var discoveryPayload := BuildEntitySpecificPayload(basePayload, entity, component);
      OverrideIs(discoveryPayload, basePayload, ComponentExtras(component));
      var ok := Publish(configTopic, JsonText(discoveryPayload), true);
      if !ok {
        return ConfigRejected;
      }
      ok := Publish(AvailabilityTopic(device.id), Plain("online"), true);
      outcome := if ok then Announced else OnlineRejected;
    }

    /**
     * `publishDiscovery`: skipped when not connected; otherwise each entity's discovery
     * in order, each one's failure caught on its own, so every entity's config is
     * attempted (`DeviceDiscoveryAttemptsEvery`).
     */
    method PublishDiscovery(device: Device) returns (ghost outcomes: seq<EntityOutcome>)
      modifies this`attempts, this`log
      ensures !connected ==> attempts == old(attempts) && log == old(log)
      ensures connected ==> |outcomes| == |device.entities|
      ensures connected ==> attempts == old(attempts) + DiscoveryAttempts(Configs(device, device.entities), OnlineMessage(device), outcomes)
      ensures connected ==> log == old(log) + DiscoveryLog(Configs(device, device.entities), OnlineMessage(device), outcomes)
    {
      outcomes := [];
      if !connected {
        return;
      }
      for i := 0 to |device.entities|
        invariant |outcomes| == i
        invariant attempts == old(attempts) + DiscoveryAttempts(Configs(device, device.entities[..i]), OnlineMessage(device), outcomes)
        invariant log == old(log) + DiscoveryLog(Configs(device, device.entities[..i]), OnlineMessage(device), outcomes)
      {
        var outcome := PublishEntityDiscovery(device, device.entities[i]);
        ghost var done := Configs(device, device.entities[..i]);
        ghost var config := ConfigMessage(device, device.entities[i]);
        ConfigsSnoc(device, device.entities, i);
        DiscoveryAttemptsSnoc(done, config, OnlineMessage(device), outcomes, outcome);
        DiscoveryLogSnoc(done, config, OnlineMessage(device), outcomes, outcome);
        AppendAssoc(old(attempts), DiscoveryAttempts(done, OnlineMessage(device), outcomes), EntityDiscoveryAttempts(config, OnlineMessage(device), outcome));
        AppendAssoc(old(log), DiscoveryLog(done, OnlineMessage(device), outcomes), EntityDiscoveryLog(config, OnlineMessage(device), outcome));
        outcomes := outcomes + [outcome];
      }
      assert device.entities[..|device.entities|] == device.entities;
    }

    /** `removeEntityDiscovery`: publishes an empty config for the entity; a rejection is caught. */
    method RemoveEntityDiscovery(device: Device, entity: EntityDefinition) returns (ghost acked: bool)
      modifies this`attempts, this`log
      ensures acked ==> connected
      ensures attempts == old(attempts) + (if connected then [RemovalMessage(device, entity)] else [])
      ensures log == old(log) + (if acked then [RemovalMessage(device, entity)] else [])
    {
      var component := ComponentOf(entity.entity_type);
      var objectId := ObjectId(device.id, entity.id);
      var configTopic := ConfigTopic(component.Name(), objectId);
      acked := Publish(configTopic, Plain(""), true);
    }

    /**
     * `removeDiscovery`: skipped when not connected; otherwise an empty config per entity,
     * each rejection caught, then "offline" to the availability topic. A rejected
     * "offline" is not caught: the call fails (`ok` false).
     */
    method RemoveDiscovery(device: Device) returns (ok: bool, ghost acked: seq<bool>)
      modifies this`attempts, this`log
      ensures !connected ==> ok && attempts == old(attempts) && log == old(log)
      ensures connected ==> |acked| == |device.entities|
      ensures connected ==> attempts == old(attempts) + Removals(device, device.entities) + [OfflineMessage(device)]
      ensures connected ==> log == old(log) + RemovalLog(Removals(device, device.entities), acked)
                                   + (if ok then [OfflineMessage(device)] else [])
    {
      acked := [];
      if !connected {
        return true, acked;
      }
      for i := 0 to |device.entities|
        invariant |acked| == i
        invariant attempts == old(attempts) + Removals(device, device.entities[..i])
        invariant log == old(log) + RemovalLog(Removals(device, device.entities[..i]), acked)
      {
        var a := RemoveEntityDiscovery(device, device.entities[i]);
        ghost var done := Removals(device, device.entities[..i]);
        ghost var removal := RemovalMessage(device, device.entities[i]);
        RemovalsSnoc(device, device.entities, i);
        RemovalLogSnoc(done, removal, acked, a);
        AppendAssoc(old(attempts), done, [removal]);
        AppendAssoc(old(log), RemovalLog(done, acked), if a then [removal] else []);
        acked := acked + [a];
      }
      assert device.entities[..|device.entities|] == device.entities;
      ok := Publish(AvailabilityTopic(device.id), Plain("offline"), true);
    }

    /**
     * `handleMessage`: on a command topic, runs the command handler when one is set; unless
     * the handler fails, it then publishes the normalised payload, retained, to the entity's
     * state topic. A failing handler or a rejected publish is caught. Any other topic
     * publishes nothing.
     */
    method HandleMessage(topic: string, payload: string) returns (ghost handlerFailed: bool, ghost published: bool)
      modifies this`attempts, this`log
      ensures handlerFailed ==> hasCommandHandler && ParseCommandTopic(topic).Some?
      ensures attempts == if ParseCommandTopic(topic).Some? && !handlerFailed && connected
                          then old(attempts) + [StateMessage(ParseCommandTopic(topic).value.0, ParseCommandTopic(topic).value.1,
                                                             NormalizeStatePayload(payload))]
                          else old(attempts)
      ensures published ==> ParseCommandTopic(topic).Some? && !handlerFailed && connected
      ensures log == if published
                     then old(log) + [StateMessage(ParseCommandTopic(topic).value.0, ParseCommandTopic(topic).value.1,
                                                   NormalizeStatePayload(payload))]
                     else old(log)
    {
      handlerFailed, published := false, false;
      var parsed := ParseCommandTopic(topic);
      if parsed.None? {
        return;
      }
      var (deviceId, entityId) := parsed.value;
      if hasCommandHandler {
        // The external callback may reject.
        var handlerOk: bool := *;
        if !handlerOk {
          handlerFailed := true;
          return;
        }
      }
      var stateValue := NormalizeStatePayload(payload);
      var stateTopic := StateTopic(deviceId, entityId);
      published := Publish(stateTopic, Plain(stateValue), true);
    }

    /** `publishState`: publishes the state, retained, to the entity's state topic; a rejection fails the call. */
    method PublishState(deviceId: string, entityId: string, state: string) returns (ok: bool)
      modifies this`attempts, this`log
      ensures ok ==> connected
      ensures attempts == old(attempts) + (if connected then [StateMessage(deviceId, entityId, state)] else [])
      ensures log == old(log) + (if ok then [StateMessage(deviceId, entityId, state)] else [])
    {
      ok := Publish(StateTopic(deviceId, entityId), Plain(state), true);
    }
  }
}

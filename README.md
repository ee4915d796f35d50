# IoT Device Spoofer — a Dafny model of its backend core

IoT Device Spoofer is a Home Assistant add-on for defining virtual IoT devices. Each device
has entities: binary sensors, lights, locks, numbers and switches. The add-on keeps the
devices in one JSON file and announces each entity to an MQTT broker under Home Assistant's
MQTT Discovery convention. When a command arrives on an entity's command topic, the add-on
normalises the payload and publishes it back as the entity's state.

This project models three parts of the backend and proves what they promise.

- **Entity model and factory** (`BaseEntity`, `BinarySensorEntity`, `LightEntity`,
  `LockEntity`, `NumberEntity`, `SwitchEntity`, `EntityFactory`).
  - The concrete entity classes are one closed tagged union.
  - Each constructor overwrites the `type` tag, and each `toJSON` projects a fixed set of
    fields. JavaScript `undefined` is kept as a present property holding `JUndefined`.
  - The factory dispatches on the six-key registry, where "sensor" is built by the light
    class.
  - Entities are never changed after they are built, so they are values, not objects.
- **Device store** (`DeviceStore`).
  - The data file is the `file` field of a `Store` object; a missing file is `None`.
  - `saves` counts `saveDevices` calls, so "saves anyway" and "saves nothing" can be stated.
  - `getDevices` only reads, creating a missing file; `saveDevices` only writes.
    `addDevice` and `deleteDevice` read the whole list, change it and write it back;
    `updateDevice` does so only when some device has the id.
- **MQTT client** (`MqttClient`, with `Text` for the string functions it uses).
  - Discovery topics and payloads, the component map, the command-topic parser and state
    normalisation are functions.
  - `Client` is a class with two publish logs. `attempts` (ghost) holds every publish the
    client hands to the broker while connected, and `log` holds those the broker acknowledged.
  - Whether the broker acknowledges a publish is an unconstrained choice at each call, and
    so is whether the command handler succeeds. The methods return, as ghost values, what
    happened: per entity in the loops, and whether the handler failed in `handleMessage`.
  - The attempts do not depend on those answers beyond what the code's `try`/`catch`
    implies: discovery attempts every entity's config, removal attempts every entity's
    removal and then "offline", and a command whose handler does not fail attempts its state
    publish. The acknowledged log is stated as a function of the same answers.

Three behaviours of the code are worth stating plainly, since the model keeps them:

- `publishEntityDiscovery` publishes "online" after every entity's config, inside that
  entity's `try`, not once after all configs. With entities, discovery still ends on
  "online" when nothing is rejected (`DiscoveryLogAllAnnounced`).
- The store does not generate ids, does not default the manufacturer, and lets a patch
  overwrite `id` and `manufacturer` (`Merge`).
- "sensor" and "light" definitions both become light entities (`SensorBecomesLight`).

## Model

| member | source | states |
|---|---|---|
| BaseEntity.NewBase | IoT_Device_Spoofer/backend/src/entities/baseEntity.ts:24-31 | the constructor copies all six definition fields unchanged; an absent `command_topic` or `states` stays absent |
| BaseEntity.BaseRoundTrip | IoT_Device_Spoofer/backend/src/entities/baseEntity.ts:13-31 | rebuilding a base entity from its own fields gives the same entity, so every field comes from the definition |
| BaseEntity.FromJson | IoT_Device_Spoofer/backend/src/entities/baseEntity.ts:35-37 | the base `fromJSON` always fails with "fromJSON must be implemented in subclasses" |
| BinarySensorEntity.New | IoT_Device_Spoofer/backend/src/entities/binarySensorEntity.ts:7-11 | the type becomes "binary_sensor" whatever the definition said; the other fields, unit and device class are kept as given |
| BinarySensorEntity.ToJson | IoT_Device_Spoofer/backend/src/entities/binarySensorEntity.ts:13-21 | the properties are exactly id, type, state_topic, unit and device_class |
| BinarySensorEntity.FromJson | IoT_Device_Spoofer/backend/src/entities/binarySensorEntity.ts:23-25 | builds from the record alone: unit and device_class are undefined |
| BinarySensorEntity.ToJsonOfNew | IoT_Device_Spoofer/backend/src/entities/binarySensorEntity.ts:7-21 | the unit and device class given to the constructor appear unchanged in `toJSON`, next to the definition's id and state topic |
| BinarySensorEntity.ReadsBackOwn | IoT_Device_Spoofer/backend/src/entities/binarySensorEntity.ts:13-21 | an entity's own record agrees with every definition property its `toJSON` carries |
| BinarySensorEntity.RoundTrip | IoT_Device_Spoofer/backend/src/entities/binarySensorEntity.ts:13-25 | `fromJSON(e.toJSON()).toJSON()` equals `e.toJSON()` if and only if unit and device_class were undefined |
| LightEntity.New | IoT_Device_Spoofer/backend/src/entities/lightEntity.ts:4-6 | the type becomes "light" whatever the definition said, "sensor" included; other fields are kept |
| LightEntity.ToJson | IoT_Device_Spoofer/backend/src/entities/lightEntity.ts:8-15 | the properties are exactly id, type, state_topic and command_topic, with type "light" |
| LightEntity.FromJson | IoT_Device_Spoofer/backend/src/entities/lightEntity.ts:17-19 | builds a light from the record, tag overwritten |
| LightEntity.ToJsonOfNew | IoT_Device_Spoofer/backend/src/entities/lightEntity.ts:4-15 | `toJSON` of a fresh light carries the definition's id, state and command topics and type "light"; name and states are dropped |
| LightEntity.ReadsBackOwn | IoT_Device_Spoofer/backend/src/entities/lightEntity.ts:8-15 | an entity's own record agrees with every definition property its `toJSON` carries |
| LightEntity.RoundTrip | IoT_Device_Spoofer/backend/src/entities/lightEntity.ts:8-19 | re-serialisation is stable: any record read back from `toJSON` rebuilds an entity with the same `toJSON` |
| LockEntity.New | IoT_Device_Spoofer/backend/src/entities/lockEntity.ts:4-6 | the type becomes "lock" whatever the definition said; other fields are kept |
| LockEntity.ToJson | IoT_Device_Spoofer/backend/src/entities/lockEntity.ts:8-15 | the properties are exactly id, type, state_topic and command_topic, with type "lock" |
| LockEntity.FromJson | IoT_Device_Spoofer/backend/src/entities/lockEntity.ts:17-19 | builds a lock from the record, tag overwritten |
| LockEntity.ToJsonOfNew | IoT_Device_Spoofer/backend/src/entities/lockEntity.ts:4-15 | `toJSON` of a fresh lock carries the definition's id, state and command topics and type "lock"; name and states are dropped |
| LockEntity.ReadsBackOwn | IoT_Device_Spoofer/backend/src/entities/lockEntity.ts:8-15 | an entity's own record agrees with every definition property its `toJSON` carries |
| LockEntity.RoundTrip | IoT_Device_Spoofer/backend/src/entities/lockEntity.ts:8-19 | re-serialisation is stable: any record read back from `toJSON` rebuilds an entity with the same `toJSON` |
| NumberEntity.New | IoT_Device_Spoofer/backend/src/entities/numberEntity.ts:8-18 | the type becomes "number" whatever the definition said; other fields, min, max and unit are kept as given |
| NumberEntity.ToJson | IoT_Device_Spoofer/backend/src/entities/numberEntity.ts:20-31 | the properties are exactly id, type, name, state_topic, command_topic, min, max and unit; states is dropped |
| NumberEntity.FromJson | IoT_Device_Spoofer/backend/src/entities/numberEntity.ts:33-35 | builds from the record alone: min, max and unit are undefined |
| NumberEntity.ToJsonOfNew | IoT_Device_Spoofer/backend/src/entities/numberEntity.ts:8-31 | min, max and unit given to the constructor appear unchanged in `toJSON` |
| NumberEntity.ReadsBackOwn | IoT_Device_Spoofer/backend/src/entities/numberEntity.ts:20-31 | an entity's own record agrees with every definition property its `toJSON` carries |
| NumberEntity.RoundTrip | IoT_Device_Spoofer/backend/src/entities/numberEntity.ts:20-35 | `fromJSON(e.toJSON()).toJSON()` equals `e.toJSON()` if and only if min, max and unit were undefined |
| SwitchEntity.New | IoT_Device_Spoofer/backend/src/entities/switchEntity.ts:4-6 | the type becomes "switch" whatever the definition said; other fields are kept |
| SwitchEntity.ToJson | IoT_Device_Spoofer/backend/src/entities/switchEntity.ts:8-15 | the properties are exactly id, type, state_topic and command_topic, with type "switch" |
| SwitchEntity.FromJson | IoT_Device_Spoofer/backend/src/entities/switchEntity.ts:17-19 | builds a switch from the record, tag overwritten |
| SwitchEntity.ToJsonOfNew | IoT_Device_Spoofer/backend/src/entities/switchEntity.ts:4-15 | `toJSON` of a fresh switch is exactly {id, type "switch", state_topic, command_topic} from the definition |
| SwitchEntity.ReadsBackOwn | IoT_Device_Spoofer/backend/src/entities/switchEntity.ts:8-15 | an entity's own record agrees with every definition property its `toJSON` carries |
| SwitchEntity.RoundTrip | IoT_Device_Spoofer/backend/src/entities/switchEntity.ts:8-19 | re-serialisation is stable: any record read back from `toJSON` rebuilds an entity with the same `toJSON` |
| Table.Keys | IoT_Device_Spoofer/backend/src/factories/entityFactory.ts:27 | `Object.keys`: the table's keys, one per entry, in declaration order |
| Table.Lookup | IoT_Device_Spoofer/backend/src/factories/entityFactory.ts:18-19 | property lookup on an object literal (the registry here, the component map in the client): the first entry's value for the key, or nothing; its meaning is stated by `LookupFindsKeys` |
| Table.LookupFindsKeys | IoT_Device_Spoofer/backend/src/factories/entityFactory.ts:18-19 | a lookup succeeds exactly for the table's keys, and then gives that key's value |
| EntityFactory.RegistryTable | IoT_Device_Spoofer/backend/src/factories/entityFactory.ts:8-15 | the registry's lookup table, "sensor" giving the light class, every other key missing |
| EntityFactory.FromJson | IoT_Device_Spoofer/backend/src/factories/entityFactory.ts:23 | each class's `fromJSON` builds an entity of that very class, carrying the definition's fields under the class's tag; a binary sensor's unit and device class and a number's min, max and unit are undefined |
| EntityFactory.GetAvailableEntityTypes | IoT_Device_Spoofer/backend/src/factories/entityFactory.ts:26-28 | exactly binary_sensor, sensor, lock, light, number, switch, in that order |
| EntityFactory.CreateEntity | IoT_Device_Spoofer/backend/src/factories/entityFactory.ts:17-24 | succeeds exactly for the six registered types, else fails with "Unknown entity type: <type>"; the result's tag is the type, with "sensor" becoming "light", and its other fields are the definition's |
| EntityFactory.AvailableTypesAreAccepted | IoT_Device_Spoofer/backend/src/factories/entityFactory.ts:8-28 | every type the factory advertises is accepted by `createEntity` |
| EntityFactory.SensorBecomesLight | IoT_Device_Spoofer/backend/src/factories/entityFactory.ts:10 | a "sensor" definition is built as a light and tagged "light" |
| EntityFactory.NeverTaggedSensor | IoT_Device_Spoofer/backend/src/factories/entityFactory.ts:8-15 | a created entity's type is one of binary_sensor, lock, light, number, switch, never "sensor" |
| EntityFactory.ToJson | IoT_Device_Spoofer/backend/src/entities/baseEntity.ts:33 | every concrete class supplies `toJSON`; each carries id, state_topic and the class tag, and none carries states |
| EntityFactory.CreatedEntitySchema | IoT_Device_Spoofer/backend/src/factories/entityFactory.ts:17-24 | serialising a created entity gives exactly its class's property set, with the registry-mapped type |
| DeviceStore.Merge | IoT_Device_Spoofer/backend/src/storage/deviceStore.ts:51 | the shallow merge takes each field from the patch when the patch names it, otherwise from the old device |
| DeviceStore.MergeEmpty | IoT_Device_Spoofer/backend/src/storage/deviceStore.ts:51 | an empty patch leaves the device as it was |
| DeviceStore.WithoutId | IoT_Device_Spoofer/backend/src/storage/deviceStore.ts:58 | the filter keeps no device with the id, keeps only stored devices, and never grows |
| DeviceStore.WithoutIdMembers | IoT_Device_Spoofer/backend/src/storage/deviceStore.ts:58 | a device survives the filter if and only if it was stored and its id differs |
| DeviceStore.WithoutIdAppend | IoT_Device_Spoofer/backend/src/storage/deviceStore.ts:58 | the filter distributes over concatenation, so survivors keep their relative order |
| DeviceStore.WithoutAbsentId | IoT_Device_Spoofer/backend/src/storage/deviceStore.ts:56-60 | deleting an id no device has leaves the list unchanged |
| DeviceStore.WithoutPresentId | IoT_Device_Spoofer/backend/src/storage/deviceStore.ts:58 | deleting a present id removes at least one device |
| DeviceStore.FindIndex | IoT_Device_Spoofer/backend/src/storage/deviceStore.ts:48 | `findIndex`: -1 exactly when no device has the id, otherwise the first index holding it |
| DeviceStore.Store.constructor | IoT_Device_Spoofer/backend/src/storage/deviceStore.ts:5-6 | a store over the data file as found, with no saves yet |
| DeviceStore.Store.EnsureDataFile | IoT_Device_Spoofer/backend/src/storage/deviceStore.ts:15-23 | a missing file is created holding `[]`; an existing file is untouched |
| DeviceStore.Store.GetDevices | IoT_Device_Spoofer/backend/src/storage/deviceStore.ts:25-29 | returns the stored list, `[]` for a missing file, which is then created |
| DeviceStore.Store.SaveDevices | IoT_Device_Spoofer/backend/src/storage/deviceStore.ts:31-38 | the file holds exactly the given list afterwards, and one save is counted |
| DeviceStore.Store.AddDevice | IoT_Device_Spoofer/backend/src/storage/deviceStore.ts:40-44 | the stored list becomes the old one with the device appended, and is saved |
| DeviceStore.Store.UpdateDevice | IoT_Device_Spoofer/backend/src/storage/deviceStore.ts:46-54 | true exactly when some device has the id; then only the first such device is replaced by the merge and the list is saved; otherwise false, with the list unchanged and no save |
| DeviceStore.Store.DeleteDevice | IoT_Device_Spoofer/backend/src/storage/deviceStore.ts:56-60 | the stored list becomes the devices whose id differs, and it is saved even when nothing matched |
| DeviceStore.SaveThenGet | IoT_Device_Spoofer/backend/src/storage/deviceStore.ts:25-38 | `saveDevices(s)` followed by `getDevices()` returns `s` |
| DeviceStore.GetFromMissingFile | IoT_Device_Spoofer/backend/src/storage/deviceStore.ts:15-28 | with no data file, `getDevices` returns `[]` |
| Text.LowerChar | IoT_Device_Spoofer/backend/src/mqtt/mqttClient.ts:133 | ASCII `toLowerCase` of one character: upper-case letters move by 32, all else is kept |
| Text.ToLower | IoT_Device_Spoofer/backend/src/mqtt/mqttClient.ts:133 | `toLowerCase`: same length, lower-cased character by character |
| Text.LeadingSpaces | IoT_Device_Spoofer/backend/src/mqtt/mqttClient.ts:133 | the length of the longest white-space prefix |
| Text.TrailingSpaces | IoT_Device_Spoofer/backend/src/mqtt/mqttClient.ts:133 | the length of the longest white-space suffix |
| Text.Trim | IoT_Device_Spoofer/backend/src/mqtt/mqttClient.ts:133 | `trim`: the result is a slice of the input with only white space outside it, and it neither starts nor ends with white space |
| Text.TrimUnchanged | IoT_Device_Spoofer/backend/src/mqtt/mqttClient.ts:133 | a string without white space at its ends is its own trim |
| Text.TrimPadded | IoT_Device_Spoofer/backend/src/mqtt/mqttClient.ts:133 | trimming removes one space on each side of such a string |
| Text.ToLowerUnchanged | IoT_Device_Spoofer/backend/src/mqtt/mqttClient.ts:133 | a string without upper-case letters is its own lower case |
| Text.Split | IoT_Device_Spoofer/backend/src/mqtt/mqttClient.ts:98 | `split('/')`: never empty, and no segment holds the separator |
| Text.JoinSplit | IoT_Device_Spoofer/backend/src/mqtt/mqttClient.ts:98 | the segments joined by the separator give the string back |
| Text.SplitJoin | IoT_Device_Spoofer/backend/src/mqtt/mqttClient.ts:98 | splitting a join of separator-free segments gives the segments back |
| Text.SplitNoSep | IoT_Device_Spoofer/backend/src/mqtt/mqttClient.ts:98 | a string without the separator is one segment |
| Text.SplitPrefix | IoT_Device_Spoofer/backend/src/mqtt/mqttClient.ts:98 | a separator-free prefix followed by the separator is the first segment |
| Text.SplitSnoc | IoT_Device_Spoofer/backend/src/mqtt/mqttClient.ts:98 | a separator followed by a separator-free suffix adds that suffix as the last segment |
| MqttClient.FourSegments | IoT_Device_Spoofer/backend/src/mqtt/mqttClient.ts:98-103 | four '/'-free segments joined by '/' split back into exactly those four |
| MqttClient.ThreeSegments | IoT_Device_Spoofer/backend/src/mqtt/mqttClient.ts:224 | three '/'-free segments joined by '/' split back into exactly those three |
| MqttClient.ObjectIdNoSlash | IoT_Device_Spoofer/backend/src/mqtt/mqttClient.ts:204 | the object id `<deviceId>_<entityId>` of '/'-free ids holds no '/' |
| MqttClient.ConfigTopicSegments | IoT_Device_Spoofer/backend/src/mqtt/mqttClient.ts:203-209 | the config topic is `homeassistant/<component>/<d>_<e>/config`, segment by segment |
| MqttClient.StateTopicSegments | IoT_Device_Spoofer/backend/src/mqtt/mqttClient.ts:214 | the state topic is `iot_spoofer/<d>/<e>/state`, segment by segment |
| MqttClient.CommandTopicSegments | IoT_Device_Spoofer/backend/src/mqtt/mqttClient.ts:215 | the command topic is `iot_spoofer/<d>/<e>/set`, segment by segment |
| MqttClient.AvailabilityTopicSegments | IoT_Device_Spoofer/backend/src/mqtt/mqttClient.ts:224 | the availability topic is `iot_spoofer/<d>/availability`, segment by segment |
| MqttClient.ObjectId | IoT_Device_Spoofer/backend/src/mqtt/mqttClient.ts:204 | the object id `<deviceId>_<entityId>`; it holds no '/' for '/'-free ids (`ObjectIdNoSlash`) |
| MqttClient.UniqueId | IoT_Device_Spoofer/backend/src/mqtt/mqttClient.ts:205 | the unique id `iot_spoofer_<objectId>`, carried by the payload (`DiscoveryPayloadIdentity`) |
| MqttClient.ConfigTopic | IoT_Device_Spoofer/backend/src/mqtt/mqttClient.ts:209 | the config topic; its four segments are stated by `ConfigTopicSegments` |
| MqttClient.StateTopic | IoT_Device_Spoofer/backend/src/mqtt/mqttClient.ts:214 | the state topic, also used at lines 120 and 347; its segments are stated by `StateTopicSegments` |
| MqttClient.CommandTopic | IoT_Device_Spoofer/backend/src/mqtt/mqttClient.ts:215 | the command topic, also used at line 79; its segments are stated by `CommandTopicSegments`, and the parser inverts it |
| MqttClient.AvailabilityTopic | IoT_Device_Spoofer/backend/src/mqtt/mqttClient.ts:224 | the availability topic, also used at lines 242 and 308; its segments are stated by `AvailabilityTopicSegments` |
| MqttClient.ComponentOfName | IoT_Device_Spoofer/backend/src/mqtt/mqttClient.ts:328-340 | each of binary_sensor, sensor, light, switch, lock and number maps to itself; every other type maps to "sensor" |
| MqttClient.ComponentOf | IoT_Device_Spoofer/backend/src/mqtt/mqttClient.ts:328-340 | `mapEntityTypeToComponent`: the table's component for a listed type and the sensor component for any other, as `ComponentOfName` states |
| MqttClient.BuildEntitySpecificPayload | IoT_Device_Spoofer/backend/src/mqtt/mqttClient.ts:253-293 | the copy keeps every base property and adds exactly the component's fixed extras: On/Off for switch and light, Lock/Unlock for lock, min 0 and max 100 for number, on/off for binary_sensor, nothing for sensor |
| MqttClient.BasePayload | IoT_Device_Spoofer/backend/src/mqtt/mqttClient.ts:211-228 | the shared discovery payload; what it holds is stated by `DiscoveryPayloadIdentity` and `DiscoveryPayloadTopics` |
| MqttClient.ComponentExtras | IoT_Device_Spoofer/backend/src/mqtt/mqttClient.ts:260-290 | each component's fixed extras, the properties `buildEntitySpecificPayload` sets (stated by its contract) |
| MqttClient.DiscoveryPayload | IoT_Device_Spoofer/backend/src/mqtt/mqttClient.ts:231-235 | the payload published for an entity, the shared payload overridden by the extras; stated by `DiscoveryPayloadKeeps` |
| MqttClient.ExtrasDisjoint | IoT_Device_Spoofer/backend/src/mqtt/mqttClient.ts:211-293 | no component's extras overwrite a shared property |
| MqttClient.DiscoveryPayloadKeeps | IoT_Device_Spoofer/backend/src/mqtt/mqttClient.ts:211-235 | the published payload has the shared properties, unchanged, plus exactly the extras; a sensor or unknown type gets the shared payload alone |
| MqttClient.DiscoveryPayloadIdentity | IoT_Device_Spoofer/backend/src/mqtt/mqttClient.ts:204-213 | the payload's name is the entity's name and its unique_id is `iot_spoofer_<d>_<e>` |
| MqttClient.DiscoveryPayloadTopics | IoT_Device_Spoofer/backend/src/mqtt/mqttClient.ts:214-227 | the payload carries the entity's state and command topics and the device's availability topic |
| MqttClient.ParseCommandTopic | IoT_Device_Spoofer/backend/src/mqtt/mqttClient.ts:98-105 | an accepted topic is exactly the command topic of the two '/'-free ids it yields |
| MqttClient.ParseCommandTopicInverse | IoT_Device_Spoofer/backend/src/mqtt/mqttClient.ts:98-105 | every command topic of '/'-free ids is accepted, with those ids |
| MqttClient.ParsedStateTopic | IoT_Device_Spoofer/backend/src/mqtt/mqttClient.ts:98-120 | the state topic answered for an accepted topic differs from it only in the last segment |
| MqttClient.SlashedIdIgnored | IoT_Device_Spoofer/backend/src/mqtt/mqttClient.ts:98-103 | a device id holding a '/' gives a command topic the handler ignores |
| MqttClient.CanonicalOf | IoT_Device_Spoofer/backend/src/mqtt/mqttClient.ts:133 | a payload whose lower case has no white space at its ends is looked up by that lower case |
| MqttClient.Canonical | IoT_Device_Spoofer/backend/src/mqtt/mqttClient.ts:133 | the lower-cased, trimmed payload that the ten-key table is consulted with |
| MqttClient.NormalizeStatePayload | IoT_Device_Spoofer/backend/src/mqtt/mqttClient.ts:131-150 | the result is the payload itself or one of On, Off, Lock, Unlock |
| MqttClient.MappingOn | IoT_Device_Spoofer/backend/src/mqtt/mqttClient.ts:136-139 | the table sends exactly on, 1 and true to "On" |
| MqttClient.MappingOff | IoT_Device_Spoofer/backend/src/mqtt/mqttClient.ts:140-142 | the table sends exactly off, 0 and false to "Off" |
| MqttClient.MappingLock | IoT_Device_Spoofer/backend/src/mqtt/mqttClient.ts:143-144 | the table sends exactly lock and locked to "Lock" |
| MqttClient.MappingUnlock | IoT_Device_Spoofer/backend/src/mqtt/mqttClient.ts:145-146 | the table sends exactly unlock and unlocked to "Unlock" |
| MqttClient.NormalizeOn | IoT_Device_Spoofer/backend/src/mqtt/mqttClient.ts:133-149 | a payload normalises to "On" if and only if its lower-cased, trimmed form is on, 1 or true |
| MqttClient.NormalizeOff | IoT_Device_Spoofer/backend/src/mqtt/mqttClient.ts:133-149 | a payload normalises to "Off" if and only if its lower-cased, trimmed form is off, 0 or false |
| MqttClient.NormalizeLock | IoT_Device_Spoofer/backend/src/mqtt/mqttClient.ts:133-149 | a payload normalises to "Lock" if and only if its lower-cased, trimmed form is lock or locked |
| MqttClient.NormalizeUnlock | IoT_Device_Spoofer/backend/src/mqtt/mqttClient.ts:133-149 | a payload normalises to "Unlock" if and only if its lower-cased, trimmed form is unlock or unlocked |
| MqttClient.NormalizeOther | IoT_Device_Spoofer/backend/src/mqtt/mqttClient.ts:149 | a payload whose lower-cased, trimmed form is not a key is returned untrimmed and with its case kept |
| MqttClient.NormalizeIdempotent | IoT_Device_Spoofer/backend/src/mqtt/mqttClient.ts:131-150 | normalising a normalised payload changes nothing |
| MqttClient.CanonicalOn | IoT_Device_Spoofer/backend/src/mqtt/mqttClient.ts:133 | "On" is looked up as "on" |
| MqttClient.CanonicalOff | IoT_Device_Spoofer/backend/src/mqtt/mqttClient.ts:133 | "Off" is looked up as "off" |
| MqttClient.CanonicalLock | IoT_Device_Spoofer/backend/src/mqtt/mqttClient.ts:133 | "Lock" is looked up as "lock" |
| MqttClient.CanonicalUnlock | IoT_Device_Spoofer/backend/src/mqtt/mqttClient.ts:133 | "Unlock" is looked up as "unlock" |
| MqttClient.CanonicalUpperOn | IoT_Device_Spoofer/backend/src/mqtt/mqttClient.ts:133 | "ON" is looked up as "on" |
| MqttClient.CanonicalPaddedTrue | IoT_Device_Spoofer/backend/src/mqtt/mqttClient.ts:133 | " true " is looked up as "true" |
| MqttClient.CanonicalLocked | IoT_Device_Spoofer/backend/src/mqtt/mqttClient.ts:133 | "locked" is looked up as itself |
| MqttClient.CanonicalNumber | IoT_Device_Spoofer/backend/src/mqtt/mqttClient.ts:133 | "42" is looked up as itself |
| MqttClient.NormalizeUpperOn | IoT_Device_Spoofer/backend/src/mqtt/mqttClient.ts:133-139 | "ON" normalises to "On" |
| MqttClient.NormalizePaddedTrue | IoT_Device_Spoofer/backend/src/mqtt/mqttClient.ts:133-139 | " true " normalises to "On" |
| MqttClient.NormalizeLocked | IoT_Device_Spoofer/backend/src/mqtt/mqttClient.ts:143-144 | "locked" normalises to "Lock" |
| MqttClient.NormalizeNumber | IoT_Device_Spoofer/backend/src/mqtt/mqttClient.ts:149 | "42" is returned as "42" |
| MqttClient.CommandTopics | IoT_Device_Spoofer/backend/src/mqtt/mqttClient.ts:76-87 | the subscribed topics are exactly the command topics of every entity of every stored device |
| MqttClient.EntityCommandTopics | IoT_Device_Spoofer/backend/src/mqtt/mqttClient.ts:78-79 | one command topic per entity of the device, in entity order |
| MqttClient.ConfigMessage | IoT_Device_Spoofer/backend/src/mqtt/mqttClient.ts:238 | the retained config publish of one entity; every discovery publish is one of these or "online" (`DeviceDiscoveryRetained`) |
| MqttClient.OnlineMessage | IoT_Device_Spoofer/backend/src/mqtt/mqttClient.ts:241-245 | the retained "online" on the device's availability topic |
| MqttClient.OfflineMessage | IoT_Device_Spoofer/backend/src/mqtt/mqttClient.ts:308 | the retained "offline" on the device's availability topic |
| MqttClient.RemovalMessage | IoT_Device_Spoofer/backend/src/mqtt/mqttClient.ts:321 | the retained empty config publish that withdraws one entity |
| MqttClient.EntityDiscoveryLog | IoT_Device_Spoofer/backend/src/mqtt/mqttClient.ts:237-250 | the acknowledged part of one entity's discovery: nothing after a rejected config, the config alone after a rejected "online", both otherwise; proved through `DiscoveryLogAllAnnounced` and the discovery lemmas |
| MqttClient.DiscoveryLog | IoT_Device_Spoofer/backend/src/mqtt/mqttClient.ts:194-196 | the acknowledged discovery publishes of all entities, entity by entity |
| MqttClient.RemovalLog | IoT_Device_Spoofer/backend/src/mqtt/mqttClient.ts:303-305 | the acknowledged removals, in entity order; bounded by `RemovalLogShape` |
| MqttClient.EntityDiscoveryAttempts | IoT_Device_Spoofer/backend/src/mqtt/mqttClient.ts:237-250 | what one entity's discovery tries: its config, then "online" unless the config was rejected |
| MqttClient.DiscoveryAttempts | IoT_Device_Spoofer/backend/src/mqtt/mqttClient.ts:194-196 | what discovery tries for all entities, entity by entity; read position by position in `DiscoveryAttemptsAt` |
| MqttClient.StateMessage | IoT_Device_Spoofer/backend/src/mqtt/mqttClient.ts:121 | the retained state publish on an entity's state topic, also made at line 348 |
| MqttClient.Configs | IoT_Device_Spoofer/backend/src/mqtt/mqttClient.ts:194-196 | one config publish per entity |
| MqttClient.Removals | IoT_Device_Spoofer/backend/src/mqtt/mqttClient.ts:303-305 | one removal publish per entity |
| MqttClient.ConfigsIndex | IoT_Device_Spoofer/backend/src/mqtt/mqttClient.ts:194-196 | the i-th config publish is the i-th entity's |
| MqttClient.RemovalsIndex | IoT_Device_Spoofer/backend/src/mqtt/mqttClient.ts:303-305 | the i-th removal publish is the i-th entity's |
| MqttClient.ConfigsSnoc | IoT_Device_Spoofer/backend/src/mqtt/mqttClient.ts:194-196 | one more entity appends its config publish |
| MqttClient.RemovalsSnoc | IoT_Device_Spoofer/backend/src/mqtt/mqttClient.ts:303-305 | one more entity appends its removal publish |
| MqttClient.DiscoveryLogSnoc | IoT_Device_Spoofer/backend/src/mqtt/mqttClient.ts:194-196 | discovering one more entity extends the log by that entity's publishes |
| MqttClient.RemovalLogSnoc | IoT_Device_Spoofer/backend/src/mqtt/mqttClient.ts:303-305 | removing one more entity extends the log by its removal when acknowledged |
| MqttClient.DiscoveryLogAllAnnounced | IoT_Device_Spoofer/backend/src/mqtt/mqttClient.ts:186-251 | with every publish acknowledged, the log alternates each entity's config and "online", so it ends on "online" |
| MqttClient.DiscoveryLogShape | IoT_Device_Spoofer/backend/src/mqtt/mqttClient.ts:186-251 | whatever is rejected, only configs and "online" are published, and the last entity's config is published unless that very publish is rejected, so earlier rejections do not stop it |
| MqttClient.DeviceDiscoveryRetained | IoT_Device_Spoofer/backend/src/mqtt/mqttClient.ts:237-245 | every discovery publish is retained and is one of the entities' configs or the device's "online" |
| MqttClient.RemovalLogShape | IoT_Device_Spoofer/backend/src/mqtt/mqttClient.ts:303-305 | the acknowledged removals are at most one per entity and all among the requested ones |
| MqttClient.RemovalLogAllAcked | IoT_Device_Spoofer/backend/src/mqtt/mqttClient.ts:303-305 | with every publish acknowledged, removal publishes exactly every entity's removal, in order |
| MqttClient.AttemptCountIncreasing | IoT_Device_Spoofer/backend/src/mqtt/mqttClient.ts:194-196 | later entities' attempts start strictly later, so discovery attempts the entities in order |
| MqttClient.DiscoveryAttemptsSnoc | IoT_Device_Spoofer/backend/src/mqtt/mqttClient.ts:194-196 | discovering one more entity extends the attempts by that entity's |
| MqttClient.DiscoveryAttemptsLength | IoT_Device_Spoofer/backend/src/mqtt/mqttClient.ts:237-250 | discovery attempts one publish for an entity whose config was rejected and two for every other |
| MqttClient.DiscoveryAttemptsAt | IoT_Device_Spoofer/backend/src/mqtt/mqttClient.ts:186-251 | whatever the broker rejects, the i-th entity's config is attempted, followed by "online" unless that config was rejected |
| MqttClient.DeviceDiscoveryAttemptsEvery | IoT_Device_Spoofer/backend/src/mqtt/mqttClient.ts:186-251 | every entity of the device has its own config attempted, whatever was rejected |
| MqttClient.Client.constructor | IoT_Device_Spoofer/backend/src/mqtt/mqttClient.ts:20-28 | a client holds its config, is not connected, has no command handler, and has attempted and published nothing |
| MqttClient.Client.SetCommandHandler | IoT_Device_Spoofer/backend/src/mqtt/mqttClient.ts:30-32 | a command handler is registered |
| MqttClient.Client.Publish | IoT_Device_Spoofer/backend/src/mqtt/mqttClient.ts:165-184 | rejected at once when not connected, with nothing attempted; otherwise the message is attempted, and logged exactly when the broker acknowledges it |
| MqttClient.Client.PublishEntityDiscovery | IoT_Device_Spoofer/backend/src/mqtt/mqttClient.ts:199-251 | attempts the entity's retained config and, exactly when that was acknowledged, the device's retained "online"; the log holds the acknowledged ones; a rejection is caught |
| MqttClient.Client.PublishDiscovery | IoT_Device_Spoofer/backend/src/mqtt/mqttClient.ts:186-197 | nothing when not connected; otherwise every entity's discovery is attempted in entity order, a rejection for one entity not stopping the next, and the log grows by the acknowledged publishes |
| MqttClient.Client.RemoveEntityDiscovery | IoT_Device_Spoofer/backend/src/mqtt/mqttClient.ts:311-326 | attempts the entity's retained empty config when connected and logs it when acknowledged; a rejection is caught |
| MqttClient.Client.RemoveDiscovery | IoT_Device_Spoofer/backend/src/mqtt/mqttClient.ts:295-309 | nothing when not connected; otherwise attempts every entity's removal, in order, and then "offline"; the log holds the acknowledged removals and "offline" exactly when the call succeeds |
| MqttClient.Client.HandleMessage | IoT_Device_Spoofer/backend/src/mqtt/mqttClient.ts:94-129 | a topic the parser rejects attempts nothing; on an accepted command topic a failing handler attempts nothing, and otherwise the normalised payload is attempted, retained, on that entity's state topic and logged when acknowledged |
| MqttClient.Client.PublishState | IoT_Device_Spoofer/backend/src/mqtt/mqttClient.ts:342-350 | attempts the state, retained, on `iot_spoofer/<d>/<e>/state` when connected; logs it and succeeds exactly when acknowledged |

## Left out

- The MQTT transport and its events are not modelled: `connect`, the `connect`/`message`/`error`/`offline`/`reconnect` handlers, the reconnect period and `disconnect`. They are network I/O. `connected` is a plain field that nothing in the model sets.
- The singleton functions `initializeMqtt`, `getMqttClient` and `shutdownMqtt` only wire the transport, so they are left out.
- `subscribeToCommands` is modelled as the list of topics it subscribes to (`CommandTopics`). The subscribe calls, their callbacks and the store read are not modelled.
- The command handler is external business logic. Its run is one unconstrained success-or-failure choice, and its arguments are not recorded.
- `JSON.stringify` is kept as the object it serialises (`JsonText`): the text and the property order are not modelled. Numbers are integers.
- The `sensor`/`default` case of `buildEntitySpecificPayload` for a component string outside the map cannot be reached from `mapEntityTypeToComponent`. The model's `Component` type has only the six components, so that case is the sensor component.
- Property lookups on the object literals (the registry, the component map, the state table) see only their listed keys. JavaScript prototype keys such as "constructor" are not modelled.
- `toLowerCase` and `trim` are ASCII only: letters A to Z, and space, tab, line feed, carriage return, vertical tab and form feed.
- The file system is reduced to one optional list: no directory creation, no temporary-file rename, no pretty-printing and no parse errors. A devices file that is not valid JSON is not modelled.
- Console output (`console.log`, `console.warn`, `console.error` in the MQTT client) is not modelled; it changes no state.
- Concurrent callers of the store and the client are not modelled; every operation runs to completion alone.
- `DeviceStore.Merge`: a patch that holds an explicit `undefined` for a field is not modelled. A patch field is either named with a value or absent.
- The HTTP server, the routes, the discovery retry timer, the configuration sources, the signal handlers and the frontend are not part of this model.

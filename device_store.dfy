/**
 * The device store: an ordered list of device records kept in one JSON file, read in
 * full and written back in full by every operation.
 */
module DeviceStore {
  import opened Wrappers
  import opened BaseEntity

  /** `DeviceDefinition`: a virtual appliance and its entities. */
  datatype Device = Device(id: string, name: string, manufacturer: string, entities: seq<EntityDefinition>)

  /** `Partial<DeviceDefinition>`: each field is either named by the patch or absent from it. */
  datatype DevicePatch = DevicePatch(
    id: Option<string>,
    name: Option<string>,
    manufacturer: Option<string>,
    entities: Option<seq<EntityDefinition>>)

  /**
   * `{ ...d, ...p }`: each field comes from the patch when the patch names it and from
   * the old device otherwise. Nothing protects `id` or `manufacturer`.
   */
  function Merge(d: Device, p: DevicePatch): (r: Device)
    ensures p.id.Some? ==> r.id == p.id.value
    ensures p.id.None? ==> r.id == d.id
    ensures p.name.Some? ==> r.name == p.name.value
    ensures p.name.None? ==> r.name == d.name
    ensures p.manufacturer.Some? ==> r.manufacturer == p.manufacturer.value
    ensures p.manufacturer.None? ==> r.manufacturer == d.manufacturer
    ensures p.entities.Some? ==> r.entities == p.entities.value
    ensures p.entities.None? ==> r.entities == d.entities
  {
    Device(p.id.GetOr(d.id), p.name.GetOr(d.name), p.manufacturer.GetOr(d.manufacturer),
           p.entities.GetOr(d.entities))
  }

  /** An empty patch leaves the device as it was. */
  lemma MergeEmpty(d: Device)
    ensures Merge(d, DevicePatch(None, None, None, None)) == d
  {
  }

  /** `devices.filter((d) => d.id !== id)`. */
  function WithoutId(devices: seq<Device>, id: string): (r: seq<Device>)
    ensures |r| <= |devices|
    ensures forall i :: 0 <= i < |r| ==> r[i].id != id && r[i] in devices
  {
    if devices == [] then []
    else if devices[0].id != id then [devices[0]] + WithoutId(devices[1..], id)
    else WithoutId(devices[1..], id)
  }

  /** The filter keeps a device exactly when it was stored and its id differs. */
  lemma {:induction false} WithoutIdMembers(devices: seq<Device>, id: string, d: Device)
    ensures d in WithoutId(devices, id) <==> d in devices && d.id != id
  {
    if devices != [] {
      WithoutIdMembers(devices[1..], id, d);
      assert devices == [devices[0]] + devices[1..];
    }
  }

  /** The filter distributes over concatenation, so the kept devices stay in their relative order. */
  lemma {:induction false} WithoutIdAppend(s: seq<Device>, t: seq<Device>, id: string)
    ensures WithoutId(s + t, id) == WithoutId(s, id) + WithoutId(t, id)
  {
    if s == [] {
      assert s + t == t;
    } else {
      assert (s + t)[1..] == s[1..] + t;
      WithoutIdAppend(s[1..], t, id);
    }
  }

  /** Filtering an id that no device has keeps the list as it is. */
  lemma {:induction false} WithoutAbsentId(devices: seq<Device>, id: string)
    requires forall i :: 0 <= i < |devices| ==> devices[i].id != id
    ensures WithoutId(devices, id) == devices
  {
    if devices != [] {
      WithoutAbsentId(devices[1..], id);
      assert devices == [devices[0]] + devices[1..];
    }
  }

  /** Filtering a present id removes at least one device. */
  lemma {:induction false} WithoutPresentId(devices: seq<Device>, id: string, k: nat)
    requires k < |devices| && devices[k].id == id
    ensures |WithoutId(devices, id)| < |devices|
  {
    if k > 0 {
      WithoutPresentId(devices[1..], id, k - 1);
    }
  }

  /** `devices.findIndex((d) => d.id === id)`: the first index with that id, or -1. */
  method FindIndex(devices: seq<Device>, id: string) returns (index: int)
    ensures -1 <= index < |devices|
    ensures index == -1 <==> forall i :: 0 <= i < |devices| ==> devices[i].id != id
    ensures index >= 0 ==> devices[index].id == id
    ensures index >= 0 ==> forall i :: 0 <= i < index ==> devices[i].id != id
  {
    index := 0;
    while index < |devices|
      invariant 0 <= index <= |devices|
      invariant forall i :: 0 <= i < index ==> devices[i].id != id
    {
      if devices[index].id == id {
        return;
      }
      index := index + 1;
    }
    index := -1;
  }

  /**
   * The data file. `file == None` is a file that does not exist yet; `saves` counts
   * the calls of `saveDevices`, so that an operation without a save can be told apart.
   */
  class Store {
    var file: Option<seq<Device>>
    var saves: nat

    /** A store over the file system as it is found. */
    constructor(found: Option<seq<Device>>)
      ensures file == found && saves == 0
    {
      file := found;
      saves := 0;
    }

    /** What the file holds; a missing file holds no devices. */
    function Contents(): seq<Device>
      reads this
    {
      file.GetOr([])
    }

    /** `ensureDataFile`: creates the file holding `[]` when it does not exist. */
    method EnsureDataFile()
      modifies this`file
      ensures file == if old(file).None? then Some([]) else old(file)
    {
      if file.None? {
        file := Some([]);
      }
    }

    /** `getDevices`: the stored list; a missing file is first created as `[]`. */
    method GetDevices() returns (devices: seq<Device>)
      modifies this`file
      ensures devices == old(Contents())
      ensures file == Some(devices)
    {
      EnsureDataFile();
      devices := file.value;
    }

    /** `saveDevices`: replaces the whole file with the given list. */
    method SaveDevices(devices: seq<Device>)
      modifies this
      ensures file == Some(devices)
      ensures saves == old(saves) + 1
    {
      EnsureDataFile();
      file := Some(devices);
      saves := saves + 1;
    }

    /** `addDevice`: appends the device after every stored one. */
    method AddDevice(device: Device)
      modifies this
      ensures Contents() == old(Contents()) + [device]
      ensures file.Some? && saves == old(saves) + 1
    {
      var devices := GetDevices();
      devices := devices + [device];
      SaveDevices(devices);
    }

    /**
     * `updateDevice`: merges the patch into the first device with the id and saves; an
     * id that no device has returns false with nothing saved.
     */
    method UpdateDevice(id: string, patch: DevicePatch) returns (ok: bool)
      modifies this
      ensures ok <==> exists i :: 0 <= i < |old(Contents())| && old(Contents())[i].id == id
      ensures !ok ==> Contents() == old(Contents()) && saves == old(saves)
      ensures ok ==> saves == old(saves) + 1
      ensures ok ==> exists k :: 0 <= k < |old(Contents())|
                      && old(Contents())[k].id == id
                      && (forall i :: 0 <= i < k ==> old(Contents())[i].id != id)
                      && Contents() == old(Contents())[k := Merge(old(Contents())[k], patch)]
      ensures file.Some?
    {
      var devices := GetDevices();
      var index := FindIndex(devices, id);
      if index == -1 {
        return false;
      }
      devices := devices[index := Merge(devices[index], patch)];
      SaveDevices(devices);
      ok := true;
    }

    /** `deleteDevice`: keeps the devices whose id differs, and saves even when none matched. */
    method DeleteDevice(id: string)
      modifies this
      ensures Contents() == WithoutId(old(Contents()), id)
      ensures file.Some? && saves == old(saves) + 1
    {
      var devices := GetDevices();
      var filtered := WithoutId(devices, id);
      SaveDevices(filtered);
    }
  }

  /** `saveDevices(s)` followed by `getDevices()` gives `s` back. */
  method SaveThenGet(store: Store, s: seq<Device>) returns (r: seq<Device>)
    modifies store
    ensures r == s
  {
    store.SaveDevices(s);
    r := store.GetDevices();
  }

  /** On a store whose file is missing, `getDevices` creates it and returns no devices. */
  method GetFromMissingFile() returns (r: seq<Device>)
    ensures r == []
  {
    var store := new Store(None);
    r := store.GetDevices();
    assert store.file == Some([]);
  }
}

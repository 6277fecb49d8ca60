/**
 * The switch platform: which devices become switch entities, how an entity
 * derives its name, icon, attributes and on/off state from its snapshot entry,
 * the listener that adds entities for devices it has not recorded yet, and the
 * on, off and toggle actions.
 */
module Switch {
  import opened Json
  import opened Transport
  import opened Const
  import opened Coordinator
  import Integration

  /** The relay types shown as switches: every type but the shutter. */
  const SwitchDeviceTypes: seq<int> := [RelayTypeLight, RelayTypeOnOff, RelayTypeGas, RelayTypeElectric, RelayTypeWater]

  /** `device_data.get("type", RELAY_TYPE_ON_OFF)`: a device without a type counts as an on/off relay. */
  function DeviceType(d: Entry): Json
  {
    Get(d, "type", JInt(RelayTypeOnOff))
  }

  /** `device_type in SWITCH_DEVICE_TYPES`, compared with Python's `==`. */
  predicate IsSwitchDevice(d: Entry)
  {
    var code := PyInt(DeviceType(d));
    code.Some? && code.value in SwitchDeviceTypes
  }

  /** `DEVICE_TYPE_ICONS.get(device_type, "mdi:toggle-switch")` */
  function IconFor(deviceType: Json): string
  {
    var code := PyInt(deviceType);
    if code.Some? && code.value in DeviceTypeIcons then DeviceTypeIcons[code.value] else "mdi:toggle-switch"
  }

  /** `DEVICE_TYPE_NAMES.get(device_type, "Unknown")` */
  function TypeNameFor(deviceType: Json): string
  {
    var code := PyInt(deviceType);
    if code.Some? && code.value in DeviceTypeNames then DeviceTypeNames[code.value] else "Unknown"
  }

  /** A device gets a switch entity exactly when its type is 1, 3, 4, 5 or 6, a missing type counting as 3. */
  lemma SwitchTypeFilter(d: Entry)
    ensures IsSwitchDevice(d) <==>
      ("type" !in d || (PyInt(d["type"]).Some? && PyInt(d["type"]).value in {1, 3, 4, 5, 6}))
    ensures "type" in d && d["type"] == JInt(RelayTypeShutter) ==> !IsSwitchDevice(d)
    ensures "type" in d && d["type"] == JBool(true) ==> IsSwitchDevice(d)
    ensures "type" in d && d["type"].JStr? ==> !IsSwitchDevice(d)
  {
  }

  /** The entity's `extra_state_attributes`. */
  datatype SwitchAttributes = SwitchAttributes(deviceType: Json, roomName: Json, flatName: Json, favourite: Json)

  /** What an entity shows: `_attr_name`, `_attr_icon`, the attributes and `_attr_is_on`. */
  datatype SwitchView = SwitchView(name: Json, icon: string, attributes: SwitchAttributes, isOn: Json)

  /** `_update_from_data`: every field from the entry, each with its own default. */
  function Derive(deviceId: string, d: Entry): SwitchView
  {
    var deviceType := DeviceType(d);
    SwitchView(
      Get(d, "name", JStr("Relay " + deviceId)),
      IconFor(deviceType),
      SwitchAttributes(
        Get(d, "type_name", JStr(TypeNameFor(deviceType))),
        Get(d, AttrRoomName, JStr("")),
        Get(d, AttrFlatName, JStr("")),
        Get(d, AttrFavourite, JBool(false))),
      Get(d, "state", JBool(false)))
  }

  /**
   * An entry holding only its id shows all defaults: the name `Relay <id>`, the
   * on/off icon, the type name `Switch` (a missing type is an on/off relay),
   * empty room and flat, not a favourite, and off.
   */
  lemma DeriveDefaults(deviceId: string, id: Json)
    ensures Derive(deviceId, map["id" := id])
         == SwitchView(JStr("Relay " + deviceId), "mdi:toggle-switch",
                       SwitchAttributes(JStr("Switch"), JStr(""), JStr(""), JBool(false)), JBool(false))
  {
  }

  /** Every field the entry carries is shown as it is; a default is used only for a missing field. */
  lemma DeriveReadsEntry(deviceId: string, d: Entry)
    ensures "name" in d ==> Derive(deviceId, d).name == d["name"]
    ensures "type_name" in d ==> Derive(deviceId, d).attributes.deviceType == d["type_name"]
    ensures AttrRoomName in d ==> Derive(deviceId, d).attributes.roomName == d[AttrRoomName]
    ensures AttrFlatName in d ==> Derive(deviceId, d).attributes.flatName == d[AttrFlatName]
    ensures AttrFavourite in d ==> Derive(deviceId, d).attributes.favourite == d[AttrFavourite]
    ensures "state" in d ==> Derive(deviceId, d).isOn == d["state"]
    ensures "state" !in d ==> Derive(deviceId, d).isOn == JBool(false)
  {
  }

  /** For a relay type code the icon and, without a `type_name`, the type name come from the tables. */
  lemma DeriveFromTables(deviceId: string, d: Entry, code: int)
    requires "type" in d && d["type"] == JInt(code) && 1 <= code <= 6
    ensures Derive(deviceId, d).icon == DeviceTypeIcons[code]
    ensures "type_name" !in d ==> Derive(deviceId, d).attributes.deviceType == JStr(DeviceTypeNames[code])
    ensures "type_name" in d ==> Derive(deviceId, d).attributes.deviceType == d["type_name"]
  {
    TablesCoverRelayTypes();
  }

  /** A type that is no relay code gets the fallback icon and, without a `type_name`, the name `Unknown`. */
  lemma DeriveUnknownType(deviceId: string, d: Entry)
    requires "type" in d && !(PyInt(d["type"]).Some? && 1 <= PyInt(d["type"]).value <= 6)
    ensures Derive(deviceId, d).icon == "mdi:toggle-switch"
    ensures "type_name" !in d ==> Derive(deviceId, d).attributes.deviceType == JStr("Unknown")
  {
    TablesCoverRelayTypes();
  }

  /** What `_handle_coordinator_update` leaves: re-derived when the id maps to a non-empty entry, else unchanged. */
  function Refreshed(v: SwitchView, deviceId: string, snap: Snapshot): SwitchView
  {
    if deviceId in snap && snap[deviceId] != map[] then Derive(deviceId, snap[deviceId]) else v
  }

  /** The view after a command's own notification: refreshed only when the reply was merged into the snapshot. */
  function Notified(v: SwitchView, deviceId: string, snap: Snapshot, out: CommandResult): SwitchView
  {
    if out.Sent? && out.patched then Refreshed(v, deviceId, snap) else v
  }

  /** `not self._attr_is_on` */
  function Toggled(v: SwitchView): SwitchView
  {
    v.(isOn := JBool(!Truthy(v.isOn)))
  }

  /**
   * The toggle quirk: when the tablet's toggle reply carries the new `state` and
   * the device is in the snapshot, the command's own notification already shows
   * that state, and the negation that follows makes the entity show the opposite.
   */
  lemma ToggleInvertsReportedState(v: SwitchView, deviceId: string, snap: Snapshot, result: Object)
    requires deviceId in snap && "state" in result
    ensures Refreshed(v, deviceId, Patch(snap, deviceId, result)).isOn == result["state"]
    ensures Toggled(Refreshed(v, deviceId, Patch(snap, deviceId, result))).isOn == JBool(!Truthy(result["state"]))
  {
    var patched := Patch(snap, deviceId, result);
    assert "state" in patched[deviceId];
  }

  /** The switch-type devices of a snapshot. */
  function SwitchIds(snap: Snapshot): set<string>
  {
    set id | id in snap && IsSwitchDevice(snap[id])
  }

  /** The ids the listener creates entities for: switch-type devices it has not recorded. */
  function NewSwitchIds(snap: Snapshot, tracked: set<string>): set<string>
  {
    set id | id in snap && id !in tracked && IsSwitchDevice(snap[id])
  }

  /**
   * After the listener, every switch-type device of the snapshot is recorded, no
   * other device is added, entities are made only for ids not recorded before,
   * and a second run on the same snapshot adds nothing.
   */
  lemma {:induction false} TrackerInvariant(snap: Snapshot, tracked: set<string>)
    ensures SwitchIds(snap) <= tracked + NewSwitchIds(snap, tracked)
    ensures NewSwitchIds(snap, tracked) <= SwitchIds(snap)
    ensures NewSwitchIds(snap, tracked) !! tracked
    ensures NewSwitchIds(snap, tracked + NewSwitchIds(snap, tracked)) == {}
  {
    var now := tracked + NewSwitchIds(snap, tracked);
    forall id | id in snap && id !in now ensures !IsSwitchDevice(snap[id]) {
      assert id !in NewSwitchIds(snap, tracked);
    }
  }

  /**
   * The setup quirk: the entities made at platform setup are never recorded, so
   * the listener's first run on the same snapshot makes an entity for every one of them again.
   */
  lemma FirstUpdateRecreatesSetupSwitches(snap: Snapshot)
    ensures NewSwitchIds(snap, {}) == SwitchIds(snap)
  {
  }

  /** `MultitekRelaySwitch` */
  class RelaySwitch {
    const coordinator: DataCoordinator
    const deviceId: string
    const uniqueId: string
    var name: Json
    var icon: string
    var attributes: SwitchAttributes
    var isOn: Json

    function View(): SwitchView
      reads this
    {
      SwitchView(name, icon, attributes, isOn)
    }

    constructor (coordinator: DataCoordinator, entryId: string, deviceId: string, deviceData: Entry)
      ensures this.coordinator == coordinator && this.deviceId == deviceId
      ensures uniqueId == entryId + "_" + deviceId
      ensures View() == Derive(deviceId, deviceData)
    {
      this.coordinator := coordinator;
      this.deviceId := deviceId;
      uniqueId := entryId + "_" + deviceId;
      var v := Derive(deviceId, deviceData);
      name, icon, attributes, isOn := v.name, v.icon, v.attributes, v.isOn;
    }

    /** `_update_from_data` */
    method UpdateFromData(deviceData: Entry)
      modifies this
      ensures View() == Derive(deviceId, deviceData)
    {
      var deviceType := DeviceType(deviceData);
      name := Get(deviceData, "name", JStr("Relay " + deviceId));
      icon := IconFor(deviceType);
      attributes := SwitchAttributes(
        Get(deviceData, "type_name", JStr(TypeNameFor(deviceType))),
        Get(deviceData, AttrRoomName, JStr("")),
        Get(deviceData, AttrFlatName, JStr("")),
        Get(deviceData, AttrFavourite, JBool(false)));
      isOn := Get(deviceData, "state", JBool(false));
    }

    /** `_handle_coordinator_update`: refresh from the entry if the id maps to a truthy one, else keep everything. */
    method HandleCoordinatorUpdate()
      modifies this
      ensures View() == Refreshed(old(View()), deviceId, coordinator.data)
    {
      if deviceId in coordinator.data && coordinator.data[deviceId] != map[] {
        UpdateFromData(coordinator.data[deviceId]);
      }
    }

    /**
     * Send one command and run this entity's own listener when the coordinator
     * notifies (only a merged reply notifies). A raising command changes nothing.
     */
    method Command(command: string, value: Json, reply: Response) returns (req: Request, out: CommandResult)
      modifies this, coordinator`data
      ensures req == RelayRequest(coordinator.baseUrl, coordinator.headers, deviceId, command, value)
      ensures out == CommandOutcome(old(coordinator.data), deviceId, reply)
      ensures coordinator.data
           == if out.Sent? && out.patched then Patch(old(coordinator.data), deviceId, out.result.fields)
              else old(coordinator.data)
      ensures View() == Notified(old(View()), deviceId, coordinator.data, out)
    {
      req, out := coordinator.SendRelayCommand(deviceId, command, value, reply);
      if out.Sent? && out.patched {
        HandleCoordinatorUpdate();
      }
    }

    /** `async_turn_on`: `is_on` becomes True only after the command returned; a raising command leaves it. */
    method TurnOn(reply: Response) returns (req: Request, out: CommandResult)
      modifies this, coordinator`data
      ensures req == RelayRequest(coordinator.baseUrl, coordinator.headers, deviceId, "set_state", JBool(true))
      ensures req.url == coordinator.baseUrl + ("/api/relay/" + deviceId + "/state") && req.body == Some(JObj(map["state" := JBool(true)]))
      ensures out == CommandOutcome(old(coordinator.data), deviceId, reply)
      ensures out.CommandFailed? ==> View() == old(View()) && coordinator.data == old(coordinator.data)
      ensures coordinator.data
           == if out.Sent? && out.patched then Patch(old(coordinator.data), deviceId, out.result.fields)
              else old(coordinator.data)
      ensures out.Sent? ==> View() == Notified(old(View()), deviceId, coordinator.data, out).(isOn := JBool(true))
    {
      req, out := Command("set_state", JBool(true), reply);
      if out.Sent? {
        isOn := JBool(true);
      }
    }

    /** `async_turn_off`: `is_on` becomes False only after the command returned; a raising command leaves it. */
    method TurnOff(reply: Response) returns (req: Request, out: CommandResult)
      modifies this, coordinator`data
      ensures req == RelayRequest(coordinator.baseUrl, coordinator.headers, deviceId, "set_state", JBool(false))
      ensures req.url == coordinator.baseUrl + ("/api/relay/" + deviceId + "/state") && req.body == Some(JObj(map["state" := JBool(false)]))
      ensures out == CommandOutcome(old(coordinator.data), deviceId, reply)
      ensures out.CommandFailed? ==> View() == old(View()) && coordinator.data == old(coordinator.data)
      ensures coordinator.data
           == if out.Sent? && out.patched then Patch(old(coordinator.data), deviceId, out.result.fields)
              else old(coordinator.data)
      ensures out.Sent? ==> View() == Notified(old(View()), deviceId, coordinator.data, out).(isOn := JBool(false))
    {
      req, out := Command("set_state", JBool(false), reply);
      if out.Sent? {
        isOn := JBool(false);
      }
    }

    /** `async_toggle`: after the command, `is_on` is negated as it stands then, i.e. after the command's own notification. */
    method Toggle(reply: Response) returns (req: Request, out: CommandResult)
      modifies this, coordinator`data
      ensures req == RelayRequest(coordinator.baseUrl, coordinator.headers, deviceId, "toggle", JNull)
      ensures req.url == coordinator.baseUrl + ("/api/relay/" + deviceId + "/toggle") && req.body == Some(JObj(map[]))
      ensures out == CommandOutcome(old(coordinator.data), deviceId, reply)
      ensures out.CommandFailed? ==> View() == old(View()) && coordinator.data == old(coordinator.data)
      ensures coordinator.data
           == if out.Sent? && out.patched then Patch(old(coordinator.data), deviceId, out.result.fields)
              else old(coordinator.data)
      ensures out.Sent? ==> View() == Toggled(Notified(old(View()), deviceId, coordinator.data, out))
    {
      req, out := Command("toggle", JNull, reply);
      if out.Sent? {
        isOn := JBool(!Truthy(isOn));
      }
    }
  }

  /**
   * The toggle quirk through the entity's own action: a device in the snapshot,
   * toggled and answered with `{"state": true, ...}`, ends up shown as off, while
   * the snapshot records it as on.
   */
  method ToggleAnsweredOn(s: RelaySwitch, result: Object) returns (out: CommandResult)
    requires s.deviceId in s.coordinator.data
    requires "state" in result && result["state"] == JBool(true)
    modifies s, s.coordinator`data
    ensures out == Sent(JObj(result), true)
    ensures s.coordinator.data == Patch(old(s.coordinator.data), s.deviceId, result)
    ensures s.deviceId in s.coordinator.data && "state" in s.coordinator.data[s.deviceId]
    ensures s.coordinator.data[s.deviceId]["state"] == JBool(true)
    ensures s.isOn == JBool(false)
  {
    ghost var v0 := s.View();
    ghost var snap0 := s.coordinator.data;
    var _, sent := s.Toggle(Reply(200, JObj(result)));
    out := sent;
    ToggleInvertsReportedState(v0, s.deviceId, snap0, result);
  }

  /** `e` is the entity made by `RelaySwitch(coordinator, entry, id, snap[id])` for its own id. */
  predicate Built(e: RelaySwitch, coordinator: DataCoordinator, entryId: string, snap: Snapshot)
    reads e
  {
    && e.deviceId in snap
    && e.coordinator == coordinator && e.uniqueId == entryId + "_" + e.deviceId
    && e.View() == Derive(e.deviceId, snap[e.deviceId])
  }

  /** The entities have exactly the ids of `ids`, one entity each. */
  predicate OnePerId(entities: seq<RelaySwitch>, ids: set<string>)
  {
    && (forall i :: 0 <= i < |entities| ==> entities[i].deviceId in ids)
    && (forall id :: id in ids ==> exists i :: 0 <= i < |entities| && entities[i].deviceId == id)
    && (forall i, j :: 0 <= i < j < |entities| ==> entities[i].deviceId != entities[j].deviceId)
  }

  /** Appending an entity for a new id. */
  lemma OnePerIdAppend(entities: seq<RelaySwitch>, ids: set<string>, e: RelaySwitch)
    requires OnePerId(entities, ids) && e.deviceId !in ids
    ensures OnePerId(entities + [e], ids + {e.deviceId})
  {
    var next := entities + [e];
    forall id | id in ids + {e.deviceId} ensures exists i :: 0 <= i < |next| && next[i].deviceId == id {
      if id == e.deviceId {
        assert next[|entities|].deviceId == id;
      } else {
        var i :| 0 <= i < |entities| && entities[i].deviceId == id;
        assert next[i].deviceId == id;
      }
    }
  }

  /**
   * The platform's `async_setup_entry`: one entity per switch-type device of the
   * coordinator's snapshot. The registry's device record is left as it was.
   */
  method SetupSwitches(registry: Integration.Registry, entryId: string) returns (entities: seq<RelaySwitch>)
    requires entryId in registry.entries
    ensures var c := registry.entries[entryId].coordinator;
      && OnePerId(entities, SwitchIds(c.data))
      && forall i :: 0 <= i < |entities| ==> fresh(entities[i]) && Built(entities[i], c, entryId, c.data)
  {
    var c := registry.entries[entryId].coordinator;
    var snap := c.data;
    var remaining := snap.Keys;
    entities := [];
    while remaining != {}
      invariant remaining <= snap.Keys
      invariant OnePerId(entities, SwitchIds(snap) - remaining)
      invariant forall i :: 0 <= i < |entities| ==> fresh(entities[i]) && Built(entities[i], c, entryId, snap)
      decreases remaining
    {
      var id :| id in remaining;
      ghost var before := SwitchIds(snap) - remaining;
      if IsSwitchDevice(snap[id]) {
        var e := new RelaySwitch(c, entryId, id, snap[id]);
        OnePerIdAppend(entities, before, e);
        entities := entities + [e];
        assert SwitchIds(snap) - (remaining - {id}) == before + {id};
      } else {
        assert SwitchIds(snap) - (remaining - {id}) == before;
      }
      remaining := remaining - {id};
    }
    assert SwitchIds(snap) - remaining == SwitchIds(snap);
  }

  /**
   * The loop of the new-device listener: an entity for every switch-type device
   * of the snapshot whose id is not in `tracked`, and the record grown by their ids.
   */
  method CreateNewSwitches(coordinator: DataCoordinator, entryId: string, tracked: set<string>)
    returns (added: seq<RelaySwitch>, current: set<string>)
    ensures current == tracked + NewSwitchIds(coordinator.data, tracked)
    ensures OnePerId(added, NewSwitchIds(coordinator.data, tracked))
    ensures forall i :: 0 <= i < |added| ==> fresh(added[i]) && Built(added[i], coordinator, entryId, coordinator.data)
  {
    current := tracked;
    var snap := coordinator.data;
    var remaining := snap.Keys;
    added := [];
    while remaining != {}
      invariant remaining <= snap.Keys
      invariant current == tracked + (NewSwitchIds(snap, tracked) - remaining)
      invariant OnePerId(added, NewSwitchIds(snap, tracked) - remaining)
      invariant forall i :: 0 <= i < |added| ==> fresh(added[i]) && Built(added[i], coordinator, entryId, snap)
      decreases remaining
    {
      var id :| id in remaining;
      ghost var before := NewSwitchIds(snap, tracked) - remaining;
      if id !in current && IsSwitchDevice(snap[id]) {
        var e := new RelaySwitch(coordinator, entryId, id, snap[id]);
        OnePerIdAppend(added, before, e);
        added := added + [e];
        current := current + {id};
        assert NewSwitchIds(snap, tracked) - (remaining - {id}) == before + {id};
      } else {
        assert NewSwitchIds(snap, tracked) - (remaining - {id}) == before;
      }
      remaining := remaining - {id};
    }
    assert NewSwitchIds(snap, tracked) - remaining == NewSwitchIds(snap, tracked);
  }

  /**
   * The new-device listener `handle_coordinator_update`: entities for the
   * switch-type devices not yet recorded, whose ids are then recorded in the
   * registry slot (written back only when there are new entities; without them
   * the record is already the same). Devices of other types are never recorded.
   * The listener is never removed, so it can run after unload popped the slot:
   * the lookup then raises KeyError and nothing changes.
   */
  method TrackNewDevices(registry: Integration.Registry, entryId: string, coordinator: DataCoordinator)
    returns (added: seq<RelaySwitch>, raised: bool)
    modifies registry
    ensures raised <==> entryId !in old(registry.entries)
    ensures raised ==> added == [] && registry.entries == old(registry.entries)
    ensures !raised ==>
      var slot := old(registry.entries[entryId]);
      registry.entries
        == old(registry.entries)[entryId := slot.(devices := slot.devices + NewSwitchIds(coordinator.data, slot.devices))]
    ensures !raised ==> OnePerId(added, NewSwitchIds(coordinator.data, old(registry.entries[entryId].devices)))
    ensures forall i :: 0 <= i < |added| ==> fresh(added[i]) && Built(added[i], coordinator, entryId, coordinator.data)
  {
    if entryId !in registry.entries {
      return [], true;
    }
    raised := false;
    var slot := registry.entries[entryId];
    var current;
    added, current := CreateNewSwitches(coordinator, entryId, slot.devices);
    if |added| > 0 {
      registry.entries := registry.entries[entryId := slot.(devices := current)];
    } else {
      assert NewSwitchIds(coordinator.data, slot.devices) == {};
      assert current == slot.devices;
      assert slot.(devices := current) == slot;
      assert registry.entries == registry.entries[entryId := slot];
    }
  }

  /**
   * The setup quirk through the operations themselves: after a passing probe and
   * a fetched first refresh, platform setup makes one entity per switch-type
   * device, and the listener's first run makes one per switch-type device again,
   * each with the unique id of an entity setup already made.
   */
  method SetupThenFirstUpdate(registry: Integration.Registry, entryId: string, entryData: Object,
                              probeReply: Response, firstRefresh: Response, now: Timestamp)
    returns (initial: seq<RelaySwitch>, added: seq<RelaySwitch>)
    requires TabletIpKey in entryData && TabletPortKey in entryData
    requires Integration.ProbeGate(probeReply) == Integration.Ready && UpdateOutcome(firstRefresh).Fetched?
    modifies registry
    ensures OnePerId(initial, SwitchIds(UpdateOutcome(firstRefresh).snapshot))
    ensures OnePerId(added, SwitchIds(UpdateOutcome(firstRefresh).snapshot))
    ensures forall i :: 0 <= i < |initial| ==>
      exists j :: 0 <= j < |added| && added[j].uniqueId == initial[i].uniqueId
  {
    var _, _, c := registry.SetupEntry(entryId, entryData, probeReply, firstRefresh, now);
    initial := SetupSwitches(registry, entryId);
    var raised;
    added, raised := TrackNewDevices(registry, entryId, c);
    FirstUpdateRecreatesSetupSwitches(c.data);
    forall i | 0 <= i < |initial|
      ensures exists j :: 0 <= j < |added| && added[j].uniqueId == initial[i].uniqueId
    {
      var j :| 0 <= j < |added| && added[j].deviceId == initial[i].deviceId;
    }
  }
}

/**
 * The sensor platform: the device-count sensor (the snapshot's size, and a
 * histogram of the devices by `type_name`) and the connection-status sensor
 * (Connected or Disconnected, and the time of the last good refresh).
 */
module Sensor {
  import opened Json
  import opened Transport
  import opened Const
  import opened Coordinator

  function DeviceCountUniqueId(entryId: string): string
  {
    entryId + "_device_count"
  }

  function ConnectionStatusUniqueId(entryId: string): string
  {
    entryId + "_connection_status"
  }

  /** The two sensors of one entry are the entry id with a fixed suffix each, and never share a unique id. */
  lemma SensorUniqueIds(entryId: string)
    ensures DeviceCountUniqueId(entryId) == entryId + "_device_count"
    ensures ConnectionStatusUniqueId(entryId) == entryId + "_connection_status"
    ensures DeviceCountUniqueId(entryId) != ConnectionStatusUniqueId(entryId)
    ensures entryId <= DeviceCountUniqueId(entryId) && entryId <= ConnectionStatusUniqueId(entryId)
  {
    assert |DeviceCountUniqueId(entryId)| != |ConnectionStatusUniqueId(entryId)|;
  }

  /** The device-count sensor's `native_value`: `len(coordinator.data)`. */
  function DeviceCount(snap: Snapshot): nat
  {
    |snap|
  }

  /**
   * After a refresh from a 200 reply listing only dicts with distinct ids, the
   * device count is the length of that list; with repeated ids it is smaller.
   */
  lemma DeviceCountAfterRefresh(fields: Object)
    requires "devices" in fields && fields["devices"].JArr?
    requires forall i :: 0 <= i < |fields["devices"].items| ==> fields["devices"].items[i].JObj?
    ensures UpdateOutcome(Reply(200, JObj(fields))).Fetched?
    ensures DeviceCount(UpdateOutcome(Reply(200, JObj(fields))).snapshot) <= |fields["devices"].items|
    ensures DistinctIds(fields["devices"].items) ==>
      DeviceCount(UpdateOutcome(Reply(200, JObj(fields))).snapshot) == |fields["devices"].items|
  {
    IndexDevicesDefined(fields["devices"].items);
    IndexDevicesSize(fields["devices"].items);
  }

  /**
   * The key a `type_name` lands under in the histogram dict: Python's dict merges
   * True with 1 and False with 0; a list or dict is unhashable (None, the loop raises).
   */
  function HistogramKey(v: Json): (k: Option<Json>)
    ensures k.Some? <==> !v.JArr? && !v.JObj?
    ensures k.Some? ==> !k.value.JBool?
    ensures v.JBool? ==> k == Some(JInt(if v.b then 1 else 0))
    ensures v.JStr? || v.JInt? || v.JNull? ==> k == Some(v)
  {
    match v
    case JBool(b) => Some(JInt(if b then 1 else 0))
    case JArr(_) => None
    case JObj(_) => None
    case _ => Some(v)
  }

  /** `device.get("type_name", "unknown")`, as a histogram key. */
  function TypeNameOf(d: Entry): Option<Json>
  {
    HistogramKey(Get(d, "type_name", JStr("unknown")))
  }

  /** The devices of `done` counted under key `t`. */
  function Holders(snap: Snapshot, done: set<string>, t: Json): set<string>
  {
    set id | id in done && id in snap && TypeNameOf(snap[id]) == Some(t)
  }

  /** The histogram keys the devices of `done` produce. */
  function TypeNames(snap: Snapshot, done: set<string>): set<Json>
  {
    set id | id in done && id in snap && TypeNameOf(snap[id]).Some? :: TypeNameOf(snap[id]).value
  }

  /** Some device's `type_name` cannot be a dict key. */
  predicate HasUnhashableTypeName(snap: Snapshot)
  {
    exists id :: id in snap && TypeNameOf(snap[id]).None?
  }

  /** The sum of a histogram's counts. */
  ghost function Total(h: map<Json, nat>): nat
    decreases |h|
  {
    if h == map[] then 0
    else
      var k := Pick(h.Keys);
      h[k] + Total(h - {k})
  }

  /** Some element of a non-empty set. */
  ghost function Pick(s: set<Json>): (x: Json)
    requires s != {}
    ensures x in s
  {
    var x :| x in s; x
  }

  /** `Total` may take out any key first. */
  lemma {:induction false} TotalRemove(h: map<Json, nat>, k: Json)
    requires k in h
    ensures Total(h) == h[k] + Total(h - {k})
    decreases |h|
  {
    var j := Pick(h.Keys);
    if j != k {
      TotalRemove(h - {j}, k);
      TotalRemove(h - {k}, j);
      assert h - {j} - {k} == h - {k} - {j};
    }
  }

  /** What the histogram loop keeps: one count per key, matching the devices visited so far . */
  ghost predicate CountsSoFar(snap: Snapshot, done: set<string>, counts: map<Json, nat>)
  {
    && (forall id :: id in done ==> id in snap && TypeNameOf(snap[id]).Some?)
    && counts.Keys == TypeNames(snap, done)
    && (forall t :: t in counts ==> counts[t] == |Holders(snap, done, t)| && counts[t] >= 1)
  }

  /** Visiting one more device under key `t` adds it to that key's holders. */
  lemma HoldersGrow(snap: Snapshot, done: set<string>, id: string, t: Json)
    requires id in snap && id !in done && TypeNameOf(snap[id]) == Some(t)
    ensures Holders(snap, done + {id}, t) == Holders(snap, done, t) + {id}
    ensures |Holders(snap, done + {id}, t)| == |Holders(snap, done, t)| + 1
  {
  }

  /** ... and leaves the holders of every other key as they were. */
  lemma HoldersKeep(snap: Snapshot, done: set<string>, id: string, t: Json, u: Json)
    requires id in snap && TypeNameOf(snap[id]) == Some(t) && u != t
    ensures Holders(snap, done + {id}, u) == Holders(snap, done, u)
  {
  }

  /** ... and adds `t` to the keys. */
  lemma TypeNamesGrow(snap: Snapshot, done: set<string>, id: string, t: Json)
    requires id in snap && TypeNameOf(snap[id]) == Some(t)
    ensures TypeNames(snap, done + {id}) == TypeNames(snap, done) + {t}
  {
  }

  /** After one step, the count of key `u` is still the number of its holders. */
  lemma CountAt(snap: Snapshot, done: set<string>, counts: map<Json, nat>, id: string, t: Json, u: Json)
    requires CountsSoFar(snap, done, counts)
    requires id in snap && id !in done && TypeNameOf(snap[id]) == Some(t)
    requires u in counts || u == t
    ensures var next := counts[t := (if t in counts then counts[t] else 0) + 1];
      next[u] == |Holders(snap, done + {id}, u)| && next[u] >= 1
  {
    if u == t {
      HoldersGrow(snap, done, id, t);
      if t !in counts {
        assert Holders(snap, done, t) == {};
      }
    } else {
      HoldersKeep(snap, done, id, t, u);
    }
  }

  /** One step of the loop: `device_types[t] = device_types.get(t, 0) + 1` for a new device under key `t`. */
  lemma CountStep(snap: Snapshot, done: set<string>, counts: map<Json, nat>, id: string, t: Json)
    requires CountsSoFar(snap, done, counts)
    requires id in snap && id !in done && TypeNameOf(snap[id]) == Some(t)
    ensures CountsSoFar(snap, done + {id}, counts[t := (if t in counts then counts[t] else 0) + 1])
  {
    var next := counts[t := (if t in counts then counts[t] else 0) + 1];
    forall u | u in next
      ensures next[u] == |Holders(snap, done + {id}, u)| && next[u] >= 1
    {
      CountAt(snap, done, counts, id, t, u);
    }
    TypeNamesGrow(snap, done, id, t);
  }

  /** Dropping a key and the devices under it keeps the loop's record of the other keys. */
  lemma CountsWithout(snap: Snapshot, done: set<string>, counts: map<Json, nat>, k: Json)
    requires CountsSoFar(snap, done, counts) && k in counts
    ensures CountsSoFar(snap, done - Holders(snap, done, k), counts - {k})
  {
    var rest := done - Holders(snap, done, k);
    forall t | t in counts && t != k ensures Holders(snap, rest, t) == Holders(snap, done, t) { }
    assert TypeNames(snap, rest) == TypeNames(snap, done) - {k} by {
      forall t | t in TypeNames(snap, done) && t != k ensures t in TypeNames(snap, rest) {
        var id :| id in done && id in snap && TypeNameOf(snap[id]).Some? && t == TypeNameOf(snap[id]).value;
        assert id in rest;
      }
    }
  }

  /** The counts the loop keeps add up to the number of devices it has visited. */
  lemma {:induction false} CountsTotal(snap: Snapshot, done: set<string>, counts: map<Json, nat>)
    requires CountsSoFar(snap, done, counts)
    ensures Total(counts) == |done|
    decreases |counts|
  {
    if counts == map[] {
      forall id | id in done ensures TypeNameOf(snap[id]).value in TypeNames(snap, done) { }
      assert done == {};
    } else {
      var k := Pick(counts.Keys);
      var holders := Holders(snap, done, k);
      TotalRemove(counts, k);
      CountsWithout(snap, done, counts, k);
      CountsTotal(snap, done - holders, counts - {k});
      assert done == (done - holders) + holders;
      assert |done| == |done - holders| + |holders|;
    }
  }

  /**
   * The `device_types` loop of the device-count sensor's attributes: each key is
   * a `type_name` occurring in the snapshot (a missing one counting as
   * `"unknown"`), its count the number of devices carrying it, at least one,
   * and the counts add up to the device count. The loop raises (None) exactly
   * when some `type_name` is a list or a dict.
   */
  method DeviceTypeCounts(snap: Snapshot) returns (h: Option<map<Json, nat>>)
    ensures h.None? <==> HasUnhashableTypeName(snap)
    ensures h.Some? ==> h.value.Keys == TypeNames(snap, snap.Keys)
    ensures h.Some? ==> forall t :: t in h.value ==> h.value[t] == |Holders(snap, snap.Keys, t)| && h.value[t] >= 1
    ensures h.Some? ==> Total(h.value) == DeviceCount(snap)
  {
    var counts: map<Json, nat> := map[];
    var remaining := snap.Keys;
    while remaining != {}
      invariant remaining <= snap.Keys
      invariant CountsSoFar(snap, snap.Keys - remaining, counts)
      decreases remaining
    {
      var id :| id in remaining;
      var key := TypeNameOf(snap[id]);
      if key.None? {
        assert HasUnhashableTypeName(snap);
        return None;
      }
      var t := key.value;
      var next := counts[t := (if t in counts then counts[t] else 0) + 1];
      ghost var done := snap.Keys - remaining;
      CountStep(snap, done, counts, id, t);
      assert snap.Keys - (remaining - {id}) == done + {id};
      counts, remaining := next, remaining - {id};
    }
    assert snap.Keys - remaining == snap.Keys;
    assert !HasUnhashableTypeName(snap);
    CountsTotal(snap, snap.Keys, counts);
    h := Some(counts);
  }

  /**
   * The histogram is keyed by `type_name`, not by the numeric relay type: when no
   * device has a `type_name`, every device is counted under `"unknown"`.
   */
  lemma HistogramIgnoresRelayType(snap: Snapshot)
    requires snap != map[]
    requires forall id :: id in snap ==> "type_name" !in snap[id]
    ensures TypeNames(snap, snap.Keys) == {JStr("unknown")}
    ensures Holders(snap, snap.Keys, JStr("unknown")) == snap.Keys
  {
    var id :| id in snap;
    assert TypeNameOf(snap[id]) == Some(JStr("unknown"));
  }

  /**
   * One lamp of relay type 1 without a `type_name`: the first refresh yields one
   * device, and the histogram counts it under `"unknown"`, not under `Light`.
   */
  lemma OneLampScenario(lamp: Entry)
    requires lamp == map["id" := JStr("1"), "type" := JInt(RelayTypeLight), "name" := JStr("Lamp"), "state" := JBool(false)]
    ensures UpdateOutcome(Reply(200, JObj(map["devices" := JArr([JObj(lamp)])]))) == Fetched(map["1" := lamp])
    ensures DeviceCount(map["1" := lamp]) == 1
    ensures TypeNames(map["1" := lamp], {"1"}) == {JStr("unknown")}
    ensures Holders(map["1" := lamp], {"1"}, JStr("unknown")) == {"1"}
  {
    var items := [JObj(lamp)];
    assert IdKey(lamp) == "1";
    assert items[..|items| - 1] == [];
    assert IndexDevices(items) == Some(map[]["1" := lamp]);
    assert DeviceList(JObj(map["devices" := JArr(items)])) == Some(items);
    var snap := map["1" := lamp];
    assert "1" in snap && snap.Keys == {"1"};
    HistogramIgnoresRelayType(snap);
  }

  /** A command's merge never adds or drops a device, so the device count stays as it was. */
  lemma CommandKeepsDeviceCount(snap: Snapshot, id: string, result: Object)
    ensures DeviceCount(Patch(snap, id, result)) == DeviceCount(snap)
  {
    assert Patch(snap, id, result).Keys == snap.Keys;
  }

  /** The device-count sensor's `extra_state_attributes`. */
  datatype DeviceCountAttributes = DeviceCountAttributes(deviceTypes: map<Json, nat>, tabletIp: Json, tabletPort: Json)

  /** The attributes, or None when the histogram loop raises. */
  method DeviceCountAttributesOf(snap: Snapshot, entryData: Object) returns (attrs: Option<DeviceCountAttributes>)
    requires TabletIpKey in entryData && TabletPortKey in entryData
    ensures attrs.None? <==> HasUnhashableTypeName(snap)
    ensures attrs.Some? ==>
      && attrs.value.tabletIp == entryData[TabletIpKey] && attrs.value.tabletPort == entryData[TabletPortKey]
      && attrs.value.deviceTypes.Keys == TypeNames(snap, snap.Keys)
      && (forall t :: t in attrs.value.deviceTypes ==> attrs.value.deviceTypes[t] == |Holders(snap, snap.Keys, t)|)
      && Total(attrs.value.deviceTypes) == DeviceCount(snap)
  {
    var h := DeviceTypeCounts(snap);
    if h.None? {
      return None;
    }
    attrs := Some(DeviceCountAttributes(h.value, entryData[TabletIpKey], entryData[TabletPortKey]));
  }

  /** The connection-status sensor's `native_value`. */
  function ConnectionStatus(lastUpdateSuccess: bool): (s: string)
    ensures s == "Connected" <==> lastUpdateSuccess
    ensures s == "Connected" || s == "Disconnected"
  {
    if lastUpdateSuccess then "Connected" else "Disconnected"
  }

  /** An attribute value: a JSON value from the entry, or the (unformatted) time of the last update. */
  datatype AttributeValue = Plain(value: Json) | Instant(at: Timestamp)

  /** The connection-status sensor's `extra_state_attributes`: `last_update` only after a successful update that set a time. */
  method ConnectionAttributes(entryData: Object, lastUpdateSuccess: bool, lastUpdate: Option<Timestamp>)
    returns (attrs: map<string, AttributeValue>)
    requires TabletIpKey in entryData && TabletPortKey in entryData
    ensures "last_update" in attrs <==> lastUpdateSuccess && lastUpdate.Some?
    ensures "last_update" in attrs ==> attrs["last_update"] == Instant(lastUpdate.value)
    ensures attrs.Keys - {"last_update"} == {"tablet_ip", "tablet_port"}
    ensures attrs["tablet_ip"] == Plain(entryData[TabletIpKey]) && attrs["tablet_port"] == Plain(entryData[TabletPortKey])
  {
    attrs := map["tablet_ip" := Plain(entryData[TabletIpKey]), "tablet_port" := Plain(entryData[TabletPortKey])];
    if lastUpdateSuccess && lastUpdate.Some? {
      attrs := attrs["last_update" := Instant(lastUpdate.value)];
    }
  }

  /**
   * Both status views of one coordinator after a refresh: Connected with the new
   * time and the new snapshot's size after a fetched snapshot; Disconnected,
   * without `last_update`, still counting the retained snapshot after a failure.
   */
  method StatusAfterRefresh(c: DataCoordinator, reply: Response, now: Timestamp)
    returns (count: nat, status: string, attrs: map<string, AttributeValue>)
    requires TabletIpKey in c.entryData && TabletPortKey in c.entryData
    modifies c`data, c`lastUpdateSuccess, c`lastUpdate
    ensures status == "Connected" <==> UpdateOutcome(reply).Fetched?
    ensures UpdateOutcome(reply).Fetched? ==>
      count == |UpdateOutcome(reply).snapshot| && "last_update" in attrs && attrs["last_update"] == Instant(now)
    ensures UpdateOutcome(reply).Failed? ==> count == |old(c.data)| && status == "Disconnected" && "last_update" !in attrs
    ensures UpdateOutcome(reply).Fetched? ==>
      c.data == UpdateOutcome(reply).snapshot && c.lastUpdateSuccess && c.lastUpdate == Some(now)
    ensures UpdateOutcome(reply).Failed? ==>
      c.data == old(c.data) && !c.lastUpdateSuccess && c.lastUpdate == old(c.lastUpdate)
  {
    var _ := c.Refresh(reply, now);
    count := DeviceCount(c.data);
    status := ConnectionStatus(c.lastUpdateSuccess);
    attrs := ConnectionAttributes(c.entryData, c.lastUpdateSuccess, c.lastUpdate);
  }
}

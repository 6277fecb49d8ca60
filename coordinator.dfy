/**
 * The data coordinator of one configured tablet: it turns the `/api/devices`
 * reply into the device snapshot (a map keyed by `str(id)`), sends relay
 * commands and merges their replies into the one affected snapshot entry,
 * and probes `/api/status`.
 */
module Coordinator {
  import opened Json
  import opened Transport
  import opened Const

  /** One device as the tablet reports it (a Python dict). */
  type Entry = Object
  /** Device id to device, as held in `coordinator.data`. */
  type Snapshot = map<string, Entry>
  /** An instant; its formatting is not modelled. */
  type Timestamp = nat

  const AuthHeader := "X-HA-Access"

  /** Why a refresh produced no snapshot. */
  datatype FetchFailure =
    | BadStatus(status: int)   // UpdateFailed: the API answered with another status than 200
    | TimedOut                 // UpdateFailed: the 10 s timeout fired
    | ClientFailure            // UpdateFailed: an aiohttp client error
    | Unexpected               // a body of the wrong shape; the error escapes the handlers

  datatype FetchResult = Fetched(snapshot: Snapshot) | Failed(cause: FetchFailure)

  /** Why a relay command raised. */
  datatype CommandFailure =
    | CommandTimedOut
    | CommandClientError
    | Rejected(status: int)    // "Command failed: ..." for another status than 200
    | BadResult                // a 200 body that is not a dict cannot be merged into the entry

  /** A command either returns the tablet's reply (and says whether the snapshot was patched) or raises. */
  datatype CommandResult = Sent(result: Json, patched: bool) | CommandFailed(cause: CommandFailure)

  /** The request headers: the shared secret is sent only when the entry enables authentication. */
  function AuthHeaders(entryData: Object): (h: Headers)
    ensures h.Keys <= {AuthHeader}
    ensures AuthHeader in h <==> Truthy(Get(entryData, UseAuthKey, JBool(false)))
    ensures AuthHeader in h ==> h[AuthHeader] == Get(entryData, ApiKeyKey, JStr(""))
    ensures !Truthy(Get(entryData, UseAuthKey, JBool(false))) ==> h == map[]
  {
    if Truthy(Get(entryData, UseAuthKey, JBool(false)))
    then map[AuthHeader := Get(entryData, ApiKeyKey, JStr(""))]
    else map[]
  }

  /**
   * The values `for device in data.get("devices", [])` iterates over, or None when
   * that raises: a body that is not a dict has no `get`; iterating a non-empty
   * dict or string yields strings, which have no `get` either; None, booleans
   * and numbers are not iterable.
   */
  function DeviceList(body: Json): (r: Option<seq<Json>>)
    ensures body.JObj? && "devices" !in body.fields ==> r == Some([])
    ensures body.JObj? && "devices" in body.fields && body.fields["devices"].JArr? ==> r == Some(body.fields["devices"].items)
    ensures !body.JObj? ==> r == None
  {
    match body
    case JObj(m) =>
      if "devices" !in m then Some([])
      else (
        match m["devices"]
        case JArr(items) => Some(items)
        case JObj(f) => if f == map[] then Some([]) else None
        case JStr(s) => if s == "" then Some([]) else None
        case _ => None
      )
    case _ => None
  }

  /** `str(device.get("id"))`: the snapshot key of a device. */
  function IdKey(device: Entry): string
  {
    Str(Get(device, "id", JNull))
  }

  /**
   * The dict the loop over the device list builds, each device stored under its
   * `IdKey` in list order (a later device replaces an earlier one with the same key);
   * None when some element is not a dict.
   */
  function IndexDevices(items: seq<Json>): Option<Snapshot>
    decreases |items|
  {
    if items == [] then Some(map[])
    else
      match IndexDevices(items[..|items| - 1])
      case None => None
      case Some(prev) =>
        match items[|items| - 1]
        case JObj(device) => Some(prev[IdKey(device) := device])
        case _ => None
  }

  /** The list is indexed exactly when every element is a dict. */
  lemma {:induction false} IndexDevicesDefined(items: seq<Json>)
    ensures IndexDevices(items).Some? <==> forall i :: 0 <= i < |items| ==> items[i].JObj?
    decreases |items|
  {
    if items != [] {
      var init := items[..|items| - 1];
      IndexDevicesDefined(init);
      assert forall i :: 0 <= i < |init| ==> init[i] == items[i];
    }
  }

  /** The snapshot has one key per distinct `str(id)` in the list, and no other. */
  lemma {:induction false} IndexDevicesKeys(items: seq<Json>)
    requires IndexDevices(items).Some?
    ensures IndexDevices(items).value.Keys
         == set i | 0 <= i < |items| && items[i].JObj? :: IdKey(items[i].fields)
    decreases |items|
  {
    if items != [] {
      var n := |items| - 1;
      var init := items[..n];
      IndexDevicesKeys(init);
      var before := set i | 0 <= i < |init| && init[i].JObj? :: IdKey(init[i].fields);
      var after := set i | 0 <= i < |items| && items[i].JObj? :: IdKey(items[i].fields);
      assert after == before + {IdKey(items[n].fields)} by {
        forall k | k in after ensures k in before + {IdKey(items[n].fields)} {
          var i :| 0 <= i < |items| && items[i].JObj? && k == IdKey(items[i].fields);
          if i < n { assert init[i] == items[i]; }
        }
        forall k | k in before ensures k in after {
          var i :| 0 <= i < |init| && init[i].JObj? && k == IdKey(init[i].fields);
          assert items[i] == init[i];
        }
      }
    }
  }

  /** For duplicate ids the later device wins: a device no later device shares a key with is the one stored. */
  lemma {:induction false} IndexDevicesLastWins(items: seq<Json>, j: nat)
    requires IndexDevices(items).Some?
    requires j < |items| && items[j].JObj?
    requires forall k :: j < k < |items| && items[k].JObj? ==> IdKey(items[k].fields) != IdKey(items[j].fields)
    ensures IdKey(items[j].fields) in IndexDevices(items).value
    ensures IndexDevices(items).value[IdKey(items[j].fields)] == items[j].fields
    decreases |items|
  {
    var n := |items| - 1;
    if j < n {
      var init := items[..n];
      assert init[j] == items[j];
      forall k | j < k < |init| && init[k].JObj?
        ensures IdKey(init[k].fields) != IdKey(init[j].fields)
      {
        assert init[k] == items[k];
      }
      IndexDevicesLastWins(init, j);
    }
  }

  /** No two dicts of the list share a `str(id)`. */
  predicate DistinctIds(items: seq<Json>)
  {
    forall i, j :: 0 <= i < j < |items| && items[i].JObj? && items[j].JObj? ==>
      IdKey(items[i].fields) != IdKey(items[j].fields)
  }

  /** Indexing never yields more entries than the list has, and exactly as many when the ids are distinct. */
  lemma {:induction false} IndexDevicesSize(items: seq<Json>)
    requires IndexDevices(items).Some?
    ensures |IndexDevices(items).value| <= |items|
    ensures DistinctIds(items) ==> |IndexDevices(items).value| == |items|
    decreases |items|
  {
    if items != [] {
      var n := |items| - 1;
      var init := items[..n];
      IndexDevicesSize(init);
      var prev := IndexDevices(init).value;
      var k := IdKey(items[n].fields);
      assert IndexDevices(items).value == prev[k := items[n].fields];
      if DistinctIds(items) {
        assert DistinctIds(init) by {
          forall i, j | 0 <= i < j < |init| && init[i].JObj? && init[j].JObj?
            ensures IdKey(init[i].fields) != IdKey(init[j].fields)
          {
            assert init[i] == items[i] && init[j] == items[j];
          }
        }
        IndexDevicesKeys(init);
      }
    }
  }

  /** What `_async_update_data` makes of one `/api/devices` outcome. */
  function UpdateOutcome(reply: Response): FetchResult
  {
    match reply
    case Timeout => Failed(TimedOut)
    case ClientError => Failed(ClientFailure)
    case Reply(status, body) =>
      if status != 200 then Failed(BadStatus(status))
      else (
        match DeviceList(body)
        case None => Failed(Unexpected)
        case Some(items) =>
          match IndexDevices(items)
          case None => Failed(Unexpected)
          case Some(snapshot) => Fetched(snapshot)
      )
  }

  /** Only a 200 reply can give a snapshot; a timeout, a client error or another status gives UpdateFailed. */
  lemma FailuresGiveNoSnapshot(reply: Response)
    ensures UpdateOutcome(reply).Fetched? ==> reply.Reply? && reply.status == 200 && reply.body.JObj?
    ensures reply.Timeout? ==> UpdateOutcome(reply) == Failed(TimedOut)
    ensures reply.ClientError? ==> UpdateOutcome(reply) == Failed(ClientFailure)
    ensures reply.Reply? && reply.status != 200 ==> UpdateOutcome(reply) == Failed(BadStatus(reply.status))
  {
  }

  /** A 200 reply without a `devices` field gives the empty snapshot. */
  lemma MissingDevicesGiveEmptySnapshot(fields: Object)
    requires "devices" !in fields
    ensures UpdateOutcome(Reply(200, JObj(fields))) == Fetched(map[])
  {
  }

  /** A 200 reply listing dicts gives the snapshot keyed by their ids, the last device of each id winning. */
  lemma DeviceListSnapshot(fields: Object, j: nat)
    requires "devices" in fields && fields["devices"].JArr?
    requires var items := fields["devices"].items;
      (forall i :: 0 <= i < |items| ==> items[i].JObj?) && j < |items|
      && forall k :: j < k < |items| ==> IdKey(items[k].fields) != IdKey(items[j].fields)
    ensures var items := fields["devices"].items;
      var out := UpdateOutcome(Reply(200, JObj(fields)));
      && out.Fetched?
      && out.snapshot.Keys == (set i | 0 <= i < |items| && items[i].JObj? :: IdKey(items[i].fields))
      && out.snapshot[IdKey(items[j].fields)] == items[j].fields
  {
    var items := fields["devices"].items;
    IndexDevicesDefined(items);
    IndexDevicesKeys(items);
    IndexDevicesLastWins(items, j);
  }

  /** A command's outcome for the snapshot it finds and the tablet's reply. */
  function CommandOutcome(snap: Snapshot, deviceId: string, reply: Response): (r: CommandResult)
    ensures r.Sent? <==> reply.Reply? && reply.status == 200 && (deviceId in snap ==> reply.body.JObj?)
    ensures r.Sent? ==> r.result == reply.body && r.patched == (deviceId in snap)
    ensures reply.Reply? && reply.status != 200 ==> r == CommandFailed(Rejected(reply.status))
  {
    match reply
    case Timeout => CommandFailed(CommandTimedOut)
    case ClientError => CommandFailed(CommandClientError)
    case Reply(status, body) =>
      if status != 200 then CommandFailed(Rejected(status))
      else if deviceId !in snap then Sent(body, false)
      else if body.JObj? then Sent(body, true)
      else CommandFailed(BadResult)
  }

  /**
   * `data[id].update(result)` when `id` is in the snapshot: the reply's fields
   * overwrite the entry's, its other fields stay, and no other entry changes.
   */
  function Patch(snap: Snapshot, id: string, result: Object): (r: Snapshot)
    ensures r.Keys == snap.Keys
    ensures forall k :: k in snap && k != id ==> r[k] == snap[k]
    ensures id in snap ==> r[id].Keys == snap[id].Keys + result.Keys
    ensures id in snap ==> forall f :: f in result ==> r[id][f] == result[f]
    ensures id in snap ==> forall f :: f in snap[id] && f !in result ==> r[id][f] == snap[id][f]
    ensures id !in snap ==> r == snap
  {
    if id in snap then snap[id := snap[id] + result] else snap
  }

  /** The request of `send_relay_command`: always a POST; `toggle` has an empty body, any other command sends the value. */
  function RelayRequest(baseUrl: string, headers: Headers, deviceId: string, command: string, value: Json): (req: Request)
    ensures req.verb == "POST" && req.headers == headers
    ensures command == "toggle" ==>
      req.url == baseUrl + ("/api/relay/" + deviceId + "/toggle") && req.body == Some(JObj(map[]))
    ensures command != "toggle" ==>
      req.url == baseUrl + ("/api/relay/" + deviceId + "/state") && req.body == Some(JObj(map["state" := value]))
  {
    if command == "toggle" then
      RelayToggleEndpoint(deviceId);
      Request("POST", baseUrl + Format(ApiRelayToggle, deviceId), headers, Some(JObj(map[])))
    else
      RelayStateEndpoint(deviceId);
      Request("POST", baseUrl + Format(ApiRelayState, deviceId), headers, Some(JObj(map["state" := value])))
  }

  /** What `test_connection` returns: the `online` field of a 200 dict reply (False when absent), else False. */
  function ConnectionTest(reply: Response): (online: Json)
    ensures !IsOkObject(reply) ==> online == JBool(false)
    ensures IsOkObject(reply) && "online" !in reply.body.fields ==> online == JBool(false)
    ensures IsOkObject(reply) && "online" in reply.body.fields ==> online == reply.body.fields["online"]
  {
    if IsOkObject(reply) then Get(reply.body.fields, "online", JBool(false)) else JBool(false)
  }

  class DataCoordinator {
    const entryData: Object
    const baseUrl: string
    const headers: Headers
    /** Seconds between scheduled refreshes. */
    const updateInterval: nat
    /** The snapshot; replaced by a successful refresh, patched by a successful command. */
    var data: Snapshot
    // Status kept by the host's coordinator base class.
    var lastUpdateSuccess: bool
    var lastUpdate: Option<Timestamp>

    constructor (entryData: Object)
      requires TabletIpKey in entryData && TabletPortKey in entryData
      ensures this.entryData == entryData
      ensures baseUrl == BaseUrl(entryData[TabletIpKey], entryData[TabletPortKey])
      ensures headers == AuthHeaders(entryData)
      ensures updateInterval == DefaultUpdateInterval
      ensures data == map[] && lastUpdateSuccess && lastUpdate == None
    {
      this.entryData := entryData;
      baseUrl := BaseUrl(entryData[TabletIpKey], entryData[TabletPortKey]);
      var h: Headers := map[];
      if Truthy(Get(entryData, UseAuthKey, JBool(false))) {
        h := h[AuthHeader := Get(entryData, ApiKeyKey, JStr(""))];
      }
      headers := h;
      updateInterval := DefaultUpdateInterval;
      data := map[];
      lastUpdateSuccess := true;
      lastUpdate := None;
    }

    /** `_async_update_data`: GET the device list and index it by `str(id)`. */
    method FetchDevices(reply: Response) returns (req: Request, out: FetchResult)
      ensures req == Request("GET", baseUrl + ApiDevices, headers, None)
      ensures out == UpdateOutcome(reply)
    {
      req := Request("GET", baseUrl + ApiDevices, headers, None);
      if reply.Timeout? {
        return req, Failed(TimedOut);
      }
      if reply.ClientError? {
        return req, Failed(ClientFailure);
      }
      if reply.status != 200 {
        return req, Failed(BadStatus(reply.status));
      }
      var list := DeviceList(reply.body);
      if list.None? {
        return req, Failed(Unexpected);
      }
      var items := list.value;
      var devices: Snapshot := map[];
      var i := 0;
      while i < |items|
        invariant 0 <= i <= |items|
        invariant IndexDevices(items[..i]) == Some(devices)
      {
        if !items[i].JObj? {
          IndexDevicesDefined(items);
          return req, Failed(Unexpected);
        }
        var device := items[i].fields;
        devices := devices[IdKey(device) := device];
        assert items[..i + 1][..i] == items[..i];
        i := i + 1;
      }
      assert items[..|items|] == items;
      out := Fetched(devices);
    }

    /**
     * One refresh as the host's coordinator base class runs it (an assumption about
     * that class, not code of this integration): a fetched snapshot replaces the data
     * and marks success at `now`; a failure keeps the data and marks failure.
     */
    method Refresh(reply: Response, now: Timestamp) returns (out: FetchResult)
      modifies this`data, this`lastUpdateSuccess, this`lastUpdate
      ensures out == UpdateOutcome(reply)
      ensures out.Fetched? ==> data == out.snapshot && lastUpdateSuccess && lastUpdate == Some(now)
      ensures out.Failed? ==> data == old(data) && !lastUpdateSuccess && lastUpdate == old(lastUpdate)
    {
      var _, fetched := FetchDevices(reply);
      out := fetched;
      if out.Fetched? {
        data := out.snapshot;
        lastUpdateSuccess := true;
        lastUpdate := Some(now);
      } else {
        lastUpdateSuccess := false;
      }
    }

    /**
     * `send_relay_command`: POST the command; on a 200 reply merge it into the
     * device's entry when the device is in the snapshot (listeners are then
     * notified) and return it; otherwise raise and leave the snapshot alone.
     */
    method SendRelayCommand(deviceId: string, command: string, value: Json, reply: Response)
      returns (req: Request, out: CommandResult)
      modifies this`data
      ensures req == RelayRequest(baseUrl, headers, deviceId, command, value)
      ensures out == CommandOutcome(old(data), deviceId, reply)
      ensures data == if out.Sent? && out.patched then Patch(old(data), deviceId, out.result.fields) else old(data)
    {
      req := RelayRequest(baseUrl, headers, deviceId, command, value);
      match reply
      case Timeout => out := CommandFailed(CommandTimedOut);
      case ClientError => out := CommandFailed(CommandClientError);
      case Reply(status, body) =>
        if status != 200 {
          out := CommandFailed(Rejected(status));
        } else if deviceId in data {
          if body.JObj? {
            data := data[deviceId := data[deviceId] + body.fields];
            out := Sent(body, true);
          } else {
            out := CommandFailed(BadResult);
          }
        } else {
          out := Sent(body, false);
        }
    }
  }
}

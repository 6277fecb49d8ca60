/**
 * Setting up, unloading and reloading one configuration entry, and the
 * per-domain registry (`hass.data[DOMAIN]`) that setup fills: the status probe
 * decides whether the entry is ready, the registry slot is stored before the
 * first refresh, and unload drops the slot only when the platforms unloaded.
 */
module Integration {
  import opened Json
  import opened Transport
  import opened Const
  import opened Coordinator

  /** `hass.data[DOMAIN][entry_id]`: the coordinator and the ids the new-device listener has recorded. */
  datatype Slot = Slot(coordinator: DataCoordinator, devices: set<string>)

  /** How the status probe ends `async_setup_entry`'s first step. */
  datatype Gate =
    | Ready
    | NotReady   // ConfigEntryNotReady: another status, `online` falsy, a timeout or a client error
    | Raised     // a 200 body that is not a dict: `data.get` raises an error no handler catches

  datatype SetupResult = Loaded | NotReadyAtProbe | NotReadyAtFirstRefresh | ProbeRaised

  /** `pop` of an entry id that is not in the registry raises KeyError. */
  datatype UnloadResult = Unloaded(ok: bool) | UnloadRaised

  datatype ReloadResult = Reloaded(setup: SetupResult) | ReloadRaised

  /** The probe `async_setup_entry` sends: GET `/api/status`, with the shared secret only when `use_auth` is set. */
  function StatusProbe(entryData: Object): (req: Request)
    requires TabletIpKey in entryData && TabletPortKey in entryData
    ensures req.verb == "GET" && req.body == None
    ensures req.url == BaseUrl(entryData[TabletIpKey], entryData[TabletPortKey]) + ApiStatus
    ensures AuthHeader in req.headers <==> Truthy(Get(entryData, UseAuthKey, JBool(false)))
    ensures req.headers.Keys <= {AuthHeader}
  {
    Request("GET", BaseUrl(entryData[TabletIpKey], entryData[TabletPortKey]) + ApiStatus, AuthHeaders(entryData), None)
  }

  /** The decision of the probe: ready exactly on a 200 dict reply whose `online` field is truthy. */
  function ProbeGate(reply: Response): (g: Gate)
    ensures g == Ready <==> IsOkObject(reply) && Truthy(Get(reply.body.fields, "online", JNull))
    ensures g == Raised <==> reply.Reply? && reply.status == 200 && !reply.body.JObj?
    ensures reply.Timeout? || reply.ClientError? ==> g == NotReady
    ensures reply.Reply? && reply.status != 200 ==> g == NotReady
  {
    match reply
    case Timeout => NotReady
    case ClientError => NotReady
    case Reply(status, body) =>
      if status != 200 then NotReady
      else if !body.JObj? then Raised
      else if !Truthy(Get(body.fields, "online", JNull)) then NotReady
      else Ready
  }

  /** The setup probe and the coordinator's `test_connection` agree on every reply to `/api/status`. */
  lemma ProbeAgreesWithConnectionTest(reply: Response)
    ensures ProbeGate(reply) == Ready <==> Truthy(ConnectionTest(reply))
  {
  }

  class Registry {
    var entries: map<string, Slot>

    constructor ()
      ensures entries == map[]
    {
      entries := map[];
    }

    /**
     * `async_setup_entry` up to the platforms: probe, then create the coordinator,
     * store its slot with an empty device record, then run the first refresh
     * (whose failure, by the host's rule, makes the entry not ready).
     */
    method SetupEntry(entryId: string, entryData: Object, probeReply: Response, firstRefresh: Response, now: Timestamp)
      returns (probe: Request, out: SetupResult, coordinator: DataCoordinator?)
      requires TabletIpKey in entryData && TabletPortKey in entryData
      modifies this
      ensures probe == StatusProbe(entryData)
      ensures ProbeGate(probeReply) == NotReady ==> out == NotReadyAtProbe
      ensures ProbeGate(probeReply) == Raised ==> out == ProbeRaised
      ensures ProbeGate(probeReply) != Ready ==> entries == old(entries) && coordinator == null
      ensures ProbeGate(probeReply) == Ready ==>
        && coordinator != null && fresh(coordinator)
        && coordinator.entryData == entryData && coordinator.headers == AuthHeaders(entryData)
        && coordinator.baseUrl == BaseUrl(entryData[TabletIpKey], entryData[TabletPortKey])
        && coordinator.updateInterval == DefaultUpdateInterval
        && entries == old(entries)[entryId := Slot(coordinator, {})]
        && (UpdateOutcome(firstRefresh).Fetched? ==>
              out == Loaded && coordinator.lastUpdateSuccess && coordinator.lastUpdate == Some(now)
              && coordinator.data == UpdateOutcome(firstRefresh).snapshot)
        && (UpdateOutcome(firstRefresh).Failed? ==>
              out == NotReadyAtFirstRefresh && !coordinator.lastUpdateSuccess && coordinator.data == map[]
              && coordinator.lastUpdate == None)
    {
      var headers: Headers := map[];
      if Truthy(Get(entryData, UseAuthKey, JBool(false))) {
        headers := headers[AuthHeader := Get(entryData, ApiKeyKey, JStr(""))];
      }
      probe := Request("GET", BaseUrl(entryData[TabletIpKey], entryData[TabletPortKey]) + ApiStatus, headers, None);
      var gate := ProbeGate(probeReply);
      if gate == NotReady {
        return probe, NotReadyAtProbe, null;
      } else if gate == Raised {
        return probe, ProbeRaised, null;
      }
      var c := new DataCoordinator(entryData);
      entries := entries[entryId := Slot(c, {})];
      var refreshed := c.Refresh(firstRefresh, now);
      coordinator := c;
      out := if refreshed.Fetched? then Loaded else NotReadyAtFirstRefresh;
    }

    /** `async_unload_entry`: the slot is dropped exactly when the platforms unloaded, and that flag is returned. */
    method UnloadEntry(entryId: string, platformsUnloaded: bool) returns (out: UnloadResult)
      modifies this
      ensures !platformsUnloaded ==> out == Unloaded(false) && entries == old(entries)
      ensures platformsUnloaded && entryId in old(entries) ==> out == Unloaded(true) && entries == old(entries) - {entryId}
      ensures platformsUnloaded && entryId !in old(entries) ==> out == UnloadRaised && entries == old(entries)
    {
      if platformsUnloaded {
        if entryId !in entries {
          return UnloadRaised;
        }
        entries := entries - {entryId};
      }
      out := Unloaded(platformsUnloaded);
    }

    /**
     * `async_reload_entry`: unload, then set up again whatever unload returned;
     * only an unload that raised stops the reload.
     */
    method ReloadEntry(entryId: string, entryData: Object, platformsUnloaded: bool,
                       probeReply: Response, firstRefresh: Response, now: Timestamp)
      returns (out: ReloadResult, coordinator: DataCoordinator?)
      requires TabletIpKey in entryData && TabletPortKey in entryData
      modifies this
      ensures platformsUnloaded && entryId !in old(entries) ==> out == ReloadRaised && entries == old(entries)
      ensures !(platformsUnloaded && entryId !in old(entries)) ==>
        var afterUnload := if platformsUnloaded then old(entries) - {entryId} else old(entries);
        && out.Reloaded?
        && (ProbeGate(probeReply) == NotReady ==> out.setup == NotReadyAtProbe)
        && (ProbeGate(probeReply) == Raised ==> out.setup == ProbeRaised)
        && (ProbeGate(probeReply) != Ready ==> entries == afterUnload && coordinator == null)
        && (ProbeGate(probeReply) == Ready ==>
              && coordinator != null && fresh(coordinator)
              && coordinator.entryData == entryData && coordinator.headers == AuthHeaders(entryData)
              && coordinator.baseUrl == BaseUrl(entryData[TabletIpKey], entryData[TabletPortKey])
              && coordinator.updateInterval == DefaultUpdateInterval
              && entries == afterUnload[entryId := Slot(coordinator, {})]
              && (UpdateOutcome(firstRefresh).Fetched? ==>
                    out.setup == Loaded && coordinator.lastUpdateSuccess && coordinator.lastUpdate == Some(now)
                    && coordinator.data == UpdateOutcome(firstRefresh).snapshot)
              && (UpdateOutcome(firstRefresh).Failed? ==>
                    out.setup == NotReadyAtFirstRefresh && !coordinator.lastUpdateSuccess && coordinator.data == map[]
                    && coordinator.lastUpdate == None))
    {
      var unloaded := UnloadEntry(entryId, platformsUnloaded);
      if unloaded.UnloadRaised? {
        return ReloadRaised, null;
      }
      var _, setup, c := SetupEntry(entryId, entryData, probeReply, firstRefresh, now);
      out, coordinator := Reloaded(setup), c;
    }
  }
}

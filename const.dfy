/** Constants of the integration: configuration keys, defaults, relay type codes, endpoints and lookup tables. */
module Const {

  const Domain := "multitek_smart"

  // Configuration entry keys
  const TabletIpKey := "tablet_ip"
  const TabletPortKey := "tablet_port"
  const ApiKeyKey := "api_key"
  const UseAuthKey := "use_auth"

  const DefaultPort := 8123
  /** Seconds between two scheduled refreshes. */
  const DefaultUpdateInterval := 30

  // Relay type codes of the tablet
  const RelayTypeLight := 1
  const RelayTypeShutter := 2
  const RelayTypeOnOff := 3
  const RelayTypeGas := 4
  const RelayTypeElectric := 5
  const RelayTypeWater := 6

  // Endpoints; `{device_id}` (`Placeholder`) is filled in by `Format`
  const ApiStatus := "/api/status"
  const ApiDevices := "/api/devices"
  const ApiDevice := "/api/device/{device_id}"
  const ApiRelayList := "/api/relay/list"
  const ApiRelayState := "/api/relay/" + Placeholder + "/state"
  const ApiRelayToggle := "/api/relay/" + Placeholder + "/toggle"
  const ApiDiscover := "/api/discover"

  // Attribute names
  const AttrDeviceType := "device_type"
  const AttrRoomId := "room_id"
  const AttrRoomName := "room_name"
  const AttrFlatId := "flat_id"
  const AttrFlatName := "flat_name"
  const AttrFavourite := "favourite"
  const AttrReverseContact := "reverse_contact"

  const DeviceTypeIcons: map<int, string> := map[
    RelayTypeLight := "mdi:lightbulb",
    RelayTypeShutter := "mdi:window-shutter",
    RelayTypeOnOff := "mdi:toggle-switch",
    RelayTypeGas := "mdi:gas-cylinder",
    RelayTypeElectric := "mdi:flash",
    RelayTypeWater := "mdi:water"
  ]

  const DeviceTypeNames: map<int, string> := map[
    RelayTypeLight := "Light",
    RelayTypeShutter := "Shutter",
    RelayTypeOnOff := "Switch",
    RelayTypeGas := "Gas Valve",
    RelayTypeElectric := "Electric Switch",
    RelayTypeWater := "Water Valve"
  ]

  const Placeholder := "{device_id}"

  /** `template.format(device_id=id)` for templates whose only replacement field is `{device_id}`. */
  function Format(template: string, id: string): string
    decreases |template|
  {
    if template == [] then []
    else if Placeholder <= template then id + Format(template[|Placeholder|..], id)
    else [template[0]] + Format(template[1..], id)
  }

  /** How many times `{device_id}` starts at some position of `t`. */
  function PlaceholderCount(t: string): nat
    decreases |t|
  {
    if t == [] then 0
    else (if Placeholder <= t then 1 else 0) + PlaceholderCount(t[1..])
  }

  lemma RelayTypesAreOneToSix()
    ensures [RelayTypeLight, RelayTypeShutter, RelayTypeOnOff, RelayTypeGas, RelayTypeElectric, RelayTypeWater]
         == [1, 2, 3, 4, 5, 6]
  {
  }

  /** Both tables have an entry for every relay type code, and for nothing else. */
  lemma TablesCoverRelayTypes()
    ensures DeviceTypeIcons.Keys == DeviceTypeNames.Keys == {1, 2, 3, 4, 5, 6}
  {
  }

  /** Text with no `{` is left as it is by `Format` and holds no placeholder. */
  lemma {:induction false} FormatPlain(t: string, id: string)
    requires '{' !in t
    ensures Format(t, id) == t
    ensures PlaceholderCount(t) == 0
    decreases |t|
  {
    if t != [] {
      assert t[0] != Placeholder[0];
      assert !(Placeholder <= t);
      FormatPlain(t[1..], id);
      assert t == [t[0]] + t[1..];
    }
  }

  /** A template `p{device_id}s` with no `{` in `p`: the id lands between `p` and the rest. */
  lemma {:induction false} FormatSplit(p: string, s: string, id: string)
    requires '{' !in p
    ensures Format(p + Placeholder + s, id) == p + id + Format(s, id)
    ensures PlaceholderCount(p + Placeholder + s) == 1 + PlaceholderCount(Placeholder[1..] + s)
    decreases |p|
  {
    var t := p + Placeholder + s;
    if p == [] {
      assert t == Placeholder + s;
      assert Placeholder <= t;
      assert t[|Placeholder|..] == s;
      assert t[1..] == Placeholder[1..] + s;
    } else {
      assert t[0] == p[0] && p[0] != '{';
      assert !(Placeholder <= t);
      assert t[1..] == p[1..] + Placeholder + s;
      FormatSplit(p[1..], s, id);
      assert p == [p[0]] + p[1..];
    }
  }

  /** A template of the shape `p{device_id}s` with no other `{`. */
  lemma OnePlaceholder(p: string, s: string, id: string)
    requires '{' !in p && '{' !in s
    ensures Format(p + Placeholder + s, id) == p + id + s
    ensures PlaceholderCount(p + Placeholder + s) == 1
  {
    FormatSplit(p, s, id);
    FormatPlain(s, id);
    assert '{' !in Placeholder[1..];
    FormatPlain(Placeholder[1..] + s, id);
  }

  /** The relay endpoints, spelled out. */
  lemma RelayEndpointTexts()
    ensures ApiRelayState == "/api/relay/{device_id}/state"
    ensures ApiRelayToggle == "/api/relay/{device_id}/toggle"
  {
  }

  /** The state endpoint holds exactly one `{device_id}` field; formatting puts the id after `/api/relay/`. */
  lemma RelayStateEndpoint(id: string)
    ensures PlaceholderCount(ApiRelayState) == 1
    ensures Format(ApiRelayState, id) == "/api/relay/" + id + "/state"
  {
    OnePlaceholder("/api/relay/", "/state", id);
  }

  /** The toggle endpoint holds exactly one `{device_id}` field; formatting puts the id after `/api/relay/`. */
  lemma RelayToggleEndpoint(id: string)
    ensures PlaceholderCount(ApiRelayToggle) == 1
    ensures Format(ApiRelayToggle, id) == "/api/relay/" + id + "/toggle"
  {
    OnePlaceholder("/api/relay/", "/toggle", id);
  }
}

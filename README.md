# Shelly Gen2 Terraform provider — reconciliation core in Dafny

This project models how the Shelly Terraform provider reconciles Terraform state
with a Shelly Gen2 device. It covers the provider's configuration and the
operations of its four resources and two data sources:

- `shelly_switch_config`: one relay switch, reached over an mgrpc channel that `WithShellyRPC` opens.
- `shelly_input_config`: one digital input, reached with a resty HTTP client.
- `shelly_config`: the device name, over an mgrpc channel that the operations open themselves.
- `shelly_sys_config`: the device name, with resty.
- `shelly_device`: MAC address and firmware id.
- `shelly_version`: firmware id, read with a plain HTTP client taken from provider data.

We model the Terraform plugin framework only as far as these operations use it
(module `Framework`):

- A tri-state attribute value `Value<T>` is `Null`, `Unknown` or `Known(v)`. `ValueString`, `ValueBool` and `ValueInt32` give the zero value for the first two.
- Diagnostics form a list that operations only append to.
- An operation's response pairs its diagnostics with what it does to the stored state: leaves it alone (`Untouched`), sets it (`Set(m)`) or removes it (`Removed`).
- Go's `interface{}` values in provider data are the datatype `Any`.

Each Go operation becomes a method. It receives the framework's request value (plan, state, config or import identifier) and the device's answer:

- `CallResult<T>` is a decoded reply or an error message.
- `Channel` says whether `mgrpc.New` fails.
- `HttpReply` says whether the GET or the JSON decoding fails, or what they produced.

The method returns the `Response` and the requests it issued to the device (`sent`), each with its endpoint. A request whose call then failed in transport is still in `sent`. A `*diag.Diagnostics` that Go mutates is passed in and returned as a value. The `WithShellyRPC` callback is a function of the variables it captures and of the diagnostics list. `ShellyVersionDataSource` is the only entity whose fields the source assigns in place, so it is a class with `ip` and `client` fields.

Module layout:

- `GoStrings` holds `strings.Split` on a one-character separator and `strconv.Atoi` for a 64-bit `int`. It also holds `strconv.Itoa` as the inverse that Atoi is proved against.
- `ImportId` holds the `<ip>:<id>` identifier check that the switch and input resources share.
- `TriState` holds the rules by which a tri-state value is written into a request and read back from a reply.

## Model

| member | source | states |
|---|---|---|
| RpcHelpers.RpcAddress | internal/provider/rpc_helpers.go:15 | the channel endpoint is `http://`, the address, `/rpc`; the address can be read back out of it |
| RpcHelpers.RpcAddressInjective | internal/provider/rpc_helpers.go:15 | two addresses that give the same endpoint are the same address |
| RpcHelpers.SessionTraceShape | internal/provider/rpc_helpers.go:16-33 | a channel begins with exactly one connection attempt with the 5-second timeout; the callback runs once if the channel opened and never otherwise; one disconnect follows the callback exactly when it opened |
| RpcHelpers.WithShellyRPC | internal/provider/rpc_helpers.go:14-34 | the events follow SessionTrace; an open failure appends "Failed to establish RPC channel" with the transport message and leaves the captured variables alone; otherwise the captured variables and diagnostics are what the callback made of them; the callback's error and a disconnect error are not reported |
| Shelly.BaseUrl | internal/provider/sys_config_resource.go:73 | the resty base URL is `http://` followed by the address |
| TriState.WireField | internal/provider/switch_config_resource.go:143-154 | a request field is present exactly when the plan value is Known, and then carries it |
| TriState.CarriesIsWireField | internal/provider/input_config_resource.go:131-142 | a field carries a plan value exactly when it is that value's wire encoding |
| TriState.Overlay | internal/provider/input_config_resource.go:114-122 | a reply field overwrites the attribute only when present; an absent field keeps the prior value |
| TriState.NullableFromWire | internal/provider/sys_config_resource.go:81-85 | an absent name reads as Null, a present one as Known; never Unknown |
| TriState.NullableRoundTrip | internal/provider/sys_config_resource.go:81-99 | writing a name and reading it back gives it back, except that Unknown returns as Null |
| TriState.OverlayRoundTrip | internal/provider/input_config_resource.go:114-142 | writing a field and reading it back gives the value when Known and the prior value otherwise |
| GoStrings.Split | internal/provider/switch_config_resource.go:209 | `strings.Split` on one separator always yields at least one part: the empty input gives one empty part, and a leading separator gives an empty first part |
| GoStrings.AtoiErrorText | internal/provider/switch_config_resource.go:224 | the `*NumError` text is `strconv.Atoi: parsing "`, the input verbatim, then `": ` and the reason for a syntax error or a range error |
| ImportId.IndexDetail | internal/provider/input_config_resource.go:203 | the index detail is `Could not convert ID '`, the rejected text verbatim, `' to integer: ` and Atoi's error text |
| GoStrings.SplitShape | internal/provider/switch_config_resource.go:209-210 | Split gives one part more than there are separators, and no part contains a separator |
| GoStrings.JoinSplit | internal/provider/switch_config_resource.go:209 | joining the parts of Split with the separator gives the input back |
| GoStrings.Atoi | internal/provider/switch_config_resource.go:220 | an accepted number lies in the 64-bit range and comes from a non-empty string |
| GoStrings.AtoiItoa | internal/provider/switch_config_resource.go:220 | Atoi parses the decimal text of every 64-bit integer, negative ones included, back to that integer |
| ImportId.Parse | internal/provider/switch_config_resource.go:209-227 | an index error always carries an Atoi error |
| ImportId.ParseFormat | internal/provider/switch_config_resource.go:209-216 | the format error happens exactly when the identifier does not contain exactly one `:` |
| ImportId.ParseSound | internal/provider/switch_config_resource.go:209-229 | an accepted identifier is cut at its only `:`; the address is the text before it, the index is Atoi of the text after it |
| ImportId.ParseRoundTrip | internal/provider/switch_config_resource.go:209-229 | every address without `:` and every 64-bit index come back from `<ip>:<id>` |
| ImportId.ParseSingleColon | internal/provider/input_config_resource.go:190-208 | with exactly one `:`, an index Atoi accepts, in any spelling it takes, gives the text before the `:` as address and Atoi's number as index; an index Atoi rejects gives that index text and Atoi's error |
| ImportId.ParsePlusSignedIndex | internal/provider/switch_config_resource.go:220 | `a:+007` is accepted with index 7: Atoi takes an explicit `+` and leading zeros |
| ImportId.ParseAddressAndIndex | internal/provider/switch_config_resource.go:209-229 | `192.168.1.1:2` gives address `192.168.1.1` and index 2 |
| ImportId.ParseNegativeIndex | internal/provider/switch_config_resource.go:220 | `10.0.0.5:-1` is accepted with index −1: Atoi takes a sign |
| ImportId.ParseNonNumericIndex | internal/provider/switch_config_resource.go:220-226 | `addr:notanumber` is an index error with Atoi's syntax error |
| ImportId.ParseMissingIndex | internal/provider/switch_config_resource.go:210-216 | an identifier with no `:` is a format error |
| ImportId.ParseIpv6Address | internal/provider/switch_config_resource.go:209-216 | `fe80::1:0` is a format error, since every `:` cuts |
| SwitchConfigResource.SetDiagnostics | internal/provider/switch_config_resource.go:166-176 | setSwitchConfig appends at most one diagnostic: the channel error, or "Failed to set switch config" with the device message, or nothing |
| SwitchConfigResource.SetSwitchConfig | internal/provider/switch_config_resource.go:140-177 | the one request sent targets the device's endpoint and carries the index and exactly the Known fields of the plan; an error is returned exactly when the set call failed; an open failure sends nothing and returns no error |
| SwitchConfigResource.Create | internal/provider/switch_config_resource.go:179-191 | the state becomes the plan unless the set call failed; when the channel does not open, the plan is stored while an error is reported |
| SwitchConfigResource.Update | internal/provider/switch_config_resource.go:193-205 | the same as Create, on the update plan |
| SwitchConfigResource.Read | internal/provider/switch_config_resource.go:105-138 | the get request for the stored index goes to the device's endpoint; an open failure stores the prior state again with the channel error; a failed call reports "Failed to query device status" and leaves the state alone; a reply overwrites name, in_mode and initial_state and keeps ip and id |
| SwitchConfigResource.CreateThenRead | internal/provider/switch_config_resource.go:105-191 | a plan with all three fields Known survives Create and then a Read that returns what was sent |
| SwitchConfigResource.ImportState | internal/provider/switch_config_resource.go:207-230 | an accepted identifier sets ip and id; a bad format or a bad index gets its own diagnostic, "Invalid switch ID" with Atoi's message for the latter, and no state |
| SwitchConfigResource.Delete | internal/provider/switch_config_resource.go:232-235 | the resource is removed from the state without any device call or diagnostic |
| InputConfigResource.SetInputConfig | internal/provider/input_config_resource.go:128-158 | one request is sent to the base URL, carrying the index, `enable` set to true, and exactly the Known fields of the plan; a failed call appends "Failed to set input config" and returns the error |
| InputConfigResource.Create | internal/provider/input_config_resource.go:160-172 | the state becomes the plan exactly when the set call succeeds; otherwise only the set error is reported |
| InputConfigResource.Update | internal/provider/input_config_resource.go:174-186 | the same as Create, on the update plan |
| InputConfigResource.Read | internal/provider/input_config_resource.go:93-126 | the get request for the stored index goes to the base URL; a failed call reports "Failed to query device status" and leaves the state alone; a reply overwrites each of name, type and invert only when it carries it |
| InputConfigResource.CreateThenRead | internal/provider/input_config_resource.go:93-172 | every plan survives Create and then a Read that returns what was sent |
| InputConfigResource.ImportState | internal/provider/input_config_resource.go:188-209 | the same identifier rule as the switch resource, with "Invalid input ID" for a bad index |
| InputConfigResource.Delete | internal/provider/input_config_resource.go:211-214 | the resource is removed from the state without any device call or diagnostic |
| ConfigResource.Read | internal/provider/config_resource.go:53-93 | `Shelly.GetConfig` goes to the channel endpoint; an open failure or a failed call reports its error and leaves the state alone; a reply's device name becomes the name, Null when absent |
| ConfigResource.Update | internal/provider/config_resource.go:95-140 | a Null or Unknown name is refused with "Invalid Name" before anything is sent; otherwise the set request carries the name; a failed set is reported under "Failed to query device status"; success stores the plan |
| ConfigResource.UpdateThenRead | internal/provider/config_resource.go:53-140 | a plan with a Known name survives Update and then a Read that returns the name that was sent |
| ConfigResource.ImportState | internal/provider/config_resource.go:142-144 | the whole identifier becomes `ip`, with no diagnostic |
| ConfigResource.Create | internal/provider/config_resource.go:146-148 | always panics with "unimplemented" |
| ConfigResource.Delete | internal/provider/config_resource.go:150-152 | always panics with "unimplemented" |
| SysConfigResource.SetSysConfig | internal/provider/sys_config_resource.go:94-118 | one request is sent to the base URL, always with a device section, which carries the name exactly when it is Known; a failed call appends "Failed to set device configuration" and returns the error |
| SysConfigResource.Create | internal/provider/sys_config_resource.go:120-132 | the state becomes the plan exactly when the set call succeeds |
| SysConfigResource.Update | internal/provider/sys_config_resource.go:134-146 | the same as Create, on the update plan |
| SysConfigResource.Read | internal/provider/sys_config_resource.go:61-92 | `Sys.GetConfig` goes to the base URL; a failed call reports "Failed to query device status" and leaves the state alone; the device name becomes the name, Null when absent |
| SysConfigResource.CreateThenRead | internal/provider/sys_config_resource.go:61-132 | a plan survives Create and then a Read that returns the name that was sent, except that an Unknown name returns as Null |
| SysConfigResource.ImportState | internal/provider/sys_config_resource.go:148-150 | the whole identifier becomes `ip`, with no diagnostic |
| SysConfigResource.Delete | internal/provider/sys_config_resource.go:152-154 | the resource is removed from the state without any device call or diagnostic |
| ShellyDeviceDataSource.FieldDiagnostics | internal/provider/shelly_device_data_source.go:79-87 | an empty firmware id earns "Version not found" first and an empty MAC "MAC address not found" last; there is an error exactly when either is empty |
| ShellyDeviceDataSource.Read | internal/provider/shelly_device_data_source.go:59-92 | `Sys.GetConfig` goes to the base URL; a failed call reports "Failed to query device status" and writes nothing; otherwise MAC and version are written even when the emptiness checks fail |
| VersionDataSource.Decide | internal/provider/shelly_version_data_source.go:42-63 | nil provider data is skipped without a diagnostic; anything else that is not a map is "Provider data error"; a map whose "ip" is missing, not a string or empty is "Missing IP"; a map with a usable "ip" whose "client" is missing or not an HTTP client is "HTTP client error"; data is accepted exactly when it passes all three checks, with that address and client |
| VersionDataSource.FirmwareId | internal/provider/shelly_version_data_source.go:87-91 | the version is found exactly when `fw_id` is present and a string |
| VersionDataSource.ShellyVersionDataSource.constructor | internal/provider/shelly_version_data_source.go:23-25 | a new data source has an empty address and no client |
| VersionDataSource.ShellyVersionDataSource.Configure | internal/provider/shelly_version_data_source.go:42-63 | address and client are assigned only when Decide accepts the data; a rejection reports that check's diagnostic and leaves both fields alone |
| VersionDataSource.ShellyVersionDataSource.Read | internal/provider/shelly_version_data_source.go:65-94 | without an address and a client it reports "Not configured" and sends nothing; otherwise one GET to `http://<ip>/rpc/Shelly.GetStatus`, then the request error, the decode error, "Version not found", or the version stored |
| Provider.ProviderData | internal/provider/provider.go:64-66 | the provider data is a map whose only key is "ip"; it has no "client" |
| Provider.Configure | internal/provider/provider.go:47-68 | a Null or Unknown address is an error and hands out no data; a Known one, even empty, becomes the data for data sources and resources alike |
| Provider.Resources | internal/provider/provider.go:70-72 | no resource is registered |
| Provider.DataSources | internal/provider/provider.go:74-78 | only the version data source is registered, and the device data source is not |
| Provider.ProviderDataRejected | internal/provider/provider.go:64-66 | the provider's data never configures the version data source: an empty address fails with "Missing IP", any other with "HTTP client error" |
| Provider.ConfigureThenReadVersion | internal/provider/provider.go:47-78 | for every provider configuration and device, configuring the provider and then a new version data source, then reading it, ends in "Not configured" with nothing sent |

## Left out

- Schema, Metadata and `New` are left out; so are the attribute validators and plan modifiers. They describe the interface and do not reconcile anything.
- The transports are left out: mgrpc, resty, `net/http`, JSON encoding and decoding, and the 5-second contexts. Each call is a parameter of the operation that says how the device or the transport answered.
- The framework's `Plan.Get`, `State.Get`, `Config.Get`, `State.Set` and `SetAttribute` conversions are left out. They are taken to succeed. This covers the conversion of the imported `int` index into the 32-bit `id` attribute, which can fail out of range.
- Logging through `fmt.Printf` is left out. It has no effect on state or diagnostics.
- The disconnect of the channel that `shelly_config` opens itself is not recorded in `sent`. Its error is ignored, as in `WithShellyRPC`.
- SwitchConfigResource.Read: requires a reply that carries name, in_mode and initial_state. The source dereferences them without a nil check and would panic.
- GoStrings.AtoiErrorText: writes the input between plain quotes. `strconv` escapes it with `strconv.Quote`, which changes the text only for inputs with quotes, backslashes or non-printable characters.
- GoStrings.Atoi: reports a syntax error whenever a non-digit appears. Go instead reports a range error when the digits before the bad character already pass the unsigned 64-bit maximum, 18446744073709551615, which takes at least 20 digits.
- The set requests `Switch.SetConfig` and `Input.SetConfig` are modelled by their `Config` record only, whose `id` the source fills in. Any request-level fields of the Shelly library beside `Config` are not part of this model.
- SysConfigResource.Read, ConfigResource.Read, ShellyDeviceDataSource.Read: take the reply's device section as always present. The source reads `Device` (and `System.Device`) through a pointer without a nil check, so a reply without it would panic; the model has no such reply.
- Concurrency is left out. The provider test harness is left out.

Behaviour of the code worth noting, which the model keeps:

- The import identifier is split on every `:`, not only at the first one. An IPv6 address therefore always fails the format check.
- The index goes through `strconv.Atoi`, which accepts a sign. A negative index such as `-1` is accepted.
- The input and sys resources, and the device data source, use resty. They have no separate channel-open failure.
- When the switch channel fails to open, `setSwitchConfig` returns nil. Create and Update then store the plan while an error is reported. A Read in that case stores the prior state again.
- The provider hands out only `{"ip": …}`. `Resources()` is empty, and the only registered data source is the version one, which needs a "client" entry. The version data source therefore cannot be configured from provider data.

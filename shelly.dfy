/** The device side: the Shelly RPC records the provider builds and receives,
    the outcome of one device call, and the record of what was sent where. */
module Shelly {
  import opened Framework

  /** `shelly.SwitchConfig`; the pointer fields are optional. */
  datatype SwitchConfig = SwitchConfig(
    id: int,
    name: Option<string>,
    inMode: Option<string>,
    initialState: Option<string>)

  /** `shelly.InputConfig`. */
  datatype InputConfig = InputConfig(
    id: int,
    name: Option<string>,
    inputType: Option<string>,
    invert: Option<bool>,
    enable: Option<bool>)

  /** `shelly.SysDeviceConfig` as sent in a set request: only the name is filled in. */
  datatype SysDeviceConfig = SysDeviceConfig(name: Option<string>)

  /** `shelly.SysConfig` as sent: the `Device` pointer may be nil. */
  datatype SysConfig = SysConfig(device: Option<SysDeviceConfig>)

  /** The device section of a `Sys.GetConfig` response: an optional name,
      and the MAC address and firmware id as plain strings. */
  datatype SysDeviceStatus = SysDeviceStatus(name: Option<string>, mac: string, fwId: string)

  /** A `Sys.GetConfig` response. */
  datatype SysConfigResponse = SysConfigResponse(device: SysDeviceStatus)

  /** A `Shelly.GetConfig` response: the whole configuration, whose `System` part is read. */
  datatype ShellyConfigResponse = ShellyConfigResponse(system: SysConfigResponse)

  /** The (ignored) body of a successful set-config call. */
  datatype SetResult = SetResult(restartRequired: bool)

  /** One device call: a decoded response or a transport/protocol error message. */
  datatype CallResult<T> = Ok(value: T) | Err(msg: string)

  datatype Request =
    | SwitchGetConfig(id: int)
    | SwitchSetConfig(switchConfig: SwitchConfig)
    | InputGetConfig(inputId: int)
    | InputSetConfig(inputConfig: InputConfig)
    | ShellyGetConfig
    | SysGetConfig
    | SysSetConfig(sysConfig: SysConfig)
    | HttpGet

  /** A request issued to the device: the endpoint (an mgrpc address, a
      resty base URL, or a plain URL) and the request record. */
  datatype Rpc = Rpc(target: string, request: Request)

  /** The resty base URL `"http://" + ip` used by the input, sys and device
      operations. */
  function BaseUrl(ip: Value<string>): (url: string)
    ensures |url| == 7 + |ValueString(ip)|
    ensures url[..7] == "http://" && url[7..] == ValueString(ip)
  {
    var url := "http://" + ValueString(ip);
    assert url[..7] == "http://";
    url
  }
}

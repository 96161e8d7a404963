/** The `shelly_device` data source: firmware version and MAC address from
    `Sys.GetConfig`, each checked for emptiness on its own. */
module ShellyDeviceDataSource {
  import opened Framework
  import opened Shelly

  /** `ShellyDeviceModel`. */
  datatype DeviceModel = DeviceModel(ip: Value<string>, mac: Value<string>, version: Value<string>)

  const QUERY_ERROR := "Failed to query device status"
  const VERSION_ERROR := "Version not found"
  const VERSION_DETAIL := "Could not find valid firmware version in response."
  const MAC_ERROR := "MAC address not found"
  const MAC_DETAIL := "Could not find valid MAC address in response."

  /** The errors a response earns: one for an empty firmware id, then one for an
      empty MAC address. */
  function FieldDiagnostics(device: SysDeviceStatus): (d: Diagnostics)
    ensures |d| == (if device.fwId == "" then 1 else 0) + (if device.mac == "" then 1 else 0)
    ensures device.fwId == "" ==> d[0] == Diagnostic(Error, VERSION_ERROR, VERSION_DETAIL)
    ensures device.mac == "" ==> d[|d| - 1] == Diagnostic(Error, MAC_ERROR, MAC_DETAIL)
    ensures HasError(d) <==> device.fwId == "" || device.mac == ""
  {
    var d := (if device.fwId == "" then [Diagnostic(Error, VERSION_ERROR, VERSION_DETAIL)] else []) +
             (if device.mac == "" then [Diagnostic(Error, MAC_ERROR, MAC_DETAIL)] else []);
    assert |d| > 0 ==> d[0].severity == Error;
    d
  }

  /** `Read`: the state is written even when the version or MAC checks failed. */
  method Read(config: DeviceModel, reply: CallResult<SysConfigResponse>)
    returns (resp: Response<DeviceModel>, sent: seq<Rpc>)
    ensures sent == [Rpc(BaseUrl(config.ip), SysGetConfig)]
    ensures reply.Err? ==> resp == Response([Diagnostic(Error, QUERY_ERROR, reply.msg)], Untouched)
    ensures reply.Ok? ==>
      resp.state == Set(DeviceModel(config.ip, Known(reply.value.device.mac), Known(reply.value.device.fwId))) &&
      resp.diagnostics == FieldDiagnostics(reply.value.device)
  {
    var data := config;
    sent := [Rpc("http://" + ValueString(data.ip), SysGetConfig)];
    if reply.Err? {
      resp := Response(AddError([], QUERY_ERROR, reply.msg), Untouched);
      return;
    }
    var diags: Diagnostics := [];
    data := data.(version := Known(reply.value.device.fwId));
    if data.version.Null? || data.version.Unknown? || ValueString(data.version) == "" {
      diags := AddError(diags, VERSION_ERROR, VERSION_DETAIL);
    }
    data := data.(mac := Known(reply.value.device.mac));
    if data.mac.Null? || data.mac.Unknown? || ValueString(data.mac) == "" {
      diags := AddError(diags, MAC_ERROR, MAC_DETAIL);
    }
    resp := Response(diags, Set(data));
  }
}

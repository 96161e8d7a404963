/** The `shelly_config` resource: the device name, read with `Shelly.GetConfig`
    and written with `Sys.SetConfig` over an mgrpc channel the operations open
    themselves. The resource cannot be created or deleted. */
module ConfigResource {
  import opened Framework
  import opened Shelly
  import opened TriState
  import opened RpcHelpers

  /** `configResourceModel`. */
  datatype ConfigModel = ConfigModel(ip: Value<string>, name: Value<string>)

  const QUERY_ERROR := "Failed to query device status"
  const NAME_ERROR := "Invalid Name"
  const NAME_DETAIL := "The 'name' attribute must be set to a valid string."

  /** The outcome of an operation the resource does not implement: a Go panic. */
  datatype Panic = Panic(message: string)

  /** `Read`: a nil device name becomes Null, a present one Known. */
  method Read(state: ConfigModel, channel: Channel, reply: CallResult<ShellyConfigResponse>)
    returns (resp: Response<ConfigModel>, sent: seq<Rpc>)
    ensures sent == (if channel.openError.None? then [Rpc(RpcAddress(state.ip), ShellyGetConfig)] else [])
    ensures channel.openError.Some? ==>
      resp == Response([Diagnostic(Error, CHANNEL_ERROR, channel.openError.value)], Untouched)
    ensures channel.openError.None? && reply.Err? ==>
      resp == Response([Diagnostic(Error, QUERY_ERROR, reply.msg)], Untouched)
    ensures channel.openError.None? && reply.Ok? ==>
      resp == Response([], Set(ConfigModel(state.ip, NullableFromWire(reply.value.system.device.name))))
  {
    var statusReq := ShellyGetConfig;
    var rpcAddr := "http://" + ValueString(state.ip) + "/rpc";
    if channel.openError.Some? {
      resp := Response(AddError([], CHANNEL_ERROR, channel.openError.value), Untouched);
      sent := [];
      return;
    }
    // The deferred Disconnect runs on every path from here on; its result is ignored.
    sent := [Rpc(rpcAddr, statusReq)];
    if reply.Err? {
      resp := Response(AddError([], QUERY_ERROR, reply.msg), Untouched);
      return;
    }
    var st := state;
    if reply.value.system.device.name.None? {
      st := st.(name := Null);
    } else {
      st := st.(name := Known(reply.value.system.device.name.value));
    }
    resp := Response([], Set(st));
  }

  /** `Update`: a Null or Unknown name is refused before any request is built;
      otherwise the request carries the plan's name and, on success, the state
      becomes the plan. A failed set is reported with the query summary. */
  method Update(plan: ConfigModel, channel: Channel, reply: CallResult<SetResult>)
    returns (resp: Response<ConfigModel>, sent: seq<Rpc>)
    ensures !plan.name.Known? ==>
      resp == Response([Diagnostic(Error, NAME_ERROR, NAME_DETAIL)], Untouched) && sent == []
    ensures plan.name.Known? ==>
      sent == (if channel.openError.None?
               then [Rpc(RpcAddress(plan.ip), SysSetConfig(SysConfig(Some(SysDeviceConfig(Some(plan.name.v))))))]
               else [])
    ensures plan.name.Known? && channel.openError.Some? ==>
      resp == Response([Diagnostic(Error, CHANNEL_ERROR, channel.openError.value)], Untouched)
    ensures plan.name.Known? && channel.openError.None? && reply.Err? ==>
      resp == Response([Diagnostic(Error, QUERY_ERROR, reply.msg)], Untouched)
    ensures plan.name.Known? && channel.openError.None? && reply.Ok? ==>
      resp == Response([], Set(plan))
    ensures resp.state.Set? ==> |sent| == 1
  {
    sent := [];
    if plan.name.Null? || plan.name.Unknown? {
      resp := Response(AddError([], NAME_ERROR, NAME_DETAIL), Untouched);
      return;
    }
    var name := ValueString(plan.name);
    var statusReq := SysSetConfig(SysConfig(Some(SysDeviceConfig(Some(name)))));
    var rpcAddr := "http://" + ValueString(plan.ip) + "/rpc";
    if channel.openError.Some? {
      resp := Response(AddError([], CHANNEL_ERROR, channel.openError.value), Untouched);
      return;
    }
    sent := [Rpc(rpcAddr, statusReq)];
    if reply.Err? {
      resp := Response(AddError([], QUERY_ERROR, reply.msg), Untouched);
      return;
    }
    resp := Response([], Set(plan));
  }

  /** Update followed by a Read whose reply echoes the name Update sent brings
      the plan back. */
  method UpdateThenRead(plan: ConfigModel, mac: string, fwId: string)
    returns (updated: Response<ConfigModel>, read: Response<ConfigModel>)
    requires plan.name.Known?
    ensures updated == Response([], Set(plan))
    ensures read == Response([], Set(plan))
  {
    var channel := Channel(None, None);
    var sent, readSent;
    updated, sent := Update(plan, channel, Ok(SetResult(false)));
    var echoed := sent[0].request.sysConfig.device.value.name;
    var reply := ShellyConfigResponse(SysConfigResponse(SysDeviceStatus(echoed, mac, fwId)));
    read, readSent := Read(plan, channel, Ok(reply));
  }

  /** `ImportState`: `ImportStatePassthroughID` to `ip`, the whole identifier. */
  method ImportState(importId: string) returns (resp: Response<string>)
    ensures resp == Response([], Set(importId))
  {
    resp := Response([], Set(importId));
  }

  /** `Create`: `panic("unimplemented")`. */
  method Create(plan: ConfigModel) returns (p: Panic)
    ensures p == Panic("unimplemented")
  {
    p := Panic("unimplemented");
  }

  /** `Delete`: `panic("unimplemented")`. */
  method Delete(state: ConfigModel) returns (p: Panic)
    ensures p == Panic("unimplemented")
  {
    p := Panic("unimplemented");
  }
}

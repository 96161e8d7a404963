/** The `shelly_sys_config` resource: the device name through `Sys.GetConfig`
    and `Sys.SetConfig`, with a resty client. Unlike the config resource, a Null
    or Unknown name is not an error: the request is then sent without a name. */
module SysConfigResource {
  import opened Framework
  import opened Shelly
  import opened TriState

  /** `sysConfigResourceModel`. */
  datatype SysModel = SysModel(ip: Value<string>, name: Value<string>)

  const QUERY_ERROR := "Failed to query device status"
  const SET_ERROR := "Failed to set device configuration"

  /** The set request of a plan: a device section always, the name in it
      exactly when the plan has it Known. */
  predicate IsSetConfigFor(plan: SysModel, c: SysConfig)
  {
    c.device.Some? && Carries(plan.name, c.device.value.name)
  }

  /** `setSysConfig`. */
  method SetSysConfig(plan: SysModel, diags: Diagnostics, reply: CallResult<SetResult>)
    returns (err: Option<string>, diags': Diagnostics, sent: seq<Rpc>)
    ensures |sent| == 1 && sent[0].target == BaseUrl(plan.ip)
    ensures sent[0].request.SysSetConfig? && IsSetConfigFor(plan, sent[0].request.sysConfig)
    ensures reply.Err? ==> err == Some(reply.msg) && diags' == AddError(diags, SET_ERROR, reply.msg)
    ensures reply.Ok? ==> err == None && diags' == diags
  {
    var sysConfig := SysDeviceConfig(None);
    if plan.name.Known? {
      sysConfig := sysConfig.(name := Some(ValueString(plan.name)));
    }
    var statusReq := SysSetConfig(SysConfig(Some(sysConfig)));
    sent := [Rpc("http://" + ValueString(plan.ip), statusReq)];
    if reply.Err? {
      diags' := AddError(diags, SET_ERROR, reply.msg);
      err := Some(reply.msg);
      return;
    }
    diags', err := diags, None;
  }

  /** `Create`: the state becomes the plan exactly when the set call succeeds. */
  method Create(plan: SysModel, reply: CallResult<SetResult>)
    returns (resp: Response<SysModel>, sent: seq<Rpc>)
    ensures reply.Err? ==> resp == Response([Diagnostic(Error, SET_ERROR, reply.msg)], Untouched)
    ensures reply.Ok? ==> resp == Response([], Set(plan))
    ensures |sent| == 1 && sent[0].target == BaseUrl(plan.ip)
    ensures sent[0].request.SysSetConfig? && IsSetConfigFor(plan, sent[0].request.sysConfig)
  {
    var err, diags;
    err, diags, sent := SetSysConfig(plan, [], reply);
    if err.Some? {
      resp := Response(diags, Untouched);
      return;
    }
    resp := Response(diags, Set(plan));
  }

  /** `Update`: the same steps as Create. */
  method Update(plan: SysModel, reply: CallResult<SetResult>)
    returns (resp: Response<SysModel>, sent: seq<Rpc>)
    ensures reply.Err? ==> resp == Response([Diagnostic(Error, SET_ERROR, reply.msg)], Untouched)
    ensures reply.Ok? ==> resp == Response([], Set(plan))
    ensures |sent| == 1 && sent[0].target == BaseUrl(plan.ip)
    ensures sent[0].request.SysSetConfig? && IsSetConfigFor(plan, sent[0].request.sysConfig)
  {
    var err, diags;
    err, diags, sent := SetSysConfig(plan, [], reply);
    if err.Some? {
      resp := Response(diags, Untouched);
      return;
    }
    resp := Response(diags, Set(plan));
  }

  /** `Read`: a nil device name becomes Null, a present one Known. */
  method Read(state: SysModel, reply: CallResult<SysConfigResponse>)
    returns (resp: Response<SysModel>, sent: seq<Rpc>)
    ensures sent == [Rpc(BaseUrl(state.ip), SysGetConfig)]
    ensures reply.Err? ==> resp == Response([Diagnostic(Error, QUERY_ERROR, reply.msg)], Untouched)
    ensures reply.Ok? ==> resp == Response([], Set(SysModel(state.ip, NullableFromWire(reply.value.device.name))))
  {
    sent := [Rpc("http://" + ValueString(state.ip), SysGetConfig)];
    if reply.Err? {
      resp := Response(AddError([], QUERY_ERROR, reply.msg), Untouched);
      return;
    }
    var st := state;
    if reply.value.device.name.None? {
      st := st.(name := Null);
    } else {
      st := st.(name := Known(reply.value.device.name.value));
    }
    resp := Response([], Set(st));
  }

  /** Create followed by a Read whose reply echoes the name Create sent brings
      the plan back, except that an Unknown name returns as Null. */
  method CreateThenRead(plan: SysModel, mac: string, fwId: string)
    returns (created: Response<SysModel>, read: Response<SysModel>)
    ensures created == Response([], Set(plan))
    ensures read == Response([], Set(plan.(name := if plan.name.Unknown? then Null else plan.name)))
  {
    var sent, readSent;
    created, sent := Create(plan, Ok(SetResult(false)));
    var echoed := sent[0].request.sysConfig.device.value.name;
    CarriesIsWireField(plan.name, echoed);
    NullableRoundTrip(plan.name);
    read, readSent := Read(plan, Ok(SysConfigResponse(SysDeviceStatus(echoed, mac, fwId))));
  }

  /** `ImportState`: `ImportStatePassthroughID` to `ip`, the whole identifier. */
  method ImportState(importId: string) returns (resp: Response<string>)
    ensures resp == Response([], Set(importId))
  {
    resp := Response([], Set(importId));
  }

  /** `Delete`: the resource is dropped from the state; no device call is made. */
  method Delete(state: SysModel) returns (resp: Response<SysModel>)
    ensures resp == Response([], Removed)
  {
    resp := Response([], Removed);
  }
}

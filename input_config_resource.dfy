/** The `shelly_input_config` resource: the configuration of one digital input,
    read and written with a resty client (no separate channel-open step). */
module InputConfigResource {
  import opened Framework
  import opened Shelly
  import opened TriState
  import opened GoStrings
  import opened ImportId

  /** `inputConfigResourceModel`. */
  datatype InputModel = InputModel(
    ip: Value<string>,
    id: Value<int32>,
    name: Value<string>,
    inputType: Value<string>,
    invert: Value<bool>)

  const QUERY_ERROR := "Failed to query device status"
  const SET_ERROR := "Failed to set input config"
  const ID_ERROR := "Invalid input ID"

  /** The set request of a plan: the input index and `enable = true` always,
      each optional field exactly when the plan has it Known, with that value. */
  predicate IsSetConfigFor(plan: InputModel, c: InputConfig)
  {
    c.id == ValueInt32(plan.id) as int && c.enable == Some(true) &&
    Carries(plan.name, c.name) && Carries(plan.inputType, c.inputType) &&
    Carries(plan.invert, c.invert)
  }

  /** `setInputConfig`: builds the request field by field, sends it, and
      returns the error of the call after appending it. */
  method SetInputConfig(plan: InputModel, diags: Diagnostics, reply: CallResult<SetResult>)
    returns (err: Option<string>, diags': Diagnostics, sent: seq<Rpc>)
    ensures |sent| == 1 && sent[0].target == BaseUrl(plan.ip)
    ensures sent[0].request.InputSetConfig? && IsSetConfigFor(plan, sent[0].request.inputConfig)
    ensures reply.Err? ==> err == Some(reply.msg) && diags' == AddError(diags, SET_ERROR, reply.msg)
    ensures reply.Ok? ==> err == None && diags' == diags
  {
    var config := InputConfig(ValueInt32(plan.id) as int, None, None, None, None);
    if plan.name.Known? {
      config := config.(name := Some(ValueString(plan.name)));
    }
    if plan.inputType.Known? {
      config := config.(inputType := Some(ValueString(plan.inputType)));
    }
    if plan.invert.Known? {
      config := config.(invert := Some(ValueBool(plan.invert)));
    }
    config := config.(enable := Some(true));
    var statusReq := InputSetConfig(config);
    sent := [Rpc("http://" + ValueString(plan.ip), statusReq)];
    if reply.Err? {
      diags' := AddError(diags, SET_ERROR, reply.msg);
      err := Some(reply.msg);
      return;
    }
    diags', err := diags, None;
  }

  /** `Create`: the state becomes the plan exactly when the set call succeeds. */
  method Create(plan: InputModel, reply: CallResult<SetResult>)
    returns (resp: Response<InputModel>, sent: seq<Rpc>)
    ensures reply.Err? ==> resp == Response([Diagnostic(Error, SET_ERROR, reply.msg)], Untouched)
    ensures reply.Ok? ==> resp == Response([], Set(plan))
    ensures |sent| == 1 && sent[0].target == BaseUrl(plan.ip)
    ensures sent[0].request.InputSetConfig? && IsSetConfigFor(plan, sent[0].request.inputConfig)
  {
    var err, diags;
    err, diags, sent := SetInputConfig(plan, [], reply);
    if err.Some? {
      resp := Response(diags, Untouched);
      return;
    }
    resp := Response(diags, Set(plan));
  }

  /** `Update`: the same steps as Create. */
  method Update(plan: InputModel, reply: CallResult<SetResult>)
    returns (resp: Response<InputModel>, sent: seq<Rpc>)
    ensures reply.Err? ==> resp == Response([Diagnostic(Error, SET_ERROR, reply.msg)], Untouched)
    ensures reply.Ok? ==> resp == Response([], Set(plan))
    ensures |sent| == 1 && sent[0].target == BaseUrl(plan.ip)
    ensures sent[0].request.InputSetConfig? && IsSetConfigFor(plan, sent[0].request.inputConfig)
  {
    var err, diags;
    err, diags, sent := SetInputConfig(plan, [], reply);
    if err.Some? {
      resp := Response(diags, Untouched);
      return;
    }
    resp := Response(diags, Set(plan));
  }

  /** `Read`: each of name, type and invert is overwritten only when the
      response carries it; an absent field keeps the prior value. */
  method Read(state: InputModel, reply: CallResult<InputConfig>)
    returns (resp: Response<InputModel>, sent: seq<Rpc>)
    ensures sent == [Rpc(BaseUrl(state.ip), InputGetConfig(ValueInt32(state.id) as int))]
    ensures reply.Err? ==> resp == Response([Diagnostic(Error, QUERY_ERROR, reply.msg)], Untouched)
    ensures reply.Ok? ==>
      resp.diagnostics == [] && resp.state.Set? &&
      resp.state.model.ip == state.ip && resp.state.model.id == state.id &&
      resp.state.model.name == Overlay(state.name, reply.value.name) &&
      resp.state.model.inputType == Overlay(state.inputType, reply.value.inputType) &&
      resp.state.model.invert == Overlay(state.invert, reply.value.invert)
  {
    var statusReq := InputGetConfig(ValueInt32(state.id) as int);
    sent := [Rpc("http://" + ValueString(state.ip), statusReq)];
    if reply.Err? {
      resp := Response(AddError([], QUERY_ERROR, reply.msg), Untouched);
      return;
    }
    var statusResp := reply.value;
    var st := state;
    if statusResp.name.Some? {
      st := st.(name := Known(statusResp.name.value));
    }
    if statusResp.inputType.Some? {
      st := st.(inputType := Known(statusResp.inputType.value));
    }
    if statusResp.invert.Some? {
      st := st.(invert := Known(statusResp.invert.value));
    }
    resp := Response([], Set(st));
  }

  /** Create followed by a Read whose reply echoes the request Create sent
      brings the plan back unchanged: each Known field returns from the device
      and each other field keeps the plan's value. */
  method CreateThenRead(plan: InputModel) returns (created: Response<InputModel>, read: Response<InputModel>)
    ensures created == Response([], Set(plan))
    ensures read == Response([], Set(plan))
  {
    var sent, readSent;
    created, sent := Create(plan, Ok(SetResult(false)));
    var echoed := sent[0].request.inputConfig;
    CarriesIsWireField(plan.name, echoed.name);
    CarriesIsWireField(plan.inputType, echoed.inputType);
    CarriesIsWireField(plan.invert, echoed.invert);
    OverlayRoundTrip(plan.name, plan.name);
    OverlayRoundTrip(plan.inputType, plan.inputType);
    OverlayRoundTrip(plan.invert, plan.invert);
    read, readSent := Read(plan, Ok(echoed));
  }

  /** `ImportState`: the same two-part rule as the switch resource, with its own summary. */
  method ImportState(importId: string) returns (resp: Response<ImportedKey>)
    ensures Parse(importId).Indexed? ==>
      resp == Response([], Set(ImportedKey(Parse(importId).ip, Parse(importId).id)))
    ensures Parse(importId).BadFormat? ==>
      resp == Response([Diagnostic(Error, FORMAT_ERROR, FORMAT_DETAIL)], Untouched)
    ensures Parse(importId).BadIndex? ==>
      resp == Response([Diagnostic(Error, ID_ERROR, IndexDetail(Parse(importId).part, Parse(importId).error))], Untouched)
  {
    var parts := Split(importId, ':');
    if |parts| != 2 {
      resp := Response(AddError([], FORMAT_ERROR, FORMAT_DETAIL), Untouched);
      return;
    }
    var id := Atoi(parts[1]);
    if !id.Parsed? {
      resp := Response(AddError([], ID_ERROR, IndexDetail(parts[1], id)), Untouched);
      return;
    }
    resp := Response([], Set(ImportedKey(parts[0], id.n)));
  }

  /** `Delete`: the resource is dropped from the state; no device call is made. */
  method Delete(state: InputModel) returns (resp: Response<InputModel>)
    ensures resp == Response([], Removed)
  {
    resp := Response([], Removed);
  }
}

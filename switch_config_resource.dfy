/** The `shelly_switch_config` resource: the configuration of one relay switch,
    read and written over an mgrpc channel opened by WithShellyRPC. */
module SwitchConfigResource {
  import opened Framework
  import opened Shelly
  import opened TriState
  import opened RpcHelpers
  import opened GoStrings
  import opened ImportId

  /** `switchConfigResourceModel`. */
  datatype SwitchModel = SwitchModel(
    ip: Value<string>,
    id: Value<int32>,
    name: Value<string>,
    inMode: Value<string>,
    initialState: Value<string>)

  const QUERY_ERROR := "Failed to query device status"
  const SET_ERROR := "Failed to set switch config"
  const ID_ERROR := "Invalid switch ID"

  /** The set request of a plan: the switch index always, each optional field
      exactly when the plan has it Known, with that value. */
  predicate IsSetConfigFor(plan: SwitchModel, c: SwitchConfig)
  {
    c.id == ValueInt32(plan.id) as int &&
    Carries(plan.name, c.name) && Carries(plan.inMode, c.inMode) &&
    Carries(plan.initialState, c.initialState)
  }

  /** The diagnostics setSwitchConfig appends: the channel error, or the set
      error, or nothing. */
  function SetDiagnostics(channel: Channel, reply: CallResult<SetResult>): (d: Diagnostics)
    ensures |d| <= 1
    ensures channel.openError.Some? ==> d == [Diagnostic(Error, CHANNEL_ERROR, channel.openError.value)]
    ensures channel.openError.None? && reply.Err? ==> d == [Diagnostic(Error, SET_ERROR, reply.msg)]
    ensures channel.openError.None? && reply.Ok? ==> d == []
  {
    if channel.openError.Some? then [Diagnostic(Error, CHANNEL_ERROR, channel.openError.value)]
    else if reply.Err? then [Diagnostic(Error, SET_ERROR, reply.msg)]
    else []
  }

  /** `setSwitchConfig`: builds the request field by field and sends it from
      inside the WithShellyRPC callback. Only an error of the set call itself is
      returned; when the channel does not open, the callback never runs and the
      result is nil although an error was appended. */
  method SetSwitchConfig(plan: SwitchModel, diags: Diagnostics, channel: Channel, reply: CallResult<SetResult>)
    returns (err: Option<string>, diags': Diagnostics, sent: seq<Rpc>)
    ensures diags' == diags + SetDiagnostics(channel, reply)
    ensures err.Some? <==> channel.openError.None? && reply.Err?
    ensures err.Some? ==> err.value == reply.msg
    ensures sent == [] <==> channel.openError.Some?
    ensures |sent| <= 1
    ensures forall r | r in sent ::
      r.target == RpcAddress(plan.ip) && r.request.SwitchSetConfig? && IsSetConfigFor(plan, r.request.switchConfig)
  {
    var config := SwitchConfig(ValueInt32(plan.id) as int, None, None, None);
    if plan.name.Known? {
      config := config.(name := Some(ValueString(plan.name)));
    }
    if plan.inMode.Known? {
      config := config.(inMode := Some(ValueString(plan.inMode)));
    }
    if plan.initialState.Known? {
      config := config.(initialState := Some(ValueString(plan.initialState)));
    }
    var statusReq := SwitchSetConfig(config);
    var callback := (errResult: Option<string>, d: Diagnostics) =>
      if reply.Err? then Effect(Some(reply.msg), AddError(d, SET_ERROR, reply.msg), Some(reply.msg))
      else Effect(errResult, d, None);
    var trace;
    err, diags', trace := WithShellyRPC(plan.ip, diags, channel, None, callback);
    sent := if Invoke in trace then [Rpc(RpcAddress(plan.ip), statusReq)] else [];
  }

  /** `Create`: the state becomes the plan exactly when setSwitchConfig returns nil. */
  method Create(plan: SwitchModel, channel: Channel, reply: CallResult<SetResult>)
    returns (resp: Response<SwitchModel>, sent: seq<Rpc>)
    ensures resp.diagnostics == SetDiagnostics(channel, reply)
    ensures resp.state == (if channel.openError.None? && reply.Err? then Untouched else Set(plan))
    ensures channel.openError.Some? ==> resp.state == Set(plan) && HasError(resp.diagnostics)
    ensures sent == [] <==> channel.openError.Some?
    ensures forall r | r in sent ::
      r.target == RpcAddress(plan.ip) && r.request.SwitchSetConfig? && IsSetConfigFor(plan, r.request.switchConfig)
  {
    var err, diags;
    err, diags, sent := SetSwitchConfig(plan, [], channel, reply);
    if err.Some? {
      resp := Response(diags, Untouched);
      return;
    }
    resp := Response(diags, Set(plan));
    assert channel.openError.Some? ==> resp.diagnostics[0].severity == Error;
  }

  /** `Update`: the same steps as Create. */
  method Update(plan: SwitchModel, channel: Channel, reply: CallResult<SetResult>)
    returns (resp: Response<SwitchModel>, sent: seq<Rpc>)
    ensures resp.diagnostics == SetDiagnostics(channel, reply)
    ensures resp.state == (if channel.openError.None? && reply.Err? then Untouched else Set(plan))
    ensures channel.openError.Some? ==> resp.state == Set(plan) && HasError(resp.diagnostics)
    ensures sent == [] <==> channel.openError.Some?
    ensures forall r | r in sent ::
      r.target == RpcAddress(plan.ip) && r.request.SwitchSetConfig? && IsSetConfigFor(plan, r.request.switchConfig)
  {
    var err, diags;
    err, diags, sent := SetSwitchConfig(plan, [], channel, reply);
    if err.Some? {
      resp := Response(diags, Untouched);
      return;
    }
    resp := Response(diags, Set(plan));
    assert channel.openError.Some? ==> resp.diagnostics[0].severity == Error;
  }

  /** `Read`: the response's name, in_mode and initial_state are dereferenced
      without a nil check, so a response is taken to carry all three. */
  method Read(state: SwitchModel, channel: Channel, reply: CallResult<SwitchConfig>)
    returns (resp: Response<SwitchModel>, sent: seq<Rpc>)
    requires reply.Ok? ==>
      reply.value.name.Some? && reply.value.inMode.Some? && reply.value.initialState.Some?
    ensures sent == (if channel.openError.None?
                     then [Rpc(RpcAddress(state.ip), SwitchGetConfig(ValueInt32(state.id) as int))]
                     else [])
    ensures channel.openError.Some? ==>
      resp == Response([Diagnostic(Error, CHANNEL_ERROR, channel.openError.value)], Set(state))
    ensures channel.openError.None? && reply.Err? ==>
      resp == Response([Diagnostic(Error, QUERY_ERROR, reply.msg)], Untouched)
    ensures channel.openError.None? && reply.Ok? ==>
      resp.diagnostics == [] && resp.state.Set? &&
      resp.state.model.ip == state.ip && resp.state.model.id == state.id &&
      resp.state.model.name == Known(reply.value.name.value) &&
      resp.state.model.inMode == Known(reply.value.inMode.value) &&
      resp.state.model.initialState == Known(reply.value.initialState.value)
  {
    var statusReq := SwitchGetConfig(ValueInt32(state.id) as int);
    var callback := (c: (SwitchModel, Option<string>), d: Diagnostics) =>
      if reply.Err? then Effect((c.0, Some(reply.msg)), AddError(d, QUERY_ERROR, reply.msg), Some(reply.msg))
      else
        var r := reply.value;
        var st := c.0.(name := Known(r.name.value), inMode := Known(r.inMode.value),
                       initialState := Known(r.initialState.value));
        Effect((st, c.1), d, None);
    var captured, diags, trace := WithShellyRPC(state.ip, [], channel, (state, None), callback);
    sent := if Invoke in trace then [Rpc(RpcAddress(state.ip), statusReq)] else [];
    assert reply.Err? ==> AddError([], QUERY_ERROR, reply.msg) == [Diagnostic(Error, QUERY_ERROR, reply.msg)];
    if captured.1.Some? {
      resp := Response(diags, Untouched);
      return;
    }
    resp := Response(diags, Set(captured.0));
  }

  /** Create followed by a Read whose reply echoes the request Create sent
      brings a fully Known plan back unchanged. */
  method CreateThenRead(plan: SwitchModel) returns (created: Response<SwitchModel>, read: Response<SwitchModel>)
    requires plan.name.Known? && plan.inMode.Known? && plan.initialState.Known?
    ensures created == Response([], Set(plan))
    ensures read == Response([], Set(plan))
  {
    var channel := Channel(None, None);
    var sent, readSent;
    created, sent := Create(plan, channel, Ok(SetResult(false)));
    assert sent[0] in sent;
    var echoed := sent[0].request.switchConfig;
    read, readSent := Read(plan, channel, Ok(echoed));
  }

  /** `ImportState`: the identifier is split on every `:` and must give exactly
      two parts; the second goes through Atoi. */
  method ImportState(importId: string) returns (resp: Response<ImportedKey>)
    ensures Parse(importId).Indexed? ==>
      resp == Response([], Set(ImportedKey(Parse(importId).ip, Parse(importId).id)))
    ensures Parse(importId).BadFormat? ==>
      resp == Response([Diagnostic(Error, FORMAT_ERROR, FORMAT_DETAIL)], Untouched)
    ensures Parse(importId).BadIndex? ==>
      resp == Response([Diagnostic(Error, ID_ERROR, IndexDetail(Parse(importId).part, Parse(importId).error))], Untouched)
  {
    var parts := Split(importId, ':');
    if |parts| != 2 {
      resp := Response(AddError([], FORMAT_ERROR, FORMAT_DETAIL), Untouched);
      return;
    }
    var id := Atoi(parts[1]);
    if !id.Parsed? {
      resp := Response(AddError([], ID_ERROR, IndexDetail(parts[1], id)), Untouched);
      return;
    }
    resp := Response([], Set(ImportedKey(parts[0], id.n)));
  }

  /** `Delete`: the resource is dropped from the state; no device call is made. */
  method Delete(state: SwitchModel) returns (resp: Response<SwitchModel>)
    ensures resp == Response([], Removed)
  {
    resp := Response([], Removed);
  }
}

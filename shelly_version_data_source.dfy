/** The `shelly_version` data source: it takes the device address and an HTTP
    client from provider data in Configure, and Read fetches `Shelly.GetStatus`
    and reports its `fw_id`. */
module VersionDataSource {
  import opened Framework
  import opened Shelly

  /** `ShellyVersionModel`. */
  datatype VersionModel = VersionModel(version: Value<string>)

  const PROVIDER_DATA_ERROR := "Provider data error"
  const PROVIDER_DATA_DETAIL := "Could not get provider data."
  const IP_ERROR := "Missing IP"
  const IP_DETAIL := "Provider did not supply a valid IP address."
  const CLIENT_ERROR := "HTTP client error"
  const CLIENT_DETAIL := "Could not get HTTP client from provider data."
  const NOT_CONFIGURED_ERROR := "Not configured"
  const NOT_CONFIGURED_DETAIL := "The data source is not configured with provider data."
  const REQUEST_ERROR := "HTTP request failed"
  const DECODE_ERROR := "Failed to decode response"
  const VERSION_ERROR := "Version not found"
  const VERSION_DETAIL := "Could not find 'fw_id' in response."

  /** What Configure makes of the provider data it is given. */
  datatype Decision =
    | NoData
    | Rejected(summary: string, detail: string)
    | Accepted(ip: string, client: Option<HttpClient>)

  /** `providerData["ip"].(string)` succeeds with a non-empty address. */
  predicate UsableIp(data: map<string, Any>)
  {
    Lookup(data, "ip").StringAny? && Lookup(data, "ip").s != ""
  }

  /** The checks of Configure in order: nil data is skipped silently; then the
      data must be a map, hold a non-empty string under "ip" and a
      `*http.Client` under "client". */
  function Decide(providerData: Any): (d: Decision)
    ensures d.NoData? <==> providerData.NilAny?
    ensures !providerData.NilAny? && !providerData.MapAny? ==>
      d == Rejected(PROVIDER_DATA_ERROR, PROVIDER_DATA_DETAIL)
    ensures providerData.MapAny? && !UsableIp(providerData.entries) ==>
      d == Rejected(IP_ERROR, IP_DETAIL)
    ensures providerData.MapAny? && UsableIp(providerData.entries) &&
            !Lookup(providerData.entries, "client").HttpClientAny? ==>
      d == Rejected(CLIENT_ERROR, CLIENT_DETAIL)
    ensures d.Accepted? <==>
      providerData.MapAny? && UsableIp(providerData.entries) &&
      Lookup(providerData.entries, "client").HttpClientAny?
    ensures d.Accepted? ==>
      d.ip != "" && "ip" in providerData.entries && providerData.entries["ip"] == StringAny(d.ip) &&
      "client" in providerData.entries && providerData.entries["client"] == HttpClientAny(d.client)
    ensures providerData.MapAny? && "client" !in providerData.entries ==> d.Rejected?
  {
    if providerData.NilAny? then NoData
    else if !providerData.MapAny? then Rejected(PROVIDER_DATA_ERROR, PROVIDER_DATA_DETAIL)
    else
      var ip := Lookup(providerData.entries, "ip");
      if !ip.StringAny? || ip.s == "" then Rejected(IP_ERROR, IP_DETAIL)
      else
        var client := Lookup(providerData.entries, "client");
        if !client.HttpClientAny? then Rejected(CLIENT_ERROR, CLIENT_DETAIL)
        else Accepted(ip.s, client.client)
  }

  /** The outcome of `client.Get(url)` and of decoding its body as a JSON object. */
  datatype HttpReply =
    | RequestFailed(msg: string)
    | Undecodable(msg: string)
    | Decoded(body: map<string, Any>)

  /** `result["fw_id"].(string)`. */
  function FirmwareId(body: map<string, Any>): (r: Option<string>)
    ensures r.Some? <==> "fw_id" in body && body["fw_id"].StringAny?
    ensures r.Some? ==> body["fw_id"] == StringAny(r.value)
  {
    var v := Lookup(body, "fw_id");
    if v.StringAny? then Some(v.s) else None
  }

  /** `ShellyVersionDataSource`: `client` is a possibly nil `*http.Client`. */
  class ShellyVersionDataSource {
    var ip: string
    var client: Option<HttpClient>

    /** `NewShellyVersionDataSource`: both fields at their zero values. */
    constructor ()
      ensures ip == "" && client == None
    {
      ip := "";
      client := None;
    }

    /** The guard of Read. */
    predicate Configured()
      reads this
    {
      ip != "" && client.Some?
    }

    /** `Configure`: the fields are assigned only after every check passed. */
    method Configure(providerData: Any) returns (diags: Diagnostics)
      modifies this
      ensures Decide(providerData).Accepted? ==>
        ip == Decide(providerData).ip && client == Decide(providerData).client && diags == []
      ensures Decide(providerData).NoData? ==>
        ip == old(ip) && client == old(client) && diags == []
      ensures Decide(providerData).Rejected? ==>
        ip == old(ip) && client == old(client) &&
        diags == [Diagnostic(Error, Decide(providerData).summary, Decide(providerData).detail)]
    {
      diags := [];
      if providerData.NilAny? {
        return;
      }
      if !providerData.MapAny? {
        diags := AddError(diags, PROVIDER_DATA_ERROR, PROVIDER_DATA_DETAIL);
        return;
      }
      var data := providerData.entries;
      var ipValue := Lookup(data, "ip");
      if !ipValue.StringAny? || ipValue.s == "" {
        diags := AddError(diags, IP_ERROR, IP_DETAIL);
        return;
      }
      var clientValue := Lookup(data, "client");
      if !clientValue.HttpClientAny? {
        diags := AddError(diags, CLIENT_ERROR, CLIENT_DETAIL);
        return;
      }
      ip := ipValue.s;
      client := clientValue.client;
    }

    /** `Read`: an unconfigured source makes no request; a configured one asks
      `http://<ip>/rpc/Shelly.GetStatus` and reports a string `fw_id`. */
    method Read(reply: HttpReply) returns (resp: Response<VersionModel>, sent: seq<Rpc>)
      ensures !Configured() ==>
        resp == Response([Diagnostic(Error, NOT_CONFIGURED_ERROR, NOT_CONFIGURED_DETAIL)], Untouched) && sent == []
      ensures Configured() ==> sent == [Rpc("http://" + ip + "/rpc/Shelly.GetStatus", HttpGet)]
      ensures Configured() && reply.RequestFailed? ==>
        resp == Response([Diagnostic(Error, REQUEST_ERROR, reply.msg)], Untouched)
      ensures Configured() && reply.Undecodable? ==>
        resp == Response([Diagnostic(Error, DECODE_ERROR, reply.msg)], Untouched)
      ensures Configured() && reply.Decoded? && FirmwareId(reply.body).None? ==>
        resp == Response([Diagnostic(Error, VERSION_ERROR, VERSION_DETAIL)], Untouched)
      ensures Configured() && reply.Decoded? && FirmwareId(reply.body).Some? ==>
        resp == Response([], Set(VersionModel(Known(FirmwareId(reply.body).value))))
    {
      sent := [];
      if ip == "" || client.None? {
        resp := Response(AddError([], NOT_CONFIGURED_ERROR, NOT_CONFIGURED_DETAIL), Untouched);
        return;
      }
      var url := "http://" + ip + "/rpc/Shelly.GetStatus";
      sent := [Rpc(url, HttpGet)];
      if reply.RequestFailed? {
        resp := Response(AddError([], REQUEST_ERROR, reply.msg), Untouched);
        return;
      }
      if reply.Undecodable? {
        resp := Response(AddError([], DECODE_ERROR, reply.msg), Untouched);
        return;
      }
      var version := Lookup(reply.body, "fw_id");
      if !version.StringAny? {
        resp := Response(AddError([], VERSION_ERROR, VERSION_DETAIL), Untouched);
        return;
      }
      resp := Response([], Set(VersionModel(Known(version.s))));
    }
  }
}

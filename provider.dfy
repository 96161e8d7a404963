/** The provider itself: Configure turns the `ip` attribute into the data handed
    to data sources and resources, and the provider registers its types. */
module Provider {
  import opened Framework
  import opened Shelly
  import opened VersionDataSource

  /** `ShellyProviderModel`. */
  datatype ProviderModel = ProviderModel(ip: Value<string>)

  /** The parts of `provider.ConfigureResponse` that Configure fills in. */
  datatype ConfigureResponse = ConfigureResponse(diagnostics: Diagnostics, dataSourceData: Any, resourceData: Any)

  const IP_MISSING_ERROR := "Missing IP address"
  const IP_MISSING_DETAIL := "The provider requires an 'ip' attribute specifying the Shelly Gen2 device IP."

  /** The constructor functions the provider can register. */
  datatype ResourceFactory = NewConfigResource | NewSysConfigResource | NewInputConfigResource | NewSwitchConfigResource
  datatype DataSourceFactory = NewShellyVersionDataSource | NewShellyDeviceDataSource

  /** The provider data built from a known address: a map with the one key "ip". */
  function ProviderData(ip: string): (data: Any)
    ensures data.MapAny? && data.entries.Keys == {"ip"} && data.entries["ip"] == StringAny(ip)
    ensures "client" !in data.entries
  {
    MapAny(map["ip" := StringAny(ip)])
  }

  /** `Configure`: a Null or Unknown `ip` is an error and no data is set; a
      Known one, even the empty string, becomes the provider data for data
      sources and resources alike. */
  method Configure(config: ProviderModel) returns (resp: ConfigureResponse)
    ensures !config.ip.Known? ==>
      resp == ConfigureResponse([Diagnostic(Error, IP_MISSING_ERROR, IP_MISSING_DETAIL)], NilAny, NilAny)
    ensures config.ip.Known? ==>
      resp.diagnostics == [] && resp.dataSourceData == ProviderData(config.ip.v) &&
      resp.resourceData == resp.dataSourceData
  {
    resp := ConfigureResponse([], NilAny, NilAny);
    if config.ip.Null? || config.ip.Unknown? {
      resp := resp.(diagnostics := AddError(resp.diagnostics, IP_MISSING_ERROR, IP_MISSING_DETAIL));
      return;
    }
    var data := MapAny(map["ip" := StringAny(ValueString(config.ip))]);
    resp := resp.(dataSourceData := data);
    resp := resp.(resourceData := resp.dataSourceData);
  }

  /** `Resources`: the empty list. */
  function Resources(): (r: seq<ResourceFactory>)
    ensures forall f: ResourceFactory :: f !in r
  {
    []
  }

  /** `DataSources`: only the version data source. */
  function DataSources(): (r: seq<DataSourceFactory>)
    ensures NewShellyVersionDataSource in r && NewShellyDeviceDataSource !in r
    ensures |r| == 1
  {
    [NewShellyVersionDataSource]
  }

  /** The provider data never configures the version data source: it has no
      "client" entry, so a non-empty address ends in the client error and an
      empty one in the address error. */
  lemma ProviderDataRejected(ip: string)
    ensures Decide(ProviderData(ip)) ==
      if ip == "" then Rejected(IP_ERROR, IP_DETAIL) else Rejected(CLIENT_ERROR, CLIENT_DETAIL)
  {
    var data := ProviderData(ip).entries;
    assert Lookup(data, "ip") == StringAny(ip);
    assert Lookup(data, "client") == NilAny;
  }

  /** The framework's sequence for the version data source: provider Configure,
      a fresh data source, its Configure on the provider's data, then its Read.
      Whatever the configuration and the device, Read reports "Not configured"
      and sends nothing. */
  method ConfigureThenReadVersion(config: ProviderModel, reply: HttpReply)
    returns (providerDiags: Diagnostics, configureDiags: Diagnostics, resp: Response<VersionModel>, sent: seq<Rpc>)
    ensures config.ip.Known? <==> providerDiags == []
    ensures config.ip.Known? ==>
      configureDiags == [if config.ip.v == "" then Diagnostic(Error, IP_ERROR, IP_DETAIL)
                         else Diagnostic(Error, CLIENT_ERROR, CLIENT_DETAIL)]
    ensures !config.ip.Known? ==> configureDiags == []
    ensures resp == Response([Diagnostic(Error, NOT_CONFIGURED_ERROR, NOT_CONFIGURED_DETAIL)], Untouched)
    ensures sent == []
  {
    var providerResp := Configure(config);
    providerDiags := providerResp.diagnostics;
    var source := new ShellyVersionDataSource();
    configureDiags := source.Configure(providerResp.dataSourceData);
    if config.ip.Known? {
      ProviderDataRejected(config.ip.v);
    }
    resp, sent := source.Read(reply);
  }
}

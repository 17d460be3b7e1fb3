/** The ACME challenge (validation) helpers of internal/service/acmeclient/challenge_helpers.go:
    the free-form `parameters` map that travels beside the typed fields, and the comma
    encoding of sets this package uses. */
module AcmeChallenge {
  import opened Framework
  import opened Text
  import opened TriState

  /** `acmeclientChallengeResourceModel` with every field the helpers read or write. */
  datatype ChallengeModel = ChallengeModel(
    id: Tri<string>,
    enabled: Tri<bool>,
    name: Tri<string>,
    description: Tri<string>,
    method_: Tri<string>,
    httpService: Tri<string>,
    httpOpnAutodiscovery: Tri<bool>,
    httpOpnInterface: Tri<string>,
    httpOpnIpAddresses: TfSet,
    httpHaproxyInject: Tri<bool>,
    httpHaproxyFrontends: TfSet,
    tlsAlpnService: Tri<string>,
    tlsAlpnAcmeAutodiscovery: Tri<bool>,
    tlsAlpnAcmeInterface: Tri<string>,
    tlsAlpnAcmeIpAddresses: TfSet,
    dnsService: Tri<string>,
    dnsSleep: Tri<int64>,
    dnsAwsId: Tri<string>,
    dnsAwsSecret: Tri<string>,
    dnsAzureSubscriptionId: Tri<string>,
    dnsAzureTenantId: Tri<string>,
    dnsAzureAppId: Tri<string>,
    dnsAzureClientSecret: Tri<string>,
    dnsIonosPrefix: Tri<string>,
    dnsIonosSecret: Tri<string>,
    dnsGoogleDomainsAccessToken: Tri<string>,
    dnsGoogleDomainsZone: Tri<string>,
    parameters: TfMap)

  /** A JSON value of the re-decoded validation object: a string, or anything else. */
  datatype JsonValue = JString(s: string) | JOther

  /** The JSON names of the typed validation fields, which are never parameters. */
  const KnownKeys: set<string> := {
    "id", "enabled", "name", "description", "method", "http_service",
    "http_opn_autodiscovery", "http_opn_interface", "http_opn_ipaddresses",
    "http_haproxyInject", "http_haproxyFrontends", "tlsalpn_service",
    "tlsalpn_acme_autodiscovery", "tlsalpn_acme_interface", "tlsalpn_acme_ipaddresses",
    "dns_service", "dns_sleep", "dns_aws_id", "dns_aws_secret",
    "dns_azuredns_subscriptionid", "dns_azuredns_tenantid", "dns_azuredns_appid",
    "dns_azuredns_clientsecret", "dns_ionos_prefix", "dns_ionos_secret",
    "dns_googledomains_access_token", "dns_googledomains_zone",
    "key", "statusCode", "statusLastUpdate"}

  /** What `collectChallengeParameters` returns for the decoded object `raw`: every key
      outside KnownKeys whose value is a non-empty string, with that string, and nothing else. */
  ghost predicate CollectedFrom(raw: map<string, JsonValue>, params: map<string, string>) {
    (forall k :: k in params ==> k !in KnownKeys && k in raw && raw[k] == JString(params[k]) && params[k] != "") &&
    (forall k :: k in raw && k !in KnownKeys && raw[k].JString? && raw[k].s != "" ==> k in params)
  }

  /** `collectChallengeParameters`. The validation is marshalled to JSON and decoded back
      into a generic decoded; `raw` is that decoded, or None when either step fails. */
  method CollectChallengeParameters(raw: Option<map<string, JsonValue>>) returns (params: map<string, string>)
    ensures raw.None? ==> params == map[]
    ensures raw.Some? ==> CollectedFrom(raw.value, params)
  {
    if raw.None? {
      return map[];
    }
    var decoded := raw.value;
    params := map[];
    var rest := decoded.Keys;
    while rest != {}
      invariant rest <= decoded.Keys
      invariant forall k :: k in params ==>
                  k !in rest && k !in KnownKeys && k in decoded && decoded[k] == JString(params[k]) && params[k] != ""
      invariant forall k :: k in decoded && k !in rest && k !in KnownKeys && decoded[k].JString? && decoded[k].s != "" ==>
                  k in params
      decreases |rest|
    {
      var key :| key in rest;
      rest := rest - {key};
      if key in KnownKeys {
        continue;
      }
      match decoded[key]
      case JString(v) =>
        if v == "" {
          continue;
        }
        params := params[key := v];
      case JOther =>
    }
  }

  /** The map `stringMapToTypesMap` builds: null for an empty map, else the same entries as known strings. */
  function StringMapToTypes(values: map<string, string>): (r: TfMap)
    ensures |values| == 0 ==> r.Null?
    ensures |values| > 0 ==> r.Known? && r.value.Keys == values.Keys && MapElements(r.value) == Some(values)
  {
    if |values| == 0 then Null else Known(KnownStrings(values))
  }

  /** `stringMapToTypesMap`: the entries are copied one by one into the framework map. */
  method StringMapToTypesMap(values: map<string, string>) returns (r: TfMap)
    ensures r == StringMapToTypes(values)
  {
    if |values| == 0 {
      return Null;
    }
    var attrValues: map<string, Tri<string>> := map[];
    var rest := values.Keys;
    while rest != {}
      invariant rest <= values.Keys
      invariant attrValues.Keys == values.Keys - rest
      invariant forall k :: k in attrValues ==> attrValues[k] == Known(values[k])
      decreases |rest|
    {
      var k :| k in rest;
      attrValues := attrValues[k := Known(values[k])];
      rest := rest - {k};
    }
    assert attrValues == KnownStrings(values);
    return Known(attrValues);
  }

  /** The base payload of `toValidation`: the typed fields under their JSON names. */
  function ValidationPayload(t: Tools, m: ChallengeModel): (data: map<string, string>)
    ensures data.Keys <= KnownKeys
  {
    map[
      "enabled" := BoolToAPIString(t, m.enabled),
      "name" := StringValue(m.name),
      "description" := StringValue(m.description),
      "method" := StringValue(m.method_),
      "http_service" := StringValue(m.httpService),
      "http_opn_autodiscovery" := BoolToAPIString(t, m.httpOpnAutodiscovery),
      "http_opn_interface" := StringValue(m.httpOpnInterface),
      "http_opn_ipaddresses" := JoinStringSet(t, m.httpOpnIpAddresses, ','),
      "http_haproxyInject" := BoolToAPIString(t, m.httpHaproxyInject),
      "http_haproxyFrontends" := JoinStringSet(t, m.httpHaproxyFrontends, ','),
      "tlsalpn_service" := StringValue(m.tlsAlpnService),
      "tlsalpn_acme_autodiscovery" := BoolToAPIString(t, m.tlsAlpnAcmeAutodiscovery),
      "tlsalpn_acme_interface" := StringValue(m.tlsAlpnAcmeInterface),
      "tlsalpn_acme_ipaddresses" := JoinStringSet(t, m.tlsAlpnAcmeIpAddresses, ','),
      "dns_service" := StringValue(m.dnsService),
      "dns_sleep" := Int64ToAPIString(t, m.dnsSleep),
      "dns_aws_id" := StringValue(m.dnsAwsId),
      "dns_aws_secret" := StringValue(m.dnsAwsSecret),
      "dns_azuredns_subscriptionid" := StringValue(m.dnsAzureSubscriptionId),
      "dns_azuredns_tenantid" := StringValue(m.dnsAzureTenantId),
      "dns_azuredns_appid" := StringValue(m.dnsAzureAppId),
      "dns_azuredns_clientsecret" := StringValue(m.dnsAzureClientSecret),
      "dns_ionos_prefix" := StringValue(m.dnsIonosPrefix),
      "dns_ionos_secret" := StringValue(m.dnsIonosSecret),
      "dns_googledomains_access_token" := StringValue(m.dnsGoogleDomainsAccessToken),
      "dns_googledomains_zone" := StringValue(m.dnsGoogleDomainsZone)]
  }

  /** The parameters `toValidation` overlays: none when the map is null or unknown or
      when an element is not a known string. */
  function OverlayParameters(parameters: TfMap): (r: map<string, string>)
    ensures !parameters.Known? ==> r == map[]
    ensures parameters.Known? && MapElements(parameters.value).None? ==> r == map[]
    ensures parameters.Known? && MapElements(parameters.value).Some? ==> r == MapElements(parameters.value).value
  {
    if parameters.Null? || parameters.Unknown? then map[]
    else
      var params := MapElements(parameters.value);
      if params.None? then map[] else params.value
  }

  /** The overlay loop of `toValidation`: each parameter is written over `data`, so a
      parameter wins on a shared key and every other entry of `data` stays. */
  method Overlay(data: map<string, string>, params: map<string, string>) returns (r: map<string, string>)
    ensures forall k :: k in r <==> k in data || k in params
    ensures forall k :: k in params ==> r[k] == params[k]
    ensures forall k :: k in data && k !in params ==> r[k] == data[k]
  {
    r := data;
    var rest := params.Keys;
    while rest != {}
      invariant rest <= params.Keys
      invariant forall k :: k in r <==> k in data || (k in params && k !in rest)
      invariant forall k :: k in params && k !in rest ==> r[k] == params[k]
      invariant forall k :: k in data && (k !in params || k in rest) ==> r[k] == data[k]
      decreases |rest|
    {
      var k :| k in rest;
      r := r[k := params[k]];
      rest := rest - {k};
    }
  }

  /** The payload `toValidation` decodes into an `acmeclient.Validation`: the base payload
      with the parameters laid over it. */
  method ToValidation(t: Tools, m: ChallengeModel) returns (data: map<string, string>)
    ensures data.Keys == ValidationPayload(t, m).Keys + OverlayParameters(m.parameters).Keys
    ensures forall k :: k in OverlayParameters(m.parameters) ==> data[k] == OverlayParameters(m.parameters)[k]
    ensures forall k :: k in ValidationPayload(t, m) && k !in OverlayParameters(m.parameters) ==>
              data[k] == ValidationPayload(t, m)[k]
  {
    data := Overlay(ValidationPayload(t, m), OverlayParameters(m.parameters));
  }

  /** Parameters laid over a payload of typed fields come back from
      `collectChallengeParameters` unchanged when the server echoes the payload: a
      parameter lies outside KnownKeys and is non-empty, so it is neither taken for a
      typed field nor dropped. */
  lemma {:induction false} OverlayRoundTrip(base: map<string, string>, p: map<string, string>,
                                            sent: map<string, string>, back: map<string, string>)
    requires base.Keys <= KnownKeys
    requires forall k :: k in p ==> k !in KnownKeys && p[k] != ""
    requires forall k :: k in sent <==> k in base || k in p
    requires forall k :: k in p ==> sent[k] == p[k]
    requires CollectedFrom(map k | k in sent :: JString(sent[k]), back)
    ensures back == p
  {
    var raw := map k | k in sent :: JString(sent[k]);
    forall k | k in back ensures k in p && back[k] == p[k] {
      assert k in raw && k !in KnownKeys;
      assert k !in base;
    }
    forall k | k in p ensures k in back {
      assert k in raw && raw[k].s == p[k];
    }
  }

  /** The same for `toValidation` itself: the parameters it sends are the ones read back. */
  lemma ParametersRoundTrip(t: Tools, m: ChallengeModel, sent: map<string, string>,
                            back: map<string, string>)
    requires var p := OverlayParameters(m.parameters);
      forall k :: k in p ==> k !in KnownKeys && p[k] != ""
    requires sent.Keys == ValidationPayload(t, m).Keys + OverlayParameters(m.parameters).Keys
    requires forall k :: k in OverlayParameters(m.parameters) ==> sent[k] == OverlayParameters(m.parameters)[k]
    requires CollectedFrom(map k | k in sent :: JString(sent[k]), back)
    ensures back == OverlayParameters(m.parameters)
  {
    var base := ValidationPayload(t, m);
    OverlayRoundTrip(base, OverlayParameters(m.parameters), sent, back);
  }
}

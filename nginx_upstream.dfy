/** The nginx upstream helpers of internal/service/nginx/upstream_helpers.go. */
module NginxUpstream {
  import opened Framework
  import opened Text
  import opened FieldOptions
  import opened TriState
  import opened NginxLocation
  import opened NginxHttpServer

  /** `nginxUpstreamResourceModel`. */
  datatype UpstreamModel = UpstreamModel(
    id: Tri<string>,
    description: Tri<string>,
    serverEntries: TfSet,
    loadBalancingAlgorithm: Tri<string>,
    proxyProtocol: Tri<bool>,
    keepalive: Tri<string>,
    keepaliveRequests: Tri<string>,
    keepaliveTimeout: Tri<string>,
    hostPort: Tri<string>,
    xForwardedHostVerbatim: Tri<bool>,
    tlsEnable: Tri<bool>,
    tlsClientCertificate: Tri<string>,
    tlsNameOverride: Tri<string>,
    tlsProtocolVersions: TfSet,
    tlsSessionReuse: Tri<bool>,
    tlsTrustedCertificate: Tri<string>,
    tlsVerify: Tri<bool>,
    tlsVerifyDepth: Tri<string>,
    store: Tri<bool>)

  /** `nginx.Upstream`, the request body. */
  datatype Upstream = Upstream(
    description: string,
    serverEntries: string,
    loadBalancingAlgorithm: string,
    proxyProtocol: string,
    keepalive: string,
    keepaliveRequests: string,
    keepaliveTimeout: string,
    hostPort: string,
    xForwardedHostVerbatim: string,
    tlsEnable: string,
    tlsClientCertificate: string,
    tlsNameOverride: string,
    tlsProtocolVersions: string,
    tlsSessionReuse: string,
    tlsTrustedCertificate: string,
    tlsVerify: string,
    tlsVerifyDepth: string,
    store: string)

  /** The zero `nginx.Upstream{}`. */
  const EmptyUpstream: Upstream := Upstream("", "", "", "", "", "", "", "", "", "", "", "", "", "", "", "", "", "")

  /** The `Upstream` part of `nginx.UpstreamGetResponse`. */
  datatype UpstreamResponse = UpstreamResponse(
    description: string,
    serverEntries: Options,
    loadBalancingAlgorithm: Options,
    proxyProtocol: string,
    keepalive: string,
    keepaliveRequests: string,
    keepaliveTimeout: string,
    hostPort: string,
    xForwardedHostVerbatim: string,
    tlsEnable: string,
    tlsClientCertificate: Options,
    tlsNameOverride: string,
    tlsProtocolVersions: Options,
    tlsSessionReuse: string,
    tlsTrustedCertificate: Options,
    tlsVerify: string,
    tlsVerifyDepth: string,
    store: string)

  /** `fieldOptionsFirstKey`: null when nothing is selected, else the least selected key
      as a known string, even when that key is "". */
  function FieldOptionsFirstKey(options: Options): (r: Tri<string>)
    ensures SelectedKeys(options) == {} ==> r.Null?
    ensures SelectedKeys(options) != {} ==>
              r.Known? && r.value in SelectedKeys(options) && IsMin(r.value, SelectedKeys(options))
  {
    var keys := SortedSelectedKeys(options);
    SortedElemsSpec(SelectedKeys(options));
    if |keys| == 0 then Null
    else (
      SortedElemsHead(SelectedKeys(options));
      Known(keys[0]))
  }

  /** `toUpstream`: a nil model gives the zero Upstream. ServerEntries is newline-joined
      and TLSProtocolVersions uses the sorted comma encoding. */
  function ToUpstream(t: Tools, m: Option<UpstreamModel>): (r: Upstream)
    ensures m.None? ==> r == EmptyUpstream
    ensures m.Some? ==> r.serverEntries == JoinStringSet(t, m.value.serverEntries, '\n')
    ensures m.Some? ==> r.tlsProtocolVersions == JoinStringSetComma(t, m.value.tlsProtocolVersions)
  {
    if m.None? then EmptyUpstream
    else
      var d := m.value;
      Upstream(
        description := StringValue(d.description),
        serverEntries := JoinStringSet(t, d.serverEntries, '\n'),
        loadBalancingAlgorithm := StringValue(d.loadBalancingAlgorithm),
        proxyProtocol := BoolToAPIString(t, d.proxyProtocol),
        keepalive := StringValue(d.keepalive),
        keepaliveRequests := StringValue(d.keepaliveRequests),
        keepaliveTimeout := StringValue(d.keepaliveTimeout),
        hostPort := StringValue(d.hostPort),
        xForwardedHostVerbatim := BoolToAPIString(t, d.xForwardedHostVerbatim),
        tlsEnable := BoolToAPIString(t, d.tlsEnable),
        tlsClientCertificate := StringValue(d.tlsClientCertificate),
        tlsNameOverride := StringValue(d.tlsNameOverride),
        tlsProtocolVersions := JoinStringSetComma(t, d.tlsProtocolVersions),
        tlsSessionReuse := BoolToAPIString(t, d.tlsSessionReuse),
        tlsTrustedCertificate := StringValue(d.tlsTrustedCertificate),
        tlsVerify := BoolToAPIString(t, d.tlsVerify),
        tlsVerifyDepth := StringValue(d.tlsVerifyDepth),
        store := BoolToAPIString(t, d.store))
  }

  /** `upstreamResponseToModel`. */
  function UpstreamResponseToModel(t: Tools, id: string, r: UpstreamResponse): (m: UpstreamModel)
    ensures m.id == Known(id)
    ensures m.serverEntries == OptionMapToSet(t, r.serverEntries)
    ensures m.loadBalancingAlgorithm == FieldOptionsFirstKey(r.loadBalancingAlgorithm)
  {
    UpstreamModel(
      id := Known(id),
      description := t.stringOrNull(r.description),
      serverEntries := OptionMapToSet(t, r.serverEntries),
      loadBalancingAlgorithm := FieldOptionsFirstKey(r.loadBalancingAlgorithm),
      proxyProtocol := Known(t.stringToBool(r.proxyProtocol)),
      keepalive := t.stringOrNull(r.keepalive),
      keepaliveRequests := t.stringOrNull(r.keepaliveRequests),
      keepaliveTimeout := t.stringOrNull(r.keepaliveTimeout),
      hostPort := t.stringOrNull(r.hostPort),
      xForwardedHostVerbatim := Known(t.stringToBool(r.xForwardedHostVerbatim)),
      tlsEnable := Known(t.stringToBool(r.tlsEnable)),
      tlsClientCertificate := FieldOptionsFirstKey(r.tlsClientCertificate),
      tlsNameOverride := t.stringOrNull(r.tlsNameOverride),
      tlsProtocolVersions := OptionMapToSet(t, r.tlsProtocolVersions),
      tlsSessionReuse := Known(t.stringToBool(r.tlsSessionReuse)),
      tlsTrustedCertificate := FieldOptionsFirstKey(r.tlsTrustedCertificate),
      tlsVerify := Known(t.stringToBool(r.tlsVerify)),
      tlsVerifyDepth := t.stringOrNull(r.tlsVerifyDepth),
      store := Known(t.stringToBool(r.store)))
  }

  /** The two readers of a single-choice field differ only on a selected "" key:
      FieldOptionsFirstKey gives Known("") where StringValueFromOptionMap gives null. */
  lemma FirstKeyVersusStringValue(options: Options)
    ensures "" in SelectedKeys(options) ==>
              FieldOptionsFirstKey(options) == Known("") && StringValueFromOptionMap(options).Null?
    ensures "" !in SelectedKeys(options) ==>
              FieldOptionsFirstKey(options) == StringValueFromOptionMap(options)
  {
    StringValueFromOptionMapNull(options);
    if "" in SelectedKeys(options) {
      var r := FieldOptionsFirstKey(options);
      assert Le(r.value, "");
    }
  }

  /** Reading an upstream and sending it back sends TLSProtocolVersions as exactly the
      selected versions of the response, in ascending order, comma-joined. */
  lemma TLSProtocolVersionsReadBack(t: Tools, id: string, r: UpstreamResponse)
    requires SetCodec(t)
    ensures ToUpstream(t, Some(UpstreamResponseToModel(t, id, r))).tlsProtocolVersions ==
            Join(SortedSelectedKeys(r.tlsProtocolVersions), ",")
  {
    JoinStringSetCommaOfOptions(t, r.tlsProtocolVersions);
  }

  /** Reading an upstream and sending it back sends LoadBalancingAlgorithm as the least
      selected algorithm of the response, or "" when none is selected. */
  lemma LoadBalancingAlgorithmReadBack(t: Tools, id: string, r: UpstreamResponse)
    ensures ToUpstream(t, Some(UpstreamResponseToModel(t, id, r))).loadBalancingAlgorithm ==
            SelectedOptionKey(r.loadBalancingAlgorithm)
  {
    FirstKeyVersusStringValue(r.loadBalancingAlgorithm);
  }
}

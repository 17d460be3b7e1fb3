/** The nginx HTTP server helpers of internal/service/nginx/http_server_helpers.go: the
    sorted comma encoding of a set, the request builder and the response reader. */
module NginxHttpServer {
  import opened Framework
  import opened Text
  import opened FieldOptions
  import opened TriState
  import opened NginxLocation

  /** `nginxHTTPServerResourceModel`. */
  datatype HTTPServerModel = HTTPServerModel(
    id: Tri<string>,
    serverName: Tri<string>,
    listenHttpAddress: Tri<string>,
    listenHttpsAddress: Tri<string>,
    defaultServer: Tri<bool>,
    tlsRejectHandshake: Tri<bool>,
    syslogTargets: TfSet,
    proxyProtocol: Tri<bool>,
    trustedProxies: TfSet,
    trustedProxiesAlias: Tri<string>,
    realIpSource: Tri<string>,
    locations: TfSet,
    rewrites: TfSet,
    root: Tri<string>,
    maxBodySize: Tri<string>,
    bodyBufferSize: Tri<string>,
    certificate: Tri<string>,
    ca: Tri<string>,
    verifyClient: Tri<string>,
    zeroRtt: Tri<bool>,
    accessLogFormat: Tri<string>,
    errorLogLevel: Tri<string>,
    logHandshakes: Tri<bool>,
    enableAcmeSupport: Tri<bool>,
    charset: Tri<string>,
    httpsOnly: Tri<bool>,
    tlsProtocols: TfSet,
    tlsCiphers: Tri<string>,
    tlsEcdhCurve: Tri<string>,
    tlsPreferServerCiphers: Tri<bool>,
    resolver: Tri<string>,
    ocspStapling: Tri<bool>,
    ocspVerify: Tri<bool>,
    blockNonpublicData: Tri<bool>,
    disableGzip: Tri<bool>,
    disableBotProtection: Tri<bool>,
    ipAcl: Tri<string>,
    advancedAclServer: Tri<string>,
    satisfy: Tri<string>,
    naxsiWhitelistSrcIp: TfSet,
    naxsiExtensiveLog: Tri<bool>,
    sendfile: Tri<bool>,
    clientHeaderBufferSize: Tri<string>,
    largeClientHeaderBuffersNumber: Tri<string>,
    largeClientHeaderBuffersSize: Tri<string>,
    securityHeader: Tri<string>,
    limitRequestConnections: TfSet,
    errorPages: TfSet)

  /** `nginx.HTTPServer`, the request body. */
  datatype HTTPServer = HTTPServer(
    listenHttpAddress: string,
    listenHttpsAddress: string,
    defaultServer: string,
    tlsRejectHandshake: string,
    syslogTargets: string,
    proxyProtocol: string,
    trustedProxies: string,
    trustedProxiesAlias: string,
    realIpSource: string,
    serverName: string,
    locations: string,
    rewrites: string,
    root: string,
    maxBodySize: string,
    bodyBufferSize: string,
    certificate: string,
    ca: string,
    verifyClient: string,
    zeroRtt: string,
    accessLogFormat: string,
    errorLogLevel: string,
    logHandshakes: string,
    enableAcmeSupport: string,
    charset: string,
    httpsOnly: string,
    tlsProtocols: string,
    tlsCiphers: string,
    tlsEcdhCurve: string,
    tlsPreferServerCiphers: string,
    resolver: string,
    ocspStapling: string,
    ocspVerify: string,
    blockNonpublicData: string,
    disableGzip: string,
    disableBotProtection: string,
    ipAcl: string,
    advancedAclServer: string,
    satisfy: string,
    naxsiWhitelistSrcIp: string,
    naxsiExtensiveLog: string,
    sendfile: string,
    clientHeaderBufferSize: string,
    largeClientHeaderBuffersNumber: string,
    largeClientHeaderBuffersSize: string,
    securityHeader: string,
    limitRequestConnections: string,
    errorPages: string)

  /** The zero `nginx.HTTPServer{}`. */
  const EmptyHTTPServer: HTTPServer := HTTPServer("", "", "", "", "", "", "", "", "", "", "", "", "", "", "", "", "", "", "", "", "", "", "", "", "", "", "", "", "", "", "", "", "", "", "", "", "", "", "", "", "", "", "", "", "", "", "")

  /** The `HTTPServer` part of `nginx.HTTPServerGetResponse`, with each field typed by how
      the reader uses it: option maps, string lists and plain strings. */
  datatype HTTPServerResponse = HTTPServerResponse(
    serverName: Options,
    listenHttpAddress: Options,
    listenHttpsAddress: Options,
    defaultServer: string,
    tlsRejectHandshake: string,
    syslogTargets: seq<string>,
    proxyProtocol: string,
    trustedProxies: seq<string>,
    trustedProxiesAlias: Options,
    realIpSource: Options,
    locations: Options,
    rewrites: seq<string>,
    root: string,
    maxBodySize: string,
    bodyBufferSize: string,
    certificate: Options,
    ca: Options,
    verifyClient: Options,
    zeroRtt: string,
    accessLogFormat: Options,
    errorLogLevel: Options,
    logHandshakes: string,
    enableAcmeSupport: string,
    charset: Options,
    httpsOnly: string,
    tlsProtocols: Options,
    tlsCiphers: string,
    tlsEcdhCurve: string,
    tlsPreferServerCiphers: string,
    resolver: Options,
    ocspStapling: string,
    ocspVerify: string,
    blockNonpublicData: string,
    disableGzip: string,
    disableBotProtection: string,
    ipAcl: Options,
    advancedAclServer: Options,
    satisfy: Options,
    naxsiWhitelistSrcIp: seq<string>,
    naxsiExtensiveLog: string,
    sendfile: string,
    clientHeaderBufferSize: string,
    largeClientHeaderBuffersNumber: string,
    largeClientHeaderBuffersSize: string,
    securityHeader: Options,
    limitRequestConnections: seq<string>,
    errorPages: seq<string>)

  /** `joinStringSetComma`: "" for a null or unknown set and for a set without elements;
      otherwise the elements in ascending order, joined by commas. */
  function JoinStringSetComma(t: Tools, s: TfSet): (r: string)
    ensures !s.Known? ==> r == ""
    ensures s.Known? && |t.setToStringSlice(s.value)| == 0 ==> r == ""
    ensures s.Known? && |t.setToStringSlice(s.value)| > 0 ==>
              r == Join(SortStrings(t.setToStringSlice(s.value)), ",")
  {
    if s.Null? || s.Unknown? then ""
    else
      var values := t.setToStringSlice(s.value);
      if |values| == 0 then "" else Join(SortStrings(values), ",")
  }

  /** `toHTTPServer`: a nil model gives the zero HTTPServer. TLSProtocols is the one set
      sent with the sorted comma encoding; every other set is newline-joined. */
  function ToHTTPServer(t: Tools, m: Option<HTTPServerModel>): (r: HTTPServer)
    ensures m.None? ==> r == EmptyHTTPServer
    ensures m.Some? ==> r.tlsProtocols == JoinStringSetComma(t, m.value.tlsProtocols)
    ensures m.Some? ==> r.syslogTargets == JoinStringSet(t, m.value.syslogTargets, '\n')
    ensures m.Some? ==> r.trustedProxies == JoinStringSet(t, m.value.trustedProxies, '\n')
    ensures m.Some? ==> r.locations == JoinStringSet(t, m.value.locations, '\n')
    ensures m.Some? ==> r.rewrites == JoinStringSet(t, m.value.rewrites, '\n')
    ensures m.Some? ==> r.naxsiWhitelistSrcIp == JoinStringSet(t, m.value.naxsiWhitelistSrcIp, '\n')
    ensures m.Some? ==> r.limitRequestConnections == JoinStringSet(t, m.value.limitRequestConnections, '\n')
    ensures m.Some? ==> r.errorPages == JoinStringSet(t, m.value.errorPages, '\n')
  {
    if m.None? then EmptyHTTPServer
    else
      var d := m.value;
      HTTPServer(
        listenHttpAddress := StringValue(d.listenHttpAddress),
        listenHttpsAddress := StringValue(d.listenHttpsAddress),
        defaultServer := BoolToAPIString(t, d.defaultServer),
        tlsRejectHandshake := BoolToAPIString(t, d.tlsRejectHandshake),
        syslogTargets := JoinStringSet(t, d.syslogTargets, '\n'),
        proxyProtocol := BoolToAPIString(t, d.proxyProtocol),
        trustedProxies := JoinStringSet(t, d.trustedProxies, '\n'),
        trustedProxiesAlias := StringValue(d.trustedProxiesAlias),
        realIpSource := StringValue(d.realIpSource),
        serverName := StringValue(d.serverName),
        locations := JoinStringSet(t, d.locations, '\n'),
        rewrites := JoinStringSet(t, d.rewrites, '\n'),
        root := StringValue(d.root),
        maxBodySize := StringValue(d.maxBodySize),
        bodyBufferSize := StringValue(d.bodyBufferSize),
        certificate := StringValue(d.certificate),
        ca := StringValue(d.ca),
        verifyClient := StringValue(d.verifyClient),
        zeroRtt := BoolToAPIString(t, d.zeroRtt),
        accessLogFormat := StringValue(d.accessLogFormat),
        errorLogLevel := StringValue(d.errorLogLevel),
        logHandshakes := BoolToAPIString(t, d.logHandshakes),
        enableAcmeSupport := BoolToAPIString(t, d.enableAcmeSupport),
        charset := StringValue(d.charset),
        httpsOnly := BoolToAPIString(t, d.httpsOnly),
        tlsProtocols := JoinStringSetComma(t, d.tlsProtocols),
        tlsCiphers := StringValue(d.tlsCiphers),
        tlsEcdhCurve := StringValue(d.tlsEcdhCurve),
        tlsPreferServerCiphers := BoolToAPIString(t, d.tlsPreferServerCiphers),
        resolver := StringValue(d.resolver),
        ocspStapling := BoolToAPIString(t, d.ocspStapling),
        ocspVerify := BoolToAPIString(t, d.ocspVerify),
        blockNonpublicData := BoolToAPIString(t, d.blockNonpublicData),
        disableGzip := BoolToAPIString(t, d.disableGzip),
        disableBotProtection := BoolToAPIString(t, d.disableBotProtection),
        ipAcl := StringValue(d.ipAcl),
        advancedAclServer := StringValue(d.advancedAclServer),
        satisfy := StringValue(d.satisfy),
        naxsiWhitelistSrcIp := JoinStringSet(t, d.naxsiWhitelistSrcIp, '\n'),
        naxsiExtensiveLog := BoolToAPIString(t, d.naxsiExtensiveLog),
        sendfile := BoolToAPIString(t, d.sendfile),
        clientHeaderBufferSize := StringValue(d.clientHeaderBufferSize),
        largeClientHeaderBuffersNumber := StringValue(d.largeClientHeaderBuffersNumber),
        largeClientHeaderBuffersSize := StringValue(d.largeClientHeaderBuffersSize),
        securityHeader := StringValue(d.securityHeader),
        limitRequestConnections := JoinStringSet(t, d.limitRequestConnections, '\n'),
        errorPages := JoinStringSet(t, d.errorPages, '\n'))
  }

  /** `httpServerResponseToModel`: Id is always the requested id, and the Locations and
      TLSProtocols sets are the selected keys of their option maps. */
  function HttpServerResponseToModel(t: Tools, id: string, r: HTTPServerResponse): (m: HTTPServerModel)
    ensures m.id == Known(id)
    ensures m.locations == OptionMapToSet(t, r.locations)
    ensures m.tlsProtocols == OptionMapToSet(t, r.tlsProtocols)
  {
    HTTPServerModel(
      id := Known(id),
      serverName := StringValueFromOptionMap(r.serverName),
      listenHttpAddress := StringValueFromOptionMap(r.listenHttpAddress),
      listenHttpsAddress := StringValueFromOptionMap(r.listenHttpsAddress),
      defaultServer := Known(t.stringToBool(r.defaultServer)),
      tlsRejectHandshake := Known(t.stringToBool(r.tlsRejectHandshake)),
      syslogTargets := StringSliceToSet(t, r.syslogTargets),
      proxyProtocol := Known(t.stringToBool(r.proxyProtocol)),
      trustedProxies := StringSliceToSet(t, r.trustedProxies),
      trustedProxiesAlias := StringValueFromOptionMap(r.trustedProxiesAlias),
      realIpSource := StringValueFromOptionMap(r.realIpSource),
      locations := OptionMapToSet(t, r.locations),
      rewrites := StringSliceToSet(t, r.rewrites),
      root := t.stringOrNull(r.root),
      maxBodySize := t.stringOrNull(r.maxBodySize),
      bodyBufferSize := t.stringOrNull(r.bodyBufferSize),
      certificate := StringValueFromOptionMap(r.certificate),
      ca := StringValueFromOptionMap(r.ca),
      verifyClient := StringValueFromOptionMap(r.verifyClient),
      zeroRtt := Known(t.stringToBool(r.zeroRtt)),
      accessLogFormat := StringValueFromOptionMap(r.accessLogFormat),
      errorLogLevel := StringValueFromOptionMap(r.errorLogLevel),
      logHandshakes := Known(t.stringToBool(r.logHandshakes)),
      enableAcmeSupport := Known(t.stringToBool(r.enableAcmeSupport)),
      charset := StringValueFromOptionMap(r.charset),
      httpsOnly := Known(t.stringToBool(r.httpsOnly)),
      tlsProtocols := OptionMapToSet(t, r.tlsProtocols),
      tlsCiphers := t.stringOrNull(r.tlsCiphers),
      tlsEcdhCurve := t.stringOrNull(r.tlsEcdhCurve),
      tlsPreferServerCiphers := Known(t.stringToBool(r.tlsPreferServerCiphers)),
      resolver := StringValueFromOptionMap(r.resolver),
      ocspStapling := Known(t.stringToBool(r.ocspStapling)),
      ocspVerify := Known(t.stringToBool(r.ocspVerify)),
      blockNonpublicData := Known(t.stringToBool(r.blockNonpublicData)),
      disableGzip := Known(t.stringToBool(r.disableGzip)),
      disableBotProtection := Known(t.stringToBool(r.disableBotProtection)),
      ipAcl := StringValueFromOptionMap(r.ipAcl),
      advancedAclServer := StringValueFromOptionMap(r.advancedAclServer),
      satisfy := StringValueFromOptionMap(r.satisfy),
      naxsiWhitelistSrcIp := StringSliceToSet(t, r.naxsiWhitelistSrcIp),
      naxsiExtensiveLog := Known(t.stringToBool(r.naxsiExtensiveLog)),
      sendfile := Known(t.stringToBool(r.sendfile)),
      clientHeaderBufferSize := t.stringOrNull(r.clientHeaderBufferSize),
      largeClientHeaderBuffersNumber := t.stringOrNull(r.largeClientHeaderBuffersNumber),
      largeClientHeaderBuffersSize := t.stringOrNull(r.largeClientHeaderBuffersSize),
      securityHeader := StringValueFromOptionMap(r.securityHeader),
      limitRequestConnections := StringSliceToSet(t, r.limitRequestConnections),
      errorPages := StringSliceToSet(t, r.errorPages))
  }

  /** The comma encoding depends only on which elements the set has, not on their order. */
  lemma JoinStringSetCommaOrderFree(t: Tools, xs: seq<string>, ys: seq<string>)
    requires SetCodec(t)
    requires multiset(xs) == multiset(ys)
    ensures JoinStringSetComma(t, Known(xs)) == JoinStringSetComma(t, Known(ys))
  {
    var vs, ws := t.setToStringSlice(xs), t.setToStringSlice(ys);
    assert multiset(vs) == multiset(ws);
    assert |vs| == |multiset(vs)| == |multiset(ws)| == |ws|;
    SortStringsPermutation(vs, ws);
  }

  /** Splitting a non-empty comma encoding on "," gives the elements in ascending order,
      provided no element contains a comma. */
  lemma JoinStringSetCommaSplit(t: Tools, xs: seq<string>)
    requires SetCodec(t)
    requires |xs| > 0
    requires forall i :: 0 <= i < |xs| ==> ',' !in xs[i]
    ensures Split(JoinStringSetComma(t, Known(xs)), ',') == SortStrings(xs)
  {
    var vs := t.setToStringSlice(xs);
    assert |vs| == |multiset(vs)| == |multiset(xs)| == |xs|;
    SortStringsPermutation(vs, xs);
    var sorted := SortStrings(xs);
    SortStringsSpec(xs);
    forall j | 0 <= j < |sorted| ensures ',' !in sorted[j] {
      assert sorted[j] in multiset(xs);
      var i :| 0 <= i < |xs| && xs[i] == sorted[j];
    }
    assert |sorted| == |multiset(sorted)| == |xs|;
    SplitJoin(sorted, ',');
  }

  /** Encoding the set read from an option map sends exactly its selected keys, in
      ascending order, comma-joined; "" when none is selected. */
  lemma JoinStringSetCommaOfOptions(t: Tools, options: Options)
    requires SetCodec(t)
    ensures JoinStringSetComma(t, OptionMapToSet(t, options)) == Join(SortedSelectedKeys(options), ",")
  {
    var keys := SortedSelectedKeys(options);
    SortedElemsSpec(SelectedKeys(options));
    if |keys| > 0 {
      var zs := t.stringSliceToSet(keys).value;
      var vs := t.setToStringSlice(zs);
      assert multiset(vs) == multiset(keys);
      assert |vs| == |multiset(vs)| == |keys|;
      SortStringsSpec(vs);
      SortedUnique(SortStrings(vs), keys);
    }
  }

  /** Reading a server and sending it back sends TLSProtocols as exactly the selected
      protocols of the response, in ascending order, comma-joined. */
  lemma TLSProtocolsReadBack(t: Tools, id: string, r: HTTPServerResponse)
    requires SetCodec(t)
    ensures ToHTTPServer(t, Some(HttpServerResponseToModel(t, id, r))).tlsProtocols ==
            Join(SortedSelectedKeys(r.tlsProtocols), ",")
  {
    JoinStringSetCommaOfOptions(t, r.tlsProtocols);
  }
}

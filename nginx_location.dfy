/** The nginx location helpers of internal/service/nginx/location_helpers.go: reading
    option maps into plugin-framework values, and building the `nginx.Location` request
    from the resource model. */
module NginxLocation {
  import opened Framework
  import opened Text
  import opened FieldOptions
  import opened TriState

  /** `nginxLocationResourceModel`. */
  datatype LocationModel = LocationModel(
    id: Tri<string>,
    description: Tri<string>,
    urlPattern: Tri<string>,
    matchType: Tri<string>,
    pathPrefix: Tri<string>,
    upstream: Tri<string>,
    enableSecRules: Tri<bool>,
    enableLearningMode: Tri<bool>,
    secRulesErrorPage: Tri<string>,
    xssBlockScore: Tri<int64>,
    sqliBlockScore: Tri<int64>,
    customPolicy: TfSet,
    cachePath: Tri<string>,
    cacheUseStale: Tri<string>,
    cacheMethods: Tri<string>,
    cacheMinUses: Tri<int64>,
    cacheValid: Tri<string>,
    cacheBackgroundUpdate: Tri<bool>,
    cacheLock: Tri<bool>,
    cacheRevalidate: Tri<bool>,
    root: Tri<string>,
    rewrites: TfSet,
    index: TfSet,
    autoIndex: Tri<bool>,
    authBasic: Tri<bool>,
    authBasicUserFile: Tri<string>,
    advancedAcl: Tri<bool>,
    forceHttps: Tri<bool>,
    phpEnable: Tri<bool>,
    phpOverrideScriptName: Tri<string>,
    limitRequestConnections: TfSet,
    maxBodySize: Tri<string>,
    bodyBufferSize: Tri<string>,
    honeypot: Tri<bool>,
    webSocket: Tri<bool>,
    upstreamKeepalive: Tri<bool>,
    proxyBufferSize: Tri<string>,
    proxyBuffersCount: Tri<string>,
    proxyBuffersSize: Tri<string>,
    proxyBusyBuffersSize: Tri<string>,
    proxyIgnoreClientAbort: Tri<bool>,
    proxyRequestBuffering: Tri<bool>,
    proxyBuffering: Tri<bool>,
    proxyReadTimeout: Tri<string>,
    proxySendTimeout: Tri<string>,
    ipAcl: Tri<string>,
    satisfy: Tri<string>,
    proxyMaxTempFileSize: Tri<string>,
    proxySslServerName: Tri<bool>,
    errorPages: TfSet)

  /** `nginx.Location`, the request body: every field is sent as a string. */
  datatype Location = Location(
    advancedAcl: string,
    authBasic: string,
    authBasicUserFile: string,
    autoIndex: string,
    bodyBufferSize: string,
    cacheBackgroundUpdate: string,
    cacheLock: string,
    cacheMethods: string,
    cacheMinUses: string,
    cachePath: string,
    cacheRevalidate: string,
    cacheUseStale: string,
    cacheValid: string,
    customPolicy: string,
    description: string,
    enableLearningMode: string,
    enableSecRules: string,
    errorPages: string,
    forceHttps: string,
    honeypot: string,
    index: string,
    ipAcl: string,
    limitRequestConnections: string,
    matchType: string,
    maxBodySize: string,
    pathPrefix: string,
    phpEnable: string,
    phpOverrideScriptName: string,
    proxyBuffering: string,
    proxyBufferSize: string,
    proxyBuffersCount: string,
    proxyBuffersSize: string,
    proxyBusyBuffersSize: string,
    proxyIgnoreClientAbort: string,
    proxyMaxTempFileSize: string,
    proxyReadTimeout: string,
    proxyRequestBuffering: string,
    proxySendTimeout: string,
    proxySslServerName: string,
    rewrites: string,
    root: string,
    satisfy: string,
    secRulesErrorPage: string,
    sqliBlockScore: string,
    upstream: string,
    upstreamKeepalive: string,
    urlPattern: string,
    webSocket: string,
    xssBlockScore: string)

  /** The zero `nginx.Location{}`. */
  const EmptyLocation: Location := Location("", "", "", "", "", "", "", "", "", "", "", "", "", "", "", "", "", "", "", "", "", "", "", "", "", "", "", "", "", "", "", "", "", "", "", "", "", "", "", "", "", "", "", "", "", "", "", "", "")

  /** `selectedOptionKey`: the first of the ascending selected keys, so the least selected
      key; "" when nothing is selected. */
  function SelectedOptionKey(options: Options): (r: string)
    ensures SelectedKeys(options) == {} ==> r == ""
    ensures SelectedKeys(options) != {} ==> r in SelectedKeys(options) && IsMin(r, SelectedKeys(options))
  {
    var keys := SortedSelectedKeys(options);
    SortedElemsSpec(SelectedKeys(options));
    if |keys| == 0 then ""
    else (
      SortedElemsHead(SelectedKeys(options));
      keys[0])
  }

  /** `stringValueFromOptionMap`: the selected key as a known string; null when the key is "". */
  function StringValueFromOptionMap(options: Options): (r: Tri<string>)
    ensures r.Null? <==> SelectedOptionKey(options) == ""
    ensures !r.Null? ==> r == Known(SelectedOptionKey(options))
  {
    var key := SelectedOptionKey(options);
    if key == "" then Null else Known(key)
  }

  /** The option-map value is null exactly when nothing is selected or "" is among the
      selected keys: "" sorts before every other key, so it is the one picked. */
  lemma StringValueFromOptionMapNull(options: Options)
    ensures StringValueFromOptionMap(options).Null? <==>
            SelectedKeys(options) == {} || "" in SelectedKeys(options)
  {
    var s := SelectedKeys(options);
    if "" in s {
      var key := SelectedOptionKey(options);
      assert Le(key, "");
    }
  }

  /** Writing back what was read sends the selected key, and "" when it read null. */
  lemma StringValueFromOptionMapWriteBack(options: Options)
    ensures StringValue(StringValueFromOptionMap(options)) == SelectedOptionKey(options)
  {
  }

  /** With a faithful set conversion, the set holds each selected key once and nothing else. */
  lemma OptionMapToSetElements(t: Tools, options: Options)
    requires SetCodec(t)
    ensures OptionMapToSet(t, options).Null? <==> SelectedKeys(options) == {}
    ensures OptionMapToSet(t, options).Known? ==>
              Elems(OptionMapToSet(t, options).value) == SelectedKeys(options) &&
              NoDup(OptionMapToSet(t, options).value)
  {
    var keys := SortedSelectedKeys(options);
    SortedElemsSpec(SelectedKeys(options));
    if SelectedKeys(options) != {} {
      var r := t.stringSliceToSet(keys).value;
      assert multiset(r) == multiset(keys);
      NoDupPermutation(keys, r);
      forall x ensures x in r <==> x in keys {
        assert x in r <==> x in multiset(r);
      }
    }
  }

  /** `optionMapToSet`: null when nothing is selected, else the set built from the
      ascending selected keys. */
  function OptionMapToSet(t: Tools, options: Options): (r: TfSet)
    ensures SelectedKeys(options) == {} ==> r.Null?
    ensures SelectedKeys(options) != {} ==> r == t.stringSliceToSet(SortedSelectedKeys(options))
  {
    var keys := SortedSelectedKeys(options);
    SortedElemsSpec(SelectedKeys(options));
    if |keys| == 0 then Null else t.stringSliceToSet(keys)
  }

  /** `toLocation`: a nil model gives the zero Location; otherwise strings go through
      StringValue, bools through BoolToAPIString, numbers through Int64ToAPIString and
      every set through the newline JoinStringSet. */
  function ToLocation(t: Tools, m: Option<LocationModel>): (r: Location)
    ensures m.None? ==> r == EmptyLocation
    ensures m.Some? ==> r.customPolicy == JoinStringSet(t, m.value.customPolicy, '\n')
    ensures m.Some? ==> r.errorPages == JoinStringSet(t, m.value.errorPages, '\n')
    ensures m.Some? ==> r.index == JoinStringSet(t, m.value.index, '\n')
    ensures m.Some? ==> r.limitRequestConnections == JoinStringSet(t, m.value.limitRequestConnections, '\n')
    ensures m.Some? ==> r.rewrites == JoinStringSet(t, m.value.rewrites, '\n')
  {
    if m.None? then EmptyLocation
    else
      var d := m.value;
      Location(
        advancedAcl := BoolToAPIString(t, d.advancedAcl),
        authBasic := BoolToAPIString(t, d.authBasic),
        authBasicUserFile := StringValue(d.authBasicUserFile),
        autoIndex := BoolToAPIString(t, d.autoIndex),
        bodyBufferSize := StringValue(d.bodyBufferSize),
        cacheBackgroundUpdate := BoolToAPIString(t, d.cacheBackgroundUpdate),
        cacheLock := BoolToAPIString(t, d.cacheLock),
        cacheMethods := StringValue(d.cacheMethods),
        cacheMinUses := Int64ToAPIString(t, d.cacheMinUses),
        cachePath := StringValue(d.cachePath),
        cacheRevalidate := BoolToAPIString(t, d.cacheRevalidate),
        cacheUseStale := StringValue(d.cacheUseStale),
        cacheValid := StringValue(d.cacheValid),
        customPolicy := JoinStringSet(t, d.customPolicy, '\n'),
        description := StringValue(d.description),
        enableLearningMode := BoolToAPIString(t, d.enableLearningMode),
        enableSecRules := BoolToAPIString(t, d.enableSecRules),
        errorPages := JoinStringSet(t, d.errorPages, '\n'),
        forceHttps := BoolToAPIString(t, d.forceHttps),
        honeypot := BoolToAPIString(t, d.honeypot),
        index := JoinStringSet(t, d.index, '\n'),
        ipAcl := StringValue(d.ipAcl),
        limitRequestConnections := JoinStringSet(t, d.limitRequestConnections, '\n'),
        matchType := StringValue(d.matchType),
        maxBodySize := StringValue(d.maxBodySize),
        pathPrefix := StringValue(d.pathPrefix),
        phpEnable := BoolToAPIString(t, d.phpEnable),
        phpOverrideScriptName := StringValue(d.phpOverrideScriptName),
        proxyBuffering := BoolToAPIString(t, d.proxyBuffering),
        proxyBufferSize := StringValue(d.proxyBufferSize),
        proxyBuffersCount := StringValue(d.proxyBuffersCount),
        proxyBuffersSize := StringValue(d.proxyBuffersSize),
        proxyBusyBuffersSize := StringValue(d.proxyBusyBuffersSize),
        proxyIgnoreClientAbort := BoolToAPIString(t, d.proxyIgnoreClientAbort),
        proxyMaxTempFileSize := StringValue(d.proxyMaxTempFileSize),
        proxyReadTimeout := StringValue(d.proxyReadTimeout),
        proxyRequestBuffering := BoolToAPIString(t, d.proxyRequestBuffering),
        proxySendTimeout := StringValue(d.proxySendTimeout),
        proxySslServerName := BoolToAPIString(t, d.proxySslServerName),
        rewrites := JoinStringSet(t, d.rewrites, '\n'),
        root := StringValue(d.root),
        satisfy := StringValue(d.satisfy),
        secRulesErrorPage := StringValue(d.secRulesErrorPage),
        sqliBlockScore := Int64ToAPIString(t, d.sqliBlockScore),
        upstream := StringValue(d.upstream),
        upstreamKeepalive := BoolToAPIString(t, d.upstreamKeepalive),
        urlPattern := StringValue(d.urlPattern),
        webSocket := BoolToAPIString(t, d.webSocket),
        xssBlockScore := Int64ToAPIString(t, d.xssBlockScore))
  }
}

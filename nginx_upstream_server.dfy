/** The nginx upstream-server helpers of internal/service/nginx/upstream_server_helpers.go. */
module NginxUpstreamServer {
  import opened Framework
  import opened FieldOptions
  import opened TriState

  /** `nginxUpstreamServerResourceModel`. */
  datatype UpstreamServerModel = UpstreamServerModel(
    id: Tri<string>,
    description: Tri<string>,
    server: Tri<string>,
    port: Tri<string>,
    priority: Tri<string>,
    maxConns: Tri<string>,
    maxFails: Tri<string>,
    failTimeout: Tri<string>,
    noUse: Tri<string>)

  /** `nginx.UpstreamServer`, the request body. */
  datatype UpstreamServer = UpstreamServer(
    description: string,
    server: string,
    port: string,
    priority: string,
    maxConns: string,
    maxFails: string,
    failTimeout: string,
    noUse: string)

  const EmptyUpstreamServer := UpstreamServer("", "", "", "", "", "", "", "")

  /** The `UpstreamServer` object of an `nginx.UpstreamServerGetResponse`. */
  datatype UpstreamServerResponse = UpstreamServerResponse(
    description: string,
    server: string,
    port: string,
    priority: string,
    maxConns: string,
    maxFails: string,
    failTimeout: string,
    noUse: Options)

  /** `fieldOptionsFirstOption`: the first selected key met while ranging over the map;
      a selected "" key and an empty selection both give null. */
  method FieldOptionsFirstOption(options: Options) returns (r: Tri<string>)
    ensures FirstOptionOf(options, r)
    ensures SelectedKeys(options) != {} && "" !in SelectedKeys(options) ==> r.Known?
  {
    var rest := options.Keys;
    while rest != {}
      invariant rest <= options.Keys
      invariant SelectedOutside(options, rest) == {}
      decreases |rest|
    {
      var key :| key in rest;
      if options[key].selected == 1 {
        assert key in SelectedKeys(options);
        if key == "" {
          return Null;
        }
        return Known(key);
      }
      SelectedOutsideStep(options, rest, key);
      rest := rest - {key};
    }
    assert SelectedOutside(options, {}) == SelectedKeys(options);
    return Null;
  }

  /** The models `upstreamServerResponseToModel` may build from a response. */
  ghost predicate ReadFrom(t: Tools, id: string, r: UpstreamServerResponse, m: UpstreamServerModel) {
    m.id == Known(id) &&
    m.description == t.stringOrNull(r.description) &&
    m.server == t.stringOrNull(r.server) &&
    m.port == t.stringOrNull(r.port) &&
    m.priority == t.stringOrNull(r.priority) &&
    m.maxConns == t.stringOrNull(r.maxConns) &&
    m.maxFails == t.stringOrNull(r.maxFails) &&
    m.failTimeout == t.stringOrNull(r.failTimeout) &&
    FirstOptionOf(r.noUse, m.noUse)
  }

  /** `upstreamServerResponseToModel`. */
  method UpstreamServerResponseToModel(t: Tools, id: string, r: UpstreamServerResponse)
    returns (m: UpstreamServerModel)
    ensures ReadFrom(t, id, r, m)
  {
    var noUse := FieldOptionsFirstOption(r.noUse);
    m := UpstreamServerModel(
      id := Known(id),
      description := t.stringOrNull(r.description),
      server := t.stringOrNull(r.server),
      port := t.stringOrNull(r.port),
      priority := t.stringOrNull(r.priority),
      maxConns := t.stringOrNull(r.maxConns),
      maxFails := t.stringOrNull(r.maxFails),
      failTimeout := t.stringOrNull(r.failTimeout),
      noUse := noUse);
  }

  /** `toUpstreamServer`: a nil model gives the zero request. */
  function ToUpstreamServer(m: Option<UpstreamServerModel>): (r: UpstreamServer)
    ensures m.None? ==> r == EmptyUpstreamServer
    ensures m.Some? ==> r.server == StringValue(m.value.server) && r.noUse == StringValue(m.value.noUse)
  {
    if m.None? then EmptyUpstreamServer
    else
      var d := m.value;
      UpstreamServer(
        description := StringValue(d.description),
        server := StringValue(d.server),
        port := StringValue(d.port),
        priority := StringValue(d.priority),
        maxConns := StringValue(d.maxConns),
        maxFails := StringValue(d.maxFails),
        failTimeout := StringValue(d.failTimeout),
        noUse := StringValue(d.noUse))
  }

  /** `fetchUpstreamServerModel`, given what `NginxGetUpstreamServer` returned: its error
      passes through unchanged. */
  method FetchUpstreamServerModel(t: Tools, id: string, got: Outcome<UpstreamServerResponse>)
    returns (result: Outcome<UpstreamServerModel>)
    ensures got.Err? ==> result == Err(got.error)
    ensures got.Ok? ==> result.Ok? && ReadFrom(t, id, got.value, result.value)
  {
    if got.Err? {
      return Err(got.error);
    }
    var m := UpstreamServerResponseToModel(t, id, got.value);
    return Ok(m);
  }

  /** Reading a server and sending it back sends every text field unchanged, and NoUse as
      a selected key, or "" when nothing is selected or "" is. */
  lemma UpstreamServerReadBack(t: Tools, id: string, r: UpstreamServerResponse, m: UpstreamServerModel)
    requires StringOrNullCodec(t) && ReadFrom(t, id, r, m)
    ensures var q := ToUpstreamServer(Some(m));
      q.description == r.description && q.server == r.server && q.port == r.port &&
      q.priority == r.priority && q.maxConns == r.maxConns && q.maxFails == r.maxFails &&
      q.failTimeout == r.failTimeout
    ensures var q := ToUpstreamServer(Some(m));
      (q.noUse == "" || q.noUse in SelectedKeys(r.noUse)) &&
      (SelectedKeys(r.noUse) == {} ==> q.noUse == "")
  {
  }
}

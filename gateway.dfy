/** The gateway helpers of internal/service/gateway/gateway_helpers.go: the Terraform model
    of a single gateway, the request sent to OPNsense, and the read of a get response. */
module Gateway {
  import opened Framework
  import opened FieldOptions
  import opened TriState

  /** `gatewayResourceModel`. */
  datatype GatewayModel = GatewayModel(
    id: Tri<string>,
    name: Tri<string>,
    description: Tri<string>,
    interface: Tri<string>,
    ipProtocol: Tri<string>,
    gateway: Tri<string>,
    disabled: Tri<bool>,
    defaultGateway: Tri<bool>,
    farGateway: Tri<bool>,
    monitorDisable: Tri<bool>,
    monitorNoRoute: Tri<bool>,
    monitorKillStates: Tri<bool>,
    monitorKillStatesPriority: Tri<int64>,
    monitor: Tri<string>,
    forceDown: Tri<bool>,
    priority: Tri<int64>,
    weight: Tri<int64>,
    latencyLow: Tri<int64>,
    latencyHigh: Tri<int64>,
    lossLow: Tri<int64>,
    lossHigh: Tri<int64>,
    interval: Tri<int64>,
    timePeriod: Tri<int64>,
    lossInterval: Tri<int64>,
    dataLength: Tri<int64>)


  /** `gateway.GatewayRequest`: every field is the string OPNsense stores. */
  datatype GatewayRequest = GatewayRequest(
    disabled: string,
    name: string,
    interface: string,
    ipProtocol: string,
    priority: string,
    gateway: string,
    defaultGw: string,
    farGw: string,
    monitorDisable: string,
    monitorNoRoute: string,
    monitorKillStates: string,
    monitorKillStatesPriority: string,
    monitor: string,
    forceDown: string,
    weight: string,
    latencyLow: string,
    latencyHigh: string,
    lossLow: string,
    lossHigh: string,
    interval: string,
    timePeriod: string,
    lossInterval: string,
    dataLength: string,
    description: string)


  /** The zero `GatewayRequest`. */
  const EmptyGatewayRequest := GatewayRequest("", "", "", "", "", "", "", "", "", "", "", "", "", "", "", "", "", "", "", "", "", "", "", "")

  /** The gateway record of `gateway.GetGatewayResponse`; Interface and IPProtocol are option maps. */
  datatype Gateway = Gateway(
    name: string,
    description: string,
    interface: Options,
    ipProtocol: Options,
    gateway: string,
    disabled: string,
    defaultGw: string,
    farGw: string,
    monitorDisable: string,
    monitorNoRoute: string,
    monitorKillStates: string,
    monitorKillStatesPriority: string,
    monitor: string,
    forceDown: string,
    priority: string,
    weight: string,
    latencyLow: string,
    latencyHigh: string,
    lossLow: string,
    lossHigh: string,
    interval: string,
    timePeriod: string,
    lossInterval: string,
    dataLength: string)


  /** `optionalStringValue`: "" becomes null, anything else a known string. */
  function OptionalStringValue(s: string): (r: Tri<string>)
    ensures s == "" ==> r.Null?
    ensures s != "" ==> r == Known(s)
  {
    if s == "" then Null else Known(s)
  }

  /** OptionalStringValue and StringValue are inverse on strings, and on framework values
      up to reading "" as null and dropping unknown. */
  lemma OptionalStringValueRoundTrip(s: string, v: Tri<string>)
    ensures StringValue(OptionalStringValue(s)) == s
    ensures OptionalStringValue(StringValue(v)) == if v.Known? && v.value != "" then v else Null
  {
  }

  /** `convertGatewaySchemaToRequest`: a nil model gives the zero request. */
  function ConvertGatewaySchemaToRequest(t: Tools, m: Option<GatewayModel>): (r: GatewayRequest)
    ensures m.None? ==> r == EmptyGatewayRequest
    ensures m.Some? ==> r.name == StringValue(m.value.name) && r.interface == StringValue(m.value.interface)
    ensures m.Some? ==> r.priority == Int64ToAPIString(t, m.value.priority)
    ensures m.Some? ==> r.disabled == BoolToAPIString(t, m.value.disabled)
  {
    if m.None? then EmptyGatewayRequest
    else
      var d := m.value;
      GatewayRequest(
        disabled := BoolToAPIString(t, d.disabled),
        name := StringValue(d.name),
        interface := StringValue(d.interface),
        ipProtocol := StringValue(d.ipProtocol),
        priority := Int64ToAPIString(t, d.priority),
        gateway := StringValue(d.gateway),
        defaultGw := BoolToAPIString(t, d.defaultGateway),
        farGw := BoolToAPIString(t, d.farGateway),
        monitorDisable := BoolToAPIString(t, d.monitorDisable),
        monitorNoRoute := BoolToAPIString(t, d.monitorNoRoute),
        monitorKillStates := BoolToAPIString(t, d.monitorKillStates),
        monitorKillStatesPriority := Int64ToAPIString(t, d.monitorKillStatesPriority),
        monitor := StringValue(d.monitor),
        forceDown := BoolToAPIString(t, d.forceDown),
        weight := Int64ToAPIString(t, d.weight),
        latencyLow := Int64ToAPIString(t, d.latencyLow),
        latencyHigh := Int64ToAPIString(t, d.latencyHigh),
        lossLow := Int64ToAPIString(t, d.lossLow),
        lossHigh := Int64ToAPIString(t, d.lossHigh),
        interval := Int64ToAPIString(t, d.interval),
        timePeriod := Int64ToAPIString(t, d.timePeriod),
        lossInterval := Int64ToAPIString(t, d.lossInterval),
        dataLength := Int64ToAPIString(t, d.dataLength),
        description := StringValue(d.description))

  }

  /** The model `gatewayResponseToModel` builds once the keys picked from Interface and
      IPProtocol are known: Id, Name, Interface and IpProtocol are always known, even when
      empty, while Description, Gateway and Monitor are null when empty. */
  function ReadWith(t: Tools, id: string, r: Gateway, iface: string, proto: string): (m: GatewayModel)
    ensures m.id == Known(id) && m.name == Known(r.name)
    ensures m.interface == Known(iface) && m.ipProtocol == Known(proto)
    ensures r.gateway == "" ==> m.gateway.Null?
    ensures r.monitor == "" ==> m.monitor.Null?
  {
    GatewayModel(
      id := Known(id),
      name := Known(r.name),
      description := t.stringOrNull(r.description),
      interface := Known(iface),
      ipProtocol := Known(proto),
      gateway := OptionalStringValue(r.gateway),
      disabled := Known(t.stringToBool(r.disabled)),
      defaultGateway := Known(t.stringToBool(r.defaultGw)),
      farGateway := Known(t.stringToBool(r.farGw)),
      monitorDisable := Known(t.stringToBool(r.monitorDisable)),
      monitorNoRoute := Known(t.stringToBool(r.monitorNoRoute)),
      monitorKillStates := Known(t.stringToBool(r.monitorKillStates)),
      monitorKillStatesPriority := t.stringToInt64Null(r.monitorKillStatesPriority),
      monitor := OptionalStringValue(r.monitor),
      forceDown := Known(t.stringToBool(r.forceDown)),
      priority := t.stringToInt64Null(r.priority),
      weight := t.stringToInt64Null(r.weight),
      latencyLow := t.stringToInt64Null(r.latencyLow),
      latencyHigh := t.stringToInt64Null(r.latencyHigh),
      lossLow := t.stringToInt64Null(r.lossLow),
      lossHigh := t.stringToInt64Null(r.lossHigh),
      interval := t.stringToInt64Null(r.interval),
      timePeriod := t.stringToInt64Null(r.timePeriod),
      lossInterval := t.stringToInt64Null(r.lossInterval),
      dataLength := t.stringToInt64Null(r.dataLength))

  }

  /** The models `gatewayResponseToModel` may build from a response. */
  ghost predicate ReadFrom(t: Tools, id: string, r: Gateway, m: GatewayModel) {
    m.interface.Known? && m.ipProtocol.Known? &&
    FirstKeyOf(r.interface, m.interface.value) &&
    FirstKeyOf(r.ipProtocol, m.ipProtocol.value) &&
    m == ReadWith(t, id, r, m.interface.value, m.ipProtocol.value)
  }

  /** `gatewayResponseToModel`: a nil response gives a nil model. */
  method GatewayResponseToModel(t: Tools, id: string, resp: Option<Gateway>)
    returns (m: Option<GatewayModel>)
    ensures resp.None? ==> m.None?
    ensures resp.Some? ==> m.Some? && ReadFrom(t, id, resp.value, m.value)
  {
    if resp.None? {
      return None;
    }
    var data := resp.value;
    var iface := FirstSelectedKey(data.interface);
    var proto := FirstSelectedKey(data.ipProtocol);
    return Some(ReadWith(t, id, data, iface, proto));
  }

  /** The response OPNsense returns for a stored request: every string field as sent, and
      Interface and IPProtocol the given option maps. */
  function Stored(q: GatewayRequest, iface: Options, proto: Options): (r: Gateway)
    ensures r.name == q.name && r.gateway == q.gateway && r.priority == q.priority
  {
    Gateway(
      name := q.name,
      description := q.description,
      interface := iface,
      ipProtocol := proto,
      gateway := q.gateway,
      disabled := q.disabled,
      defaultGw := q.defaultGw,
      farGw := q.farGw,
      monitorDisable := q.monitorDisable,
      monitorNoRoute := q.monitorNoRoute,
      monitorKillStates := q.monitorKillStates,
      monitorKillStatesPriority := q.monitorKillStatesPriority,
      monitor := q.monitor,
      forceDown := q.forceDown,
      priority := q.priority,
      weight := q.weight,
      latencyLow := q.latencyLow,
      latencyHigh := q.latencyHigh,
      lossLow := q.lossLow,
      lossHigh := q.lossHigh,
      interval := q.interval,
      timePeriod := q.timePeriod,
      lossInterval := q.lossInterval,
      dataLength := q.dataLength)
  }

  /** Reading back a stored request gives the planned model, up to the framework's null
      handling: bools read back as their value (null as false), numbers as themselves
      (unknown as null), the nullable strings null when empty, and the interface and
      protocol the one selected option. */
  lemma GatewayReadBack(t: Tools, id: string, d: GatewayModel, iface: Options, proto: Options, back: GatewayModel)
    requires BoolCodec(t) && Int64Codec(t) && StringOrNullCodec(t)
    requires SelectedKeys(iface) == {StringValue(d.interface)}
    requires SelectedKeys(proto) == {StringValue(d.ipProtocol)}
    requires ReadFrom(t, id, Stored(ConvertGatewaySchemaToRequest(t, Some(d)), iface, proto), back)
    ensures back.id == Known(id)
    ensures back.name == Known(StringValue(d.name))
    ensures back.interface == Known(StringValue(d.interface))
    ensures back.ipProtocol == Known(StringValue(d.ipProtocol))
    ensures back.gateway == OptionalStringValue(StringValue(d.gateway))
    ensures back.description == OptionalStringValue(StringValue(d.description))
    ensures back.disabled == Known(ValueBool(d.disabled))
    ensures back.forceDown == Known(ValueBool(d.forceDown))
    ensures back.priority == (if d.priority.Known? then d.priority else Null)
    ensures back.dataLength == (if d.dataLength.Known? then d.dataLength else Null)
  {
    var q := ConvertGatewaySchemaToRequest(t, Some(d));
    BoolToAPIStringReadBack(t, d.disabled);
    BoolToAPIStringReadBack(t, d.forceDown);
    Int64ToAPIStringReadBack(t, d.priority);
    Int64ToAPIStringReadBack(t, d.dataLength);
    assert t.stringOrNull(q.description) == OptionalStringValue(q.description);
  }
}

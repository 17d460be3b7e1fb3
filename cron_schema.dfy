/** The cron job converters of internal/service/cron/cron_schema.go, between the Terraform
    model of a job and the `cron.Item` record the OPNsense client sends and reads. */
module CronSchema {
  import opened Framework

  /** `cronResourceModel`. */
  datatype CronModel = CronModel(
    enabled: Tri<bool>,
    minutes: Tri<string>,
    hours: Tri<string>,
    days: Tri<string>,
    months: Tri<string>,
    weekdays: Tri<string>,
    who: Tri<string>,
    command: Tri<string>,
    parameters: Tri<string>,
    description: Tri<string>,
    id: Tri<string>)

  /** `cron.Item`: the job as OPNsense stores it, every field a string. */
  datatype Item = Item(
    uuid: string,
    origin: string,
    enabled: string,
    minutes: string,
    hours: string,
    days: string,
    months: string,
    weekdays: string,
    who: string,
    command: string,
    parameters: string,
    description: string)

  /** `convertCRONSchemaToStruct`: Id and the string fields by `ValueString`, Enabled
      encoded by BoolToString; Origin is never set. It never fails. */
  function ConvertCronSchemaToStruct(t: Tools, d: CronModel): (r: Outcome<Item>)
    ensures r.Ok? && r.value.origin == ""
    ensures r.value.uuid == ValueString(d.id) && r.value.command == ValueString(d.command)
    ensures r.value.enabled == t.boolToString(ValueBool(d.enabled))
  {
    Ok(Item(
      uuid := ValueString(d.id),
      origin := "",
      enabled := t.boolToString(ValueBool(d.enabled)),
      minutes := ValueString(d.minutes),
      hours := ValueString(d.hours),
      days := ValueString(d.days),
      months := ValueString(d.months),
      weekdays := ValueString(d.weekdays),
      who := ValueString(d.who),
      command := ValueString(d.command),
      parameters := ValueString(d.parameters),
      description := ValueString(d.description)))
  }

  /** `convertCRONStructToSchema`: every field becomes a known value, Id the UUID and
      Enabled decoded by StringToBool. It never fails. */
  function ConvertCronStructToSchema(t: Tools, d: Item): (r: Outcome<CronModel>)
    ensures r.Ok?
    ensures r.value.id == Known(d.uuid) && r.value.enabled == Known(t.stringToBool(d.enabled))
    ensures r.value.command == Known(d.command)
  {
    Ok(CronModel(
      enabled := Known(t.stringToBool(d.enabled)),
      minutes := Known(d.minutes),
      hours := Known(d.hours),
      days := Known(d.days),
      months := Known(d.months),
      weekdays := Known(d.weekdays),
      who := Known(d.who),
      command := Known(d.command),
      parameters := Known(d.parameters),
      description := Known(d.description),
      id := Known(d.uuid)))
  }

  /** Struct to schema and back keeps the UUID and every string field; Origin is lost, and
      Enabled comes back in the encoding BoolToString gives its decoded value. */
  lemma StructRoundTrip(t: Tools, i: Item)
    ensures var back := ConvertCronSchemaToStruct(t, ConvertCronStructToSchema(t, i).value).value;
            back.(origin := i.origin, enabled := i.enabled) == i &&
            back.origin == "" &&
            back.enabled == t.boolToString(t.stringToBool(i.enabled))
  {
  }

  /** Schema to struct and back gives any fully known model unchanged, when StringToBool
      reads back what BoolToString writes. */
  lemma SchemaRoundTrip(t: Tools, m: CronModel)
    requires BoolCodec(t)
    requires m.enabled.Known? && m.minutes.Known? && m.hours.Known? && m.days.Known?
    requires m.months.Known? && m.weekdays.Known? && m.who.Known? && m.command.Known?
    requires m.parameters.Known? && m.description.Known? && m.id.Known?
    ensures ConvertCronStructToSchema(t, ConvertCronSchemaToStruct(t, m).value).value == m
  {
    assert t.stringToBool(t.boolToString(m.enabled.value)) == m.enabled.value;
  }
}

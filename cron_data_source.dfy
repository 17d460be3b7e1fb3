/** `cronItemFromGet` of internal/service/cron/cron_data_source.go: the `cron.Item` the data
    source builds from a get response. */
module CronDataSource {
  import opened Framework
  import opened FieldOptions
  import opened CronSchema

  /** The job record of `cron.GetJobResponse`; Command is an option map. */
  datatype Job = Job(
    origin: string,
    enabled: string,
    minutes: string,
    hours: string,
    days: string,
    months: string,
    weekdays: string,
    who: string,
    command: Options,
    parameters: string,
    description: string)

  /** The item with every copied field of `job`, the given command, and no UUID. */
  function ItemWith(job: Job, command: string): (r: Item)
    ensures r.uuid == "" && r.command == command
    ensures r.origin == job.origin && r.enabled == job.enabled && r.description == job.description
  {
    Item(
      uuid := "",
      origin := job.origin,
      enabled := job.enabled,
      minutes := job.minutes,
      hours := job.hours,
      days := job.days,
      months := job.months,
      weekdays := job.weekdays,
      who := job.who,
      command := command,
      parameters := job.parameters,
      description := job.description)
  }

  /** `cronItemFromGet`: the copied fields, then the first selected command met in map
      order, "" when none is selected. The UUID is left for the caller to set. */
  method CronItemFromGet(job: Job) returns (item: Item)
    ensures FirstKeyOf(job.command, item.command)
    ensures item == ItemWith(job, item.command)
  {
    item := ItemWith(job, "");
    var rest := job.command.Keys;
    while rest != {}
      invariant rest <= job.command.Keys
      invariant SelectedOutside(job.command, rest) == {}
      decreases |rest|
    {
      var k :| k in rest;
      if job.command[k].selected == 1 {
        assert k in SelectedKeys(job.command);
        item := item.(command := k);
        break;
      }
      SelectedOutsideStep(job.command, rest, k);
      rest := rest - {k};
    }
  }
}

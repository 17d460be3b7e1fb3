/** The ACME client settings helpers of internal/service/acmeclient/settings_helpers.go.
    Its `boolToAPIString`, `int64ToAPIString` and `stringToAPIValue` are the shared
    TriState converters, and its `selectedOptionKey` is FieldOptions.FirstSelectedKey. */
module AcmeSettings {
  import opened Framework
  import opened FieldOptions
  import opened TriState

  /** `acmeclientSettingsResourceModel`. */
  datatype SettingsModel = SettingsModel(
    enabled: Tri<bool>,
    autoRenewal: Tri<bool>,
    haproxyIntegration: Tri<bool>,
    logLevel: Tri<string>,
    showIntro: Tri<bool>,
    challengePort: Tri<int64>,
    tlsChallengePort: Tri<int64>,
    restartTimeout: Tri<int64>)

  /** `resp.ACMEClient.Settings` of an `acmeclient.SettingsGetResponse`. */
  datatype SettingsResponse = SettingsResponse(
    enabled: string,
    autoRenewal: string,
    haproxyIntegration: string,
    logLevel: Options,
    showIntro: string,
    challengePort: string,
    tlsChallengePort: string,
    restartTimeout: string)

  /** `acmeclient.SettingsSetSettings`, the `Settings` object of the set request. */
  datatype SettingsSetSettings = SettingsSetSettings(
    enabled: string,
    autoRenewal: string,
    haproxyIntegration: string,
    logLevel: string,
    showIntro: string,
    challengePort: string,
    tlsChallengePort: string,
    restartTimeout: string)

  /** `acmeclient.SettingsSetRequest`. */
  datatype SettingsSetRequest = SettingsSetRequest(settings: SettingsSetSettings)

  const EmptySettingsSetRequest := SettingsSetRequest(SettingsSetSettings("", "", "", "", "", "", "", ""))

  /** `stringValueFromOptionMap`: the key the unordered `selectedOptionKey` scan finds, or
      null when it finds "" — so null both for no selection and for a selected "" key met first. */
  method StringValueFromOptionMap(options: Options) returns (r: Tri<string>)
    ensures FirstOptionOf(options, r)
    ensures SelectedKeys(options) != {} && "" !in SelectedKeys(options) ==> r.Known?
  {
    var value := FirstSelectedKey(options);
    if value == "" {
      return Null;
    }
    return Known(value);
  }

  /** The models `settingsResponseToModel` may build from a response. */
  ghost predicate ReadFrom(t: Tools, r: SettingsResponse, m: SettingsModel) {
    m.enabled == Known(t.stringToBool(r.enabled)) &&
    m.autoRenewal == Known(t.stringToBool(r.autoRenewal)) &&
    m.haproxyIntegration == Known(t.stringToBool(r.haproxyIntegration)) &&
    FirstOptionOf(r.logLevel, m.logLevel) &&
    m.showIntro == Known(t.stringToBool(r.showIntro)) &&
    m.challengePort == t.stringToInt64Null(r.challengePort) &&
    m.tlsChallengePort == t.stringToInt64Null(r.tlsChallengePort) &&
    m.restartTimeout == t.stringToInt64Null(r.restartTimeout)
  }

  /** `settingsResponseToModel`. */
  method SettingsResponseToModel(t: Tools, r: SettingsResponse) returns (m: SettingsModel)
    ensures ReadFrom(t, r, m)
  {
    var logLevel := StringValueFromOptionMap(r.logLevel);
    m := SettingsModel(
      enabled := Known(t.stringToBool(r.enabled)),
      autoRenewal := Known(t.stringToBool(r.autoRenewal)),
      haproxyIntegration := Known(t.stringToBool(r.haproxyIntegration)),
      logLevel := logLevel,
      showIntro := Known(t.stringToBool(r.showIntro)),
      challengePort := t.stringToInt64Null(r.challengePort),
      tlsChallengePort := t.stringToInt64Null(r.tlsChallengePort),
      restartTimeout := t.stringToInt64Null(r.restartTimeout));
  }

  /** `toSettingsSetRequest`: a nil model gives the zero request. */
  function ToSettingsSetRequest(t: Tools, m: Option<SettingsModel>): (r: SettingsSetRequest)
    ensures m.None? ==> r == EmptySettingsSetRequest
    ensures m.Some? ==> r.settings.logLevel == StringValue(m.value.logLevel)
  {
    if m.None? then EmptySettingsSetRequest
    else
      var d := m.value;
      SettingsSetRequest(SettingsSetSettings(
        enabled := BoolToAPIString(t, d.enabled),
        autoRenewal := BoolToAPIString(t, d.autoRenewal),
        haproxyIntegration := BoolToAPIString(t, d.haproxyIntegration),
        logLevel := StringValue(d.logLevel),
        showIntro := BoolToAPIString(t, d.showIntro),
        challengePort := Int64ToAPIString(t, d.challengePort),
        tlsChallengePort := Int64ToAPIString(t, d.tlsChallengePort),
        restartTimeout := Int64ToAPIString(t, d.restartTimeout)))
  }

  /** Writing a model and reading back a response that carries the written texts gives the
      model with every bool made known (null and unknown as false), every unknown number
      read as null, and LogLevel as whatever key the response selects. */
  lemma SettingsReadAfterWrite(t: Tools, m: SettingsModel, r: SettingsResponse, back: SettingsModel)
    requires BoolCodec(t) && Int64Codec(t)
    requires var s := ToSettingsSetRequest(t, Some(m)).settings;
      r.enabled == s.enabled && r.autoRenewal == s.autoRenewal &&
      r.haproxyIntegration == s.haproxyIntegration && r.showIntro == s.showIntro &&
      r.challengePort == s.challengePort && r.tlsChallengePort == s.tlsChallengePort &&
      r.restartTimeout == s.restartTimeout
    requires ReadFrom(t, r, back)
    ensures back.enabled == Known(ValueBool(m.enabled))
    ensures back.autoRenewal == Known(ValueBool(m.autoRenewal))
    ensures back.haproxyIntegration == Known(ValueBool(m.haproxyIntegration))
    ensures back.showIntro == Known(ValueBool(m.showIntro))
    ensures back.challengePort == if m.challengePort.Known? then m.challengePort else Null
    ensures back.tlsChallengePort == if m.tlsChallengePort.Known? then m.tlsChallengePort else Null
    ensures back.restartTimeout == if m.restartTimeout.Known? then m.restartTimeout else Null
  {
    BoolToAPIStringReadBack(t, m.enabled);
    BoolToAPIStringReadBack(t, m.autoRenewal);
    BoolToAPIStringReadBack(t, m.haproxyIntegration);
    BoolToAPIStringReadBack(t, m.showIntro);
    Int64ToAPIStringReadBack(t, m.challengePort);
    Int64ToAPIStringReadBack(t, m.tlsChallengePort);
    Int64ToAPIStringReadBack(t, m.restartTimeout);
  }
}

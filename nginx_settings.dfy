/** The nginx general-settings helpers of internal/service/nginx/settings_helpers.go. */
module NginxSettings {
  import opened Framework
  import opened TriState

  /** `nginxSettingsResourceModel`. */
  datatype SettingsModel = SettingsModel(enabled: Tri<bool>, banTTL: Tri<int64>)

  /** `nginx.General`: the two settings the helpers read and write, as the API's strings.
      It is both the `General` object of the get response and of the set request. */
  datatype General = General(enabled: string, banTTL: string)

  /** `nginx.SettingsSetRequest`. */
  datatype SettingsSetRequest = SettingsSetRequest(general: General)

  const EmptySettingsSetRequest := SettingsSetRequest(General("", ""))

  /** `settingsResponseToModel`, given `resp.NGinx.General`: Enabled is always known,
      BanTTL is whatever `StringToInt64Null` makes of the text. */
  function SettingsResponseToModel(t: Tools, general: General): (m: SettingsModel)
    ensures m.enabled.Known? && m.enabled.value == t.stringToBool(general.enabled)
    ensures m.banTTL == t.stringToInt64Null(general.banTTL)
  {
    SettingsModel(
      enabled := Known(t.stringToBool(general.enabled)),
      banTTL := t.stringToInt64Null(general.banTTL))
  }

  /** `toSettingsSetRequest`: a nil model gives the zero request. */
  function ToSettingsSetRequest(t: Tools, m: Option<SettingsModel>): (r: SettingsSetRequest)
    ensures m.None? ==> r == EmptySettingsSetRequest
    ensures m.Some? ==> r.general.enabled == t.boolToString(ValueBool(m.value.enabled))
    ensures m.Some? && !m.value.banTTL.Known? ==> r.general.banTTL == ""
  {
    if m.None? then EmptySettingsSetRequest
    else
      SettingsSetRequest(General(
        enabled := BoolToAPIString(t, m.value.enabled),
        banTTL := Int64ToAPIString(t, m.value.banTTL)))
  }

  /** Writing a model and reading the same settings back gives the model with Enabled
      made known (null and unknown read back as false) and an unknown BanTTL read back as null. */
  lemma SettingsReadAfterWrite(t: Tools, m: SettingsModel)
    requires BoolCodec(t) && Int64Codec(t)
    ensures SettingsResponseToModel(t, ToSettingsSetRequest(t, Some(m)).general) ==
            SettingsModel(Known(ValueBool(m.enabled)), if m.banTTL.Known? then m.banTTL else Null)
  {
    BoolToAPIStringReadBack(t, m.enabled);
    Int64ToAPIStringReadBack(t, m.banTTL);
  }

  /** Reading the settings and writing them back sends the same Enabled text when it is
      one of the two encodings of a bool, and the same BanTTL text when it is a number's encoding. */
  lemma SettingsWriteAfterRead(t: Tools, general: General, b: bool, n: int64)
    requires general.enabled == t.boolToString(b) && general.banTTL == t.int64ToString(n)
    requires BoolCodec(t) && Int64Codec(t)
    ensures ToSettingsSetRequest(t, Some(SettingsResponseToModel(t, general))).general == general
  {
    assert t.stringToBool(t.boolToString(b)) == b;
    assert t.stringToInt64Null(t.int64ToString(n)) == Known(n);
  }
}

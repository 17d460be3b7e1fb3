# OPNsense Terraform provider: conversion helpers

This project models the conversion helpers of the OPNsense Terraform provider and proves
what they promise. The helpers sit between Terraform's plugin-framework values and the
records of the OPNsense API client, in the nginx, ACME client, gateway, cron and firmware
services:

- **Option-map selection.** OPNsense encodes enum and multi-select fields as
  `key -> {value, selected}` option maps. There are four read variants:
  - the sorted keys, and the least selected key;
  - the first key met in Go map order;
  - the first key met, with a selected "" read as null;
  - each value, falling back to its key.
- **Set encodings.** Sets are sent as newline-joined strings, as sorted comma-joined
  strings, or as unsorted comma-joined strings. Alternative names are read back by
  splitting on ",".
- **Tri-state conversion.** Values that are null, unknown or known become API strings.
  Also modelled here are the record-to-record mappings of nginx locations, HTTP servers,
  upstreams, upstream servers and settings; ACME settings, accounts, certificates,
  challenges and automations; gateways; and cron jobs.
- **Carry-over merges.** The secrets of an automation are kept when the API does not
  return them. Missing challenge parameters are filled from the plan. Typed fields are
  filtered out of the decoded validation.
- **Read fallback.** When the get call fails with an array-decode error, the fetchers
  scan the search rows for the requested UUID, and return "not found" when none matches.
- **Small scans.** These are the validation-error text for a failed gateway action, the
  selected command of a cron job, and the installed flag of a firmware plugin.

A framework value is `Tri<T> = Null | Unknown | Known(value)`, and a known set is given
by its element list. The `internal/tools` helpers appear as the fields of a `Tools`
record with no body. BoolToString, StringToBool, the int64 converters, StringOrNull and
the set/slice conversions are among them. A lemma that needs one of them to round-trip
says so in a `requires`, naming one of the predicates BoolCodec, Int64Codec,
StringOrNullCodec or SetCodec. Go's map iteration order is unspecified. Every loop over
a map therefore picks its next key with `:|` from the keys not yet visited. Where the
result depends on that order, the method ensures a predicate that allows every possible
result: FirstKeyOf, FirstOptionOf, or a module's `ReadFrom`. A Go pointer that a helper
writes through is a `Ptr` object, and nil is `null`.

Several packages carry identical copies of the same one-liner, and each is defined once:

- `stringValue` (nginx, gateway) and `stringToAPIValue` (acmeclient) are
  `TriState.StringValue`.
- `boolToAPIString` and `int64ToAPIString` in nginx, acmeclient and gateway are the
  `TriState` functions of the same name.
- `stringSliceToSet` (nginx, acmeclient) is `TriState.StringSliceToSet`.
- `joinStringSet` of nginx (newline-joined) and of acmeclient (comma-joined) differ
  only in the separator. Both are `TriState.JoinStringSet`, which takes the separator.
- `fieldOptionsToSet` (nginx upstreams) repeats `optionMapToSet` (nginx locations);
  both are `NginxLocation.OptionMapToSet`.
- The unordered `selectedOptionKey` of acmeclient and gateway is
  `FieldOptions.FirstSelectedKey`.
- `selectedOptionKeys` of acmeclient repeats `selectedFieldOptionKeys` of nginx; both are
  `FieldOptions.SelectedFieldOptionKeys`.

The challenge helpers read and write ten DNS fields (`DNSAwsID` … `DNSGoogleDomainsZone`)
that the challenge resource model in acmeclient/challenge_schema.go does not declare. The
model follows the helpers and gives `ChallengeModel` those fields.

## Model

| member | source | states |
|---|---|---|
| FieldOptions.SelectedOptionKeys | internal/service/nginx/location_helpers.go:181-190 | the result has exactly the selected keys, each once, in ascending order, whatever the map order |
| FieldOptions.SelectedFieldOptionKeys | internal/service/nginx/upstream_helpers.go:92-106 | an empty map gives []; otherwise exactly the selected keys, each once, ascending |
| FieldOptions.FirstSelectedKey | internal/service/acmeclient/settings_helpers.go:52-59 | "" when nothing is selected; otherwise some selected key, with no order promised (the gateway copy is gateway_helpers.go:113-120) |
| FieldOptions.SortedSelectedKeysMembers | internal/service/nginx/location_helpers.go:181-190 | a key is in the sorted selection exactly when its option has Selected == 1 |
| FieldOptions.SelectedOutsideStep | internal/service/nginx/location_helpers.go:183-187 | visiting one more key of the map adds it to the selected keys seen exactly when it is selected |
| TriState.StringValue | internal/service/nginx/location_helpers.go:155-161 | null and unknown give "", Known(s) gives s |
| TriState.BoolToAPIString | internal/service/nginx/settings_helpers.go:31-36 | null and unknown are sent as the encoding of false, a known bool as its encoding |
| TriState.Int64ToAPIString | internal/service/nginx/settings_helpers.go:38-43 | null and unknown are sent as "", a known number as its encoding |
| TriState.StringSliceToSet | internal/service/nginx/location_helpers.go:147-153 | an empty slice gives a null set, any other slice the converted set |
| TriState.BoolToAPIStringReadBack | internal/service/acmeclient/settings_helpers.go:61-66 | with a faithful bool codec, the API reads back the bool, and null or unknown as false |
| TriState.Int64ToAPIStringReadBack | internal/service/acmeclient/settings_helpers.go:68-73 | with a faithful number codec, a known number reads back as itself, and null or unknown as null |
| TriState.Int64ToAPIStringEmpty | internal/service/gateway/gateway_helpers.go:106-111 | the text is "" exactly when the number is null or unknown |
| TriState.StringSliceToSetElements | internal/service/acmeclient/challenge_helpers.go:157-163 | the set is null exactly for the empty slice, and otherwise has the slice's elements |
| TriState.JoinStringSet | internal/service/nginx/location_helpers.go:138-145 | "" for a null or unknown set, else the elements in slice order joined by the separator, not sorted; the acmeclient copy at internal/service/acmeclient/challenge_helpers.go lines 165-172 joins with "," |
| TriState.JoinStringSetSplit | internal/service/acmeclient/challenge_helpers.go:165-172 | splitting the encoding of a non-empty set recovers its elements as a multiset, when none contains the separator |
| Text.SortStringsSpec | internal/service/nginx/location_helpers.go:188 | `sort.Strings` gives an ascending permutation of its input |
| Text.SortStringsPermutation | internal/service/nginx/http_server_helpers.go:143 | sorting depends only on the multiset of elements, not on their order |
| Text.SortedElemsSpec | internal/service/nginx/upstream_helpers.go:104 | the ascending listing of a set is strictly sorted and has exactly its elements |
| Text.Split | internal/service/acmeclient/certificate_helpers.go:49 | `strings.Split` on one character never returns an empty slice |
| Text.SplitJoin | internal/service/nginx/http_server_helpers.go:144 | splitting a non-empty join of separator-free strings gives back the strings |
| Text.ContainsSpec | internal/service/acmeclient/account_helpers.go:92 | `strings.Contains` holds exactly when the pattern occurs at some position |
| Framework.MapElements | internal/service/acmeclient/challenge_resource.go:217-219 | `ElementsAs` into a Go map succeeds exactly when every element is known, and then keeps every key and value |
| Framework.Wrap | internal/service/acmeclient/account_helpers.go:70-73 | a `%w` error gets a prefix added to its text and keeps its not-found chain |
| Framework.Describe | internal/service/firmware/plugin_data_source.go:81-84 | a `%s` error gets a prefix added to its text and loses its not-found chain |
| NginxLocation.SelectedOptionKey | internal/service/nginx/location_helpers.go:192-198 | "" when nothing is selected; otherwise the lexicographically least selected key |
| NginxLocation.StringValueFromOptionMap | internal/service/nginx/location_helpers.go:163-170 | null exactly when the selected key is "", otherwise the key as a known string |
| NginxLocation.StringValueFromOptionMapNull | internal/service/nginx/location_helpers.go:163-170 | null exactly when nothing is selected or the least selected key is "" |
| NginxLocation.StringValueFromOptionMapWriteBack | internal/service/nginx/location_helpers.go:155-170 | sending back what was read sends the selected key, and "" for null |
| NginxLocation.OptionMapToSet | internal/service/nginx/location_helpers.go:172-179 | null when nothing is selected, else the set made of the sorted selected keys |
| NginxLocation.OptionMapToSetElements | internal/service/nginx/location_helpers.go:172-179 | with a faithful set conversion, the set is null exactly when nothing is selected, and otherwise holds each selected key once |
| NginxLocation.ToLocation | internal/service/nginx/location_helpers.go:71-127 | a nil model gives the zero Location; the set fields are newline-joined |
| NginxHttpServer.JoinStringSetComma | internal/service/nginx/http_server_helpers.go:133-145 | "" for a null, unknown or empty set, else the sorted elements joined by "," |
| NginxHttpServer.JoinStringSetCommaOrderFree | internal/service/nginx/http_server_helpers.go:143-144 | the encoding does not depend on the set's iteration order |
| NginxHttpServer.JoinStringSetCommaSplit | internal/service/nginx/http_server_helpers.go:143-144 | splitting a non-empty encoding on "," gives the sorted elements when none contains "," |
| NginxHttpServer.JoinStringSetCommaOfOptions | internal/service/nginx/http_server_helpers.go:133-145 | encoding the set read from an option map sends its selected keys, ascending and comma-joined |
| NginxHttpServer.ToHTTPServer | internal/service/nginx/http_server_helpers.go:68-122 | a nil model gives the zero HTTPServer; TLSProtocols uses the comma encoder and the other sets the newline one |
| NginxHttpServer.HttpServerResponseToModel | internal/service/nginx/http_server_helpers.go:13-66 | Id is the id argument; Locations and TLSProtocols come from optionMapToSet |
| NginxHttpServer.TLSProtocolsReadBack | internal/service/nginx/http_server_helpers.go:43 | reading a server and sending it back sends TLSProtocols as its selected keys, sorted and comma-joined (also line 112 of the same file) |
| NginxUpstream.FieldOptionsFirstKey | internal/service/nginx/upstream_helpers.go:84-90 | null when nothing is selected, else the least selected key as a known string, "" included |
| NginxUpstream.FirstKeyVersusStringValue | internal/service/nginx/upstream_helpers.go:84-90 | a selected "" key gives Known("") here but null from stringValueFromOptionMap; otherwise the two agree |
| NginxUpstream.ToUpstream | internal/service/nginx/upstream_helpers.go:39-64 | a nil model gives the zero Upstream; ServerEntries is newline-joined and TLSProtocolVersions sorted and comma-joined |
| NginxUpstream.UpstreamResponseToModel | internal/service/nginx/upstream_helpers.go:13-37 | Id is the id argument; the set fields come from fieldOptionsToSet and the single choices from fieldOptionsFirstKey |
| NginxUpstream.TLSProtocolVersionsReadBack | internal/service/nginx/upstream_helpers.go:46 | reading an upstream and sending it back sends its selected TLS versions, sorted and comma-joined (also line 57 of the same file) |
| NginxUpstream.LoadBalancingAlgorithmReadBack | internal/service/nginx/upstream_helpers.go:20 | reading an upstream and sending it back sends the least selected algorithm, "" when none is selected (also line 50 of the same file) |
| NginxUpstreamServer.FieldOptionsFirstOption | internal/service/nginx/upstream_server_helpers.go:54-65 | null when nothing is selected or the key met is ""; otherwise some selected key, in map order |
| NginxUpstreamServer.UpstreamServerResponseToModel | internal/service/nginx/upstream_server_helpers.go:12-26 | Id is the id argument, the texts go through StringOrNull, NoUse through fieldOptionsFirstOption |
| NginxUpstreamServer.ToUpstreamServer | internal/service/nginx/upstream_server_helpers.go:28-43 | a nil model gives the zero request; each field is its stringValue |
| NginxUpstreamServer.FetchUpstreamServerModel | internal/service/nginx/upstream_server_helpers.go:45-52 | an error from the get call passes through; otherwise the response is read as above |
| NginxUpstreamServer.UpstreamServerReadBack | internal/service/nginx/upstream_server_helpers.go:12-43 | reading a server and sending it back sends the same texts, and NoUse as a selected key |
| NginxSettings.SettingsResponseToModel | internal/service/nginx/settings_helpers.go:9-16 | only General.Enabled and BanTTL are read; Enabled is always known |
| NginxSettings.ToSettingsSetRequest | internal/service/nginx/settings_helpers.go:18-29 | a nil model gives the zero request; otherwise General.Enabled and BanTTL come from the two tri-state converters |
| NginxSettings.SettingsReadAfterWrite | internal/service/nginx/settings_helpers.go:9-43 | writing the settings and reading them back gives Enabled as its bool value and BanTTL unchanged, with unknown read as null |
| NginxSettings.SettingsWriteAfterRead | internal/service/nginx/settings_helpers.go:9-43 | reading encoded settings and writing them back sends the same texts |
| AcmeSettings.StringValueFromOptionMap | internal/service/acmeclient/settings_helpers.go:44-50 | null when nothing is selected or the key met is "", else a selected key, in map order |
| AcmeSettings.SettingsResponseToModel | internal/service/acmeclient/settings_helpers.go:10-23 | the bools are known, the numbers go through StringToInt64Null, LogLevel through stringValueFromOptionMap |
| AcmeSettings.ToSettingsSetRequest | internal/service/acmeclient/settings_helpers.go:25-42 | a nil model gives the zero request; each field is its tri-state conversion |
| AcmeSettings.SettingsReadAfterWrite | internal/service/acmeclient/settings_helpers.go:10-42 | reading back what was written gives each bool as its value and each number unchanged, with unknown read as null |
| AcmeAccount.IsAccountArrayDecodeError | internal/service/acmeclient/account_helpers.go:88-93 | false for a nil error; otherwise true exactly when the text contains "cannot unmarshal array" |
| AcmeAccount.StringValueOrNull | internal/service/acmeclient/account_helpers.go:95-97 | always a known string, "" included, whatever its name suggests |
| AcmeAccount.FillId | internal/service/acmeclient/account_helpers.go:54-56 | a null or empty Id becomes the requested id; any other Id is kept |
| AcmeAccount.FirstMatch | internal/service/acmeclient/account_helpers.go:75-83 | the index of the first row with the requested UUID, or none when no row has it |
| AcmeAccount.AccountResponseToModel | internal/service/acmeclient/account_helpers.go:15-32 | Id is null and CA is a selected key in map order; the other fields are read as texts |
| AcmeAccount.AccountSearchRowToModel | internal/service/acmeclient/account_helpers.go:34-49 | Key, StatusCode and StatusLastUpdate are null; Id is the row's UUID; the texts are known |
| AcmeAccount.FetchAccountModel | internal/service/acmeclient/account_helpers.go:51-86 | success fills the Id; a not-found or non-array-decode error passes through; otherwise the search yields the first matching row, its wrapped error, or NotFound; every success has the requested id |
| AcmeAccount.ToAccountCreateRequest | internal/service/acmeclient/account_helpers.go:99-110 | each field is the model's value sent as a string |
| AcmeAccount.ToAccountEditRequest | internal/service/acmeclient/account_helpers.go:112-123 | each field is the model's value sent as a string |
| AcmeAccount.CreateAndEditAgree | internal/service/acmeclient/account_helpers.go:99-123 | the create and edit requests carry the same eight values |
| AcmeAccount.SearchRowWriteBack | internal/service/acmeclient/account_helpers.go:34-49 | a model read from a search row sends the row's texts back unchanged (also lines 112-123 of the same file) |
| AcmeCertificate.Display | internal/service/acmeclient/certificate_helpers.go:141-144 | the option's Value, or its key when Value is "" |
| AcmeCertificate.DisplaysPermutation | internal/service/acmeclient/certificate_helpers.go:135-146 | keys met in another order give a permutation of the displays |
| AcmeCertificate.SelectedOptionValues | internal/service/acmeclient/certificate_helpers.go:130-154 | an empty map gives []; otherwise the sorted displays of exactly the selected options, whatever the map order |
| AcmeCertificate.SelectionOrderFree | internal/service/acmeclient/certificate_helpers.go:135-151 | sorting the displays of the selected keys, met in any order, gives the same list |
| AcmeCertificate.SelectedValuesSorted | internal/service/acmeclient/certificate_helpers.go:149-151 | the values are sorted ascending, with one per selected option |
| AcmeCertificate.SelectedValuesMembers | internal/service/acmeclient/certificate_helpers.go:135-146 | a string is among the values exactly when it is the display of a selected option |
| AcmeCertificate.CertificateResponseToModel | internal/service/acmeclient/certificate_helpers.go:17-41 | the option fields are read through selectedOptionValues and selectedOptionKeys; the rest are texts |
| AcmeCertificate.CertificateSearchRowToModel | internal/service/acmeclient/certificate_helpers.go:43-54 | Id is the UUID and AltNames is the comma split of the row's text; the fields the row lacks are null |
| AcmeCertificate.EmptyAltNamesNotNull | internal/service/acmeclient/certificate_helpers.go:49 | an empty AltNames text yields the non-null set holding one empty name |
| AcmeCertificate.ToCertificatePayload | internal/service/acmeclient/certificate_helpers.go:97-112 | AltNames and RestartActions are comma-joined from their sets; RenewInterval is its number's text |
| AcmeCertificate.AltNamesRoundTrip | internal/service/acmeclient/certificate_helpers.go:49 | the alternative names sent come back from a search row as the same multiset, when none contains "," (also line 101 of the same file) |
| AcmeCertificate.FetchCertificateModel | internal/service/acmeclient/certificate_helpers.go:56-91 | NotFound and other non-array-decode errors pass through; the search runs only on an array-decode error and yields the first matching row or NotFound |
| AcmeChallenge.CollectChallengeParameters | internal/service/acmeclient/challenge_helpers.go:188-247 | a failed re-decode gives an empty map; otherwise exactly the keys outside knownKeys whose value is a non-empty string, with those values |
| AcmeChallenge.StringMapToTypes | internal/service/acmeclient/challenge_helpers.go:174-186 | an empty map gives a null map; otherwise the same keys with the same values, all known |
| AcmeChallenge.StringMapToTypesMap | internal/service/acmeclient/challenge_helpers.go:174-186 | the entry-by-entry loop builds exactly that map |
| AcmeChallenge.ValidationPayload | internal/service/acmeclient/challenge_helpers.go:103-130 | the base payload uses only the JSON names of typed fields |
| AcmeChallenge.OverlayParameters | internal/service/acmeclient/challenge_helpers.go:132-139 | null, unknown or unreadable parameters add nothing; otherwise they are the map's entries |
| AcmeChallenge.Overlay | internal/service/acmeclient/challenge_helpers.go:134-138 | each parameter is written over the payload; payload keys without a parameter keep their values |
| AcmeChallenge.ToValidation | internal/service/acmeclient/challenge_helpers.go:102-155 | the payload's keys are the base keys plus the parameters; parameters win on a collision |
| AcmeChallenge.OverlayRoundTrip | internal/service/acmeclient/challenge_helpers.go:132-139 | parameters laid over a payload of typed fields are exactly what collectChallengeParameters reads back (also lines 231-244 of the same file) |
| AcmeChallenge.ParametersRoundTrip | internal/service/acmeclient/challenge_helpers.go:102-155 | the parameters toValidation sends are the ones read back, when none is a typed field's name or empty (also lines 188-247 of the same file) |
| AcmeChallengeResource.PlanMap | internal/service/acmeclient/challenge_resource.go:212-219 | a null or unknown plan map gives up; otherwise ElementsAs decides |
| AcmeChallengeResource.StateMap | internal/service/acmeclient/challenge_resource.go:221-230 | a null, unknown or unreadable state map counts as empty |
| AcmeChallengeResource.Filled | internal/service/acmeclient/challenge_resource.go:233-238 | the filled map has the keys of both maps |
| AcmeChallengeResource.FillFromPlan | internal/service/acmeclient/challenge_resource.go:232-238 | the loop fills exactly the missing or empty keys from the plan, and sets `changed` exactly when some key needed filling |
| AcmeChallengeResource.VisitStep | internal/service/acmeclient/challenge_resource.go:233-238 | visiting one more plan key fills it exactly when its state entry is missing or empty, and leaves every other entry as it was |
| AcmeChallengeResource.MergeChallengeParameters | internal/service/acmeclient/challenge_resource.go:207-243 | a nil plan changes nothing; otherwise only the state's Parameters change, to the merged map |
| AcmeChallengeResource.NoPlanNoChange | internal/service/acmeclient/challenge_resource.go:213-215 | a null or unknown plan map leaves the parameters as they are |
| AcmeChallengeResource.NeverOverwrites | internal/service/acmeclient/challenge_resource.go:233-238 | a known, non-empty state value is never overwritten |
| AcmeChallengeResource.FillsFromPlan | internal/service/acmeclient/challenge_resource.go:233-238 | a plan key whose state entry is missing or "" takes the plan value |
| AcmeChallengeResource.KeepsOtherKeys | internal/service/acmeclient/challenge_resource.go:221-241 | a readable state entry the plan does not mention is kept |
| AcmeChallengeResource.ChangesOnlyWhenFilled | internal/service/acmeclient/challenge_resource.go:232 | the parameters change only when some key was filled (also lines 240-242 of the same file) |
| AcmeChallengeResource.UnreadableStateReplaced | internal/service/acmeclient/challenge_resource.go:223-225 | an unreadable state map is dropped, and the plan's entries replace it |
| AcmeChallengeResource.FilledIdempotent | internal/service/acmeclient/challenge_resource.go:233-238 | filling twice from the same plan fills nothing new |
| AcmeChallengeResource.MergeIdempotent | internal/service/acmeclient/challenge_resource.go:233-242 | merging twice with the same plan equals merging once |
| AcmeAutomation.CopiedIfEmpty | internal/service/acmeclient/automation_helpers.go:197-206 | a known non-empty target is kept; a null, unknown or "" source changes nothing; otherwise the target becomes the source |
| AcmeAutomation.CopyStringIfEmpty | internal/service/acmeclient/automation_helpers.go:193-207 | a nil target is left alone; otherwise the target becomes CopiedIfEmpty of its old value |
| AcmeAutomation.CopiedIfEmptyIdempotent | internal/service/acmeclient/automation_helpers.go:193-207 | copying twice from the same source changes nothing more |
| AcmeAutomation.MergeAutomationSensitiveFields | internal/service/acmeclient/automation_helpers.go:178-191 | a nil prior changes nothing; otherwise each of the eight secrets is carried over when empty |
| AcmeAutomation.MergeKeepsPublicFields | internal/service/acmeclient/automation_helpers.go:183-190 | every field other than the eight secrets is untouched |
| AcmeAutomation.MergeCarriesSecret | internal/service/acmeclient/automation_helpers.go:183 | a non-empty secret is kept, and an empty one takes the prior's non-empty secret (also lines 197-206 of the same file) |
| AcmeAutomation.MergeIdempotent | internal/service/acmeclient/automation_helpers.go:183-207 | merging twice from the same prior equals merging once |
| AcmeAutomation.AutomationSearchRowToModel | internal/service/acmeclient/automation_helpers.go:103-110 | Id is the row's UUID; only Enabled, Name, Description and Type are set, every other field is null |
| AcmeAutomation.FetchAutomationModel | internal/service/acmeclient/automation_helpers.go:78-115 | success fills an empty Id; a not-found or non-array-decode error passes through; otherwise the first matching row, the wrapped search error, or NotFound |
| Gateway.OptionalStringValue | internal/service/gateway/gateway_helpers.go:122-127 | "" gives null, any other string a known string |
| Gateway.OptionalStringValueRoundTrip | internal/service/gateway/gateway_helpers.go:99-104 | stringValue undoes optionalStringValue; the reverse turns "" and unknown into null (also lines 122-127 of the same file) |
| Gateway.ConvertGatewaySchemaToRequest | internal/service/gateway/gateway_helpers.go:12-43 | a nil model gives the zero request; otherwise each field is its tri-state conversion |
| Gateway.ReadWith | internal/service/gateway/gateway_helpers.go:52-78 | Id, Name, Interface and IpProtocol are always known, even when empty; Gateway and Monitor are null when empty |
| Gateway.GatewayResponseToModel | internal/service/gateway/gateway_helpers.go:45-81 | a nil response gives a nil model; otherwise Interface and IpProtocol are keys selectedOptionKey may pick |
| Gateway.Stored | internal/service/gateway/gateway_helpers.go:17-42 | the response for a stored request has every string field as sent |
| Gateway.GatewayReadBack | internal/service/gateway/gateway_helpers.go:12-81 | reading back a stored request gives the planned values: bools as their value, numbers unchanged with unknown as null, empty texts as null, and the sole selected interface and protocol |
| GatewayActionResult.Line | internal/service/gateway/action_result.go:28-33 | one line per key, with an empty message shown as "unspecified error" |
| GatewayActionResult.SortedKeys | internal/service/gateway/action_result.go:22-26 | the keys collected in map order and sorted are the ascending listing of the map's keys |
| GatewayActionResult.AppendLines | internal/service/gateway/action_result.go:28-34 | the loop appends one line per key, in the order given |
| GatewayActionResult.FormatActionResultFailure | internal/service/gateway/action_result.go:11-38 | the builder's text is the failure text: header, then the section title and sorted key lines when there are validations |
| GatewayActionResult.NilResultMessage | internal/service/gateway/action_result.go:12-14 | a nil result gives exactly the no-payload message |
| GatewayActionResult.HeaderFirst | internal/service/gateway/action_result.go:17-20 | the text starts with the header; with no validations it is only the header, with some the section title follows |
| GatewayActionResult.LinesAt | internal/service/gateway/action_result.go:28-34 | the line for each key follows exactly the lines of the keys before it |
| GatewayActionResult.ValidationLinesSorted | internal/service/gateway/action_result.go:22-34 | the lines are for each key once, in ascending order: the i-th smallest key's line follows the smaller keys' lines |
| GatewayActionResult.EmptyMessageUnspecified | internal/service/gateway/action_result.go:29-32 | an empty message is rendered as "unspecified error" |
| CronSchema.ConvertCronSchemaToStruct | internal/service/cron/cron_schema.go:161-175 | never fails; Id and the strings are their ValueString, Enabled is encoded by BoolToString, Origin is never set |
| CronSchema.ConvertCronStructToSchema | internal/service/cron/cron_schema.go:177-192 | never fails; Id is the UUID, Enabled decoded by StringToBool, every field known |
| CronSchema.StructRoundTrip | internal/service/cron/cron_schema.go:161-192 | struct to schema and back keeps UUID and every string field; Origin is lost and Enabled is re-encoded |
| CronSchema.SchemaRoundTrip | internal/service/cron/cron_schema.go:161-192 | with a faithful bool codec, schema to struct and back gives any fully known model unchanged |
| CronDataSource.ItemWith | internal/service/cron/cron_data_source.go:89-100 | the copied fields come from the job and the UUID is empty |
| CronDataSource.CronItemFromGet | internal/service/cron/cron_data_source.go:88-110 | the fields are copied, the UUID is left empty, and Command is the first selected key met, or "" when none is selected |
| FirmwarePlugin.IsInstalled | internal/service/firmware/plugin_data_source.go:80-95 | an error is reported as text with false; otherwise the answer of the first entry with the name |
| FirmwarePlugin.UnlistedNotInstalled | internal/service/firmware/plugin_data_source.go:86-94 | a package no entry names is not installed |
| FirmwarePlugin.FirstEntryDecides | internal/service/firmware/plugin_data_source.go:87-92 | the first entry with the name decides: installed exactly when its Installed is "1" |
| FirmwarePlugin.LaterEntriesIgnored | internal/service/firmware/plugin_data_source.go:90 | entries after a named one are ignored |

## Left out

- The Create, Read, Update, Delete, Configure and ImportState bodies of every resource and data source are left out. They only pass values between the OPNsense client and the Terraform framework.
- The schema declarations are left out: they are declarative.
- The firmware install poll loop is left out. It sleeps and calls the API.
- JSON and `mapstructure` encoding and decoding are left out. Payloads are string maps. The re-decoded validation object is a map of JSON values, and a JSON string is the only kind that matters.
- The bodies of the `internal/tools` converters and of `errs.NewNotFoundError` are not part of this model. Their properties are hypotheses of the lemmas that use them.
- `automationResponseToModel` and `toAction` are left out. These are record builds over the 55 automation fields. FetchAutomationModel takes the already-built model as its input.
- `challengeResponseToModel`, `challengeSearchRowToModel` and `fetchChallengeModel` are left out. Only the challenge helpers that carry parameters are modelled.
- `locationResponseToModel`, `fetchLocationModel`, `fetchHTTPServerModel`, `fetchUpstreamModel` and `fetchGatewayModel` are left out. Each one calls the client and then a modelled reader.
- `stringValueOrEmpty` is left out. It is an identity on strings.
- `sort.Strings` sorts a slice in place. Here it is a pure insertion sort on sequences, with sortedness, permutation and uniqueness proved.
- Go distinguishes a nil slice from an empty one. Both are `[]` here.
- The account request builders can take a nil model receiver. That case is not modelled.
- The API client structs are limited to the fields the helpers read or write.
- ValidationPayload: states only that its keys are JSON names of typed fields, not which ones.
- AcmeChallenge.ToValidation: the base payload gets fields the challenge resource model in acmeclient/challenge_schema.go lacks. The model follows the helpers.
- AcmeAutomation.MergeCarriesSecret: states the carry-over for the SFTP host key only. The seven other secrets go through the same CopiedIfEmpty, which MergedSecrets states for each of them.

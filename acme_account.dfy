/** The ACME account helpers of internal/service/acmeclient/account_helpers.go, with the
    read fallback every ACME fetcher shares: when the get call fails to decode an array,
    the fetcher searches all rows and takes the one whose UUID is the requested id. */
module AcmeAccount {
  import opened Framework
  import opened Text
  import opened FieldOptions
  import opened TriState
  import opened AcmeSettings

  /** `acmeclientAccountResourceModel`. */
  datatype AccountModel = AccountModel(
    id: Tri<string>,
    enabled: Tri<bool>,
    name: Tri<string>,
    description: Tri<string>,
    email: Tri<string>,
    ca: Tri<string>,
    customCa: Tri<string>,
    eabKid: Tri<string>,
    eabHmac: Tri<string>,
    key: Tri<string>,
    statusCode: Tri<string>,
    statusLastUpdate: Tri<string>)

  /** The `Account` object of an `acmeclient.AccountGetResponse`. */
  datatype AccountResponse = AccountResponse(
    enabled: string,
    name: string,
    description: string,
    email: string,
    ca: Options,
    customCa: string,
    eabKid: string,
    eabHmac: string,
    key: string,
    statusCode: string,
    statusLastUpdate: string)

  /** An `acmeclient.Account` row of the search response. */
  datatype AccountRow = AccountRow(
    uuid: string,
    enabled: string,
    name: string,
    description: string,
    email: string,
    ca: string,
    customCa: string,
    eabKid: string,
    eabHmac: string)

  /** `acmeclient.AccountCreateRequest`. */
  datatype AccountCreateRequest = AccountCreateRequest(
    enabled: string, name: string, description: string, email: string,
    ca: string, customCa: string, eabKid: string, eabHmac: string)

  /** `acmeclient.AccountEditRequest`. */
  datatype AccountEditRequest = AccountEditRequest(
    enabled: string, name: string, description: string, email: string,
    ca: string, customCa: string, eabKid: string, eabHmac: string)

  // ---------------------------------------------------------------------------
  // Helpers the other ACME fetchers share

  /** The text that marks the get call's array-decode failure. */
  const ArrayDecodeText := "cannot unmarshal array"

  /** `isAccountArrayDecodeError`: false for a nil error, else whether the text contains
      "cannot unmarshal array". */
  function IsAccountArrayDecodeError(err: Option<Error>): (r: bool)
    ensures err.None? ==> !r
    ensures err.Some? ==> (r <==> exists i: nat :: OccursAt(err.value.message, ArrayDecodeText, i))
  {
    if err.None? then false
    else (
      ContainsSpec(err.value.message, ArrayDecodeText);
      Contains(err.value.message, ArrayDecodeText))
  }

  /** `stringValueOrNull`: despite its name, always a known string, "" included. */
  function StringValueOrNull(s: string): (r: Tri<string>)
    ensures r.Known? && r.value == s
  {
    Known(s)
  }

  /** The id repair of every fetcher: a null or empty Id becomes the requested id. */
  function FillId(v: Tri<string>, id: string): (r: Tri<string>)
    ensures v.Null? || ValueString(v) == "" ==> r == Known(id)
    ensures !v.Null? && ValueString(v) != "" ==> r == v
  {
    if v.Null? || ValueString(v) == "" then Known(id) else v
  }

  /** The index of the first row whose UUID is `id`, as the fetchers' row scans find it. */
  function FirstMatch<R>(rows: seq<R>, uuid: R -> string, id: string): (r: Option<nat>)
    ensures r.Some? ==> r.value < |rows| && uuid(rows[r.value]) == id &&
                        forall j :: 0 <= j < r.value ==> uuid(rows[j]) != id
    ensures r.None? ==> forall j :: 0 <= j < |rows| ==> uuid(rows[j]) != id
    decreases |rows|
  {
    if |rows| == 0 then None
    else if uuid(rows[0]) == id then Some(0)
    else
      var rest := FirstMatch(rows[1..], uuid, id);
      if rest.None? then None else Some(rest.value + 1)
  }

  /** The fetchers' error classification for a failed get call, before any search:
      a not-found error and any error that is not an array-decode failure pass through. */
  predicate FallsBackToSearch(err: Error) {
    !err.notFound && IsAccountArrayDecodeError(Some(err))
  }

  // ---------------------------------------------------------------------------
  // Account conversions

  /** The models `accountResponseToModel` may build: Id null, CA the unordered option
      scan with "" made null, every other text known. */
  ghost predicate ReadFrom(t: Tools, r: AccountResponse, m: AccountModel) {
    m.id.Null? &&
    m.enabled == Known(t.stringToBool(r.enabled)) &&
    m.name == Known(r.name) && m.description == Known(r.description) &&
    m.email == Known(r.email) && FirstOptionOf(r.ca, m.ca) &&
    m.customCa == Known(r.customCa) && m.eabKid == Known(r.eabKid) &&
    m.eabHmac == Known(r.eabHmac) && m.key == Known(r.key) &&
    m.statusCode == Known(r.statusCode) && m.statusLastUpdate == Known(r.statusLastUpdate)
  }

  /** `accountResponseToModel`. */
  method AccountResponseToModel(t: Tools, r: AccountResponse) returns (m: AccountModel)
    ensures ReadFrom(t, r, m)
  {
    var ca := StringValueFromOptionMap(r.ca);
    m := AccountModel(
      id := Null,
      enabled := Known(t.stringToBool(r.enabled)),
      name := StringValueOrNull(r.name),
      description := StringValueOrNull(r.description),
      email := StringValueOrNull(r.email),
      ca := ca,
      customCa := StringValueOrNull(r.customCa),
      eabKid := StringValueOrNull(r.eabKid),
      eabHmac := StringValueOrNull(r.eabHmac),
      key := StringValueOrNull(r.key),
      statusCode := StringValueOrNull(r.statusCode),
      statusLastUpdate := StringValueOrNull(r.statusLastUpdate));
  }

  /** `accountSearchRowToModel`: a row carries no key or status, so those are null; every
      other text is known, even when empty. */
  function AccountSearchRowToModel(t: Tools, row: AccountRow): (m: AccountModel)
    ensures m.key.Null? && m.statusCode.Null? && m.statusLastUpdate.Null?
    ensures m.id == Known(row.uuid) && m.ca == Known(row.ca)
    ensures m.name.Known? && m.description.Known? && m.email.Known? &&
            m.customCa.Known? && m.eabKid.Known? && m.eabHmac.Known?
  {
    AccountModel(
      id := StringValueOrNull(row.uuid),
      enabled := Known(t.stringToBool(row.enabled)),
      name := StringValueOrNull(row.name),
      description := StringValueOrNull(row.description),
      email := StringValueOrNull(row.email),
      ca := StringValueOrNull(row.ca),
      customCa := StringValueOrNull(row.customCa),
      eabKid := StringValueOrNull(row.eabKid),
      eabHmac := StringValueOrNull(row.eabHmac),
      key := Null,
      statusCode := Null,
      statusLastUpdate := Null)
  }

  /** `fetchAccountModel`, given what `ACMEClientGetAccount` and `ACMEClientSearchAccount`
      return; the search result is only looked at on an array-decode failure. */
  method FetchAccountModel(t: Tools, id: string, got: Outcome<AccountResponse>,
                           search: Outcome<seq<AccountRow>>)
    returns (result: Outcome<AccountModel>)
    ensures got.Ok? ==> result.Ok? && ReadFrom(t, got.value, result.value.(id := Null))
    ensures got.Err? && !FallsBackToSearch(got.error) ==> result == Err(got.error)
    ensures got.Err? && FallsBackToSearch(got.error) && search.Err? ==>
              result == Err(Wrap("fallback search failed: ", search.error))
    ensures got.Err? && FallsBackToSearch(got.error) && search.Ok? ==>
              var i := FirstMatch(search.value, (row: AccountRow) => row.uuid, id);
              result == if i.None? then Err(NotFound(t))
                        else Ok(AccountSearchRowToModel(t, search.value[i.value]))
    ensures result.Ok? ==> result.value.id == Known(id)
  {
    if got.Ok? {
      var model := AccountResponseToModel(t, got.value);
      model := model.(id := FillId(model.id, id));
      return Ok(model);
    }
    var err := got.error;
    if err.notFound {
      return Err(err);
    }
    if !IsAccountArrayDecodeError(Some(err)) {
      return Err(err);
    }
    if search.Err? {
      return Err(Wrap("fallback search failed: ", search.error));
    }
    var rows := search.value;
    var uuid := (row: AccountRow) => row.uuid;
    var i := 0;
    while i < |rows|
      invariant 0 <= i <= |rows|
      invariant forall j :: 0 <= j < i ==> rows[j].uuid != id
    {
      if rows[i].uuid == id {
        var model := AccountSearchRowToModel(t, rows[i]);
        model := model.(id := FillId(model.id, id));
        return Ok(model);
      }
      i := i + 1;
    }
    return Err(NotFound(t));
  }

  /** `toAccountCreateRequest`. */
  function ToAccountCreateRequest(t: Tools, m: AccountModel): (r: AccountCreateRequest)
    ensures r.name == StringValue(m.name) && r.ca == StringValue(m.ca)
  {
    AccountCreateRequest(
      enabled := BoolToAPIString(t, m.enabled),
      name := StringValue(m.name),
      description := StringValue(m.description),
      email := StringValue(m.email),
      ca := StringValue(m.ca),
      customCa := StringValue(m.customCa),
      eabKid := StringValue(m.eabKid),
      eabHmac := StringValue(m.eabHmac))
  }

  /** `toAccountEditRequest`. */
  function ToAccountEditRequest(t: Tools, m: AccountModel): (r: AccountEditRequest)
    ensures r.name == StringValue(m.name) && r.ca == StringValue(m.ca)
  {
    AccountEditRequest(
      enabled := BoolToAPIString(t, m.enabled),
      name := StringValue(m.name),
      description := StringValue(m.description),
      email := StringValue(m.email),
      ca := StringValue(m.ca),
      customCa := StringValue(m.customCa),
      eabKid := StringValue(m.eabKid),
      eabHmac := StringValue(m.eabHmac))
  }

  /** The create and edit requests carry the same eight values. */
  lemma CreateAndEditAgree(t: Tools, m: AccountModel)
    ensures var c, e := ToAccountCreateRequest(t, m), ToAccountEditRequest(t, m);
      c.enabled == e.enabled && c.name == e.name && c.description == e.description &&
      c.email == e.email && c.ca == e.ca && c.customCa == e.customCa &&
      c.eabKid == e.eabKid && c.eabHmac == e.eabHmac
  {
  }

  /** A model read from a search row sends every text of the row back unchanged, because
      `stringValueOrNull` never yields null; Enabled comes back when it was a bool's encoding. */
  lemma SearchRowWriteBack(t: Tools, row: AccountRow)
    requires BoolCodec(t)
    ensures var e := ToAccountEditRequest(t, AccountSearchRowToModel(t, row));
      e.name == row.name && e.description == row.description && e.email == row.email &&
      e.ca == row.ca && e.customCa == row.customCa && e.eabKid == row.eabKid &&
      e.eabHmac == row.eabHmac
    ensures forall b: bool :: row.enabled == t.boolToString(b) ==>
      ToAccountEditRequest(t, AccountSearchRowToModel(t, row)).enabled == row.enabled
  {
    forall b: bool | row.enabled == t.boolToString(b)
      ensures ToAccountEditRequest(t, AccountSearchRowToModel(t, row)).enabled == row.enabled
    {
      assert t.stringToBool(t.boolToString(b)) == b;
    }
  }
}

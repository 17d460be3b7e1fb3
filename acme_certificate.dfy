/** The ACME certificate helpers of internal/service/acmeclient/certificate_helpers.go. Its
    `selectedOptionKeys` is FieldOptions.SelectedFieldOptionKeys, word for word. */
module AcmeCertificate {
  import opened Framework
  import opened Text
  import opened FieldOptions
  import opened TriState
  import opened AcmeSettings
  import opened AcmeAccount
  import opened AcmeChallenge

  /** `acmeclientCertificateResourceModel`. */
  datatype CertificateModel = CertificateModel(
    id: Tri<string>,
    enabled: Tri<bool>,
    name: Tri<string>,
    description: Tri<string>,
    altNames: TfSet,
    account: Tri<string>,
    validationMethod: Tri<string>,
    autoRenewal: Tri<bool>,
    renewInterval: Tri<int64>,
    keyLength: Tri<string>,
    ocsp: Tri<bool>,
    restartActions: TfSet,
    aliasMode: Tri<string>,
    domainAlias: Tri<string>,
    challengeAlias: Tri<string>,
    certificateRefId: Tri<string>,
    lastUpdate: Tri<string>,
    statusCode: Tri<string>,
    statusLastUpdate: Tri<string>)

  /** The `Certificate` object of an `acmeclient.CertificateGetResponse`. */
  datatype CertificateResponse = CertificateResponse(
    enabled: string,
    name: string,
    description: string,
    altNames: Options,
    account: Options,
    validationMethod: Options,
    autoRenewal: string,
    renewInterval: string,
    keyLength: Options,
    ocsp: string,
    restartActions: Options,
    aliasMode: Options,
    domainAlias: string,
    challengeAlias: string,
    certRefId: string,
    lastUpdate: string,
    statusCode: string,
    statusLastUpdate: string)

  /** An `acmeclient.CertificateSearchItem` row; AltNames is one comma-separated string. */
  datatype CertificateSearchItem = CertificateSearchItem(
    uuid: string,
    enabled: string,
    name: string,
    description: string,
    altNames: string,
    statusCode: string,
    statusLastUpdate: string,
    lastUpdate: string)

  /** The model a search row does not fill: every field the zero value, i.e. null. */
  const NullCertificate := CertificateModel(
    Null, Null, Null, Null, Null, Null, Null, Null, Null, Null,
    Null, Null, Null, Null, Null, Null, Null, Null, Null)

  // ---------------------------------------------------------------------------
  // selectedOptionValues

  /** What `selectedOptionValues` shows for a key of the map: the option's Value, or the
      key itself when the Value is "". */
  function Display(options: Options, k: string): (r: string)
    ensures k in options && options[k].value != "" ==> r == options[k].value
    ensures k in options && options[k].value == "" ==> r == k
  {
    if k in options && options[k].value != "" then options[k].value else k
  }

  /** The displays of a sequence of keys, in the same order. */
  function Displays(options: Options, keys: seq<string>): (r: seq<string>)
    ensures |r| == |keys|
  {
    if |keys| == 0 then [] else [Display(options, keys[0])] + Displays(options, keys[1..])
  }

  /** Each display sits at its key's position. */
  lemma {:induction false} DisplaysAt(options: Options, keys: seq<string>, i: nat)
    requires i < |keys|
    ensures Displays(options, keys)[i] == Display(options, keys[i])
  {
    if i > 0 {
      DisplaysAt(options, keys[1..], i - 1);
    }
  }

  /** Displays distributes over concatenation. */
  lemma {:induction false} DisplaysAppend(options: Options, a: seq<string>, b: seq<string>)
    ensures Displays(options, a + b) == Displays(options, a) + Displays(options, b)
  {
    if |a| == 0 {
      assert a + b == b;
    } else {
      assert (a + b)[0] == a[0];
      assert (a + b)[1..] == a[1..] + b;
      DisplaysAppend(options, a[1..], b);
    }
  }

  /** Taking the key at `i` out of a sequence takes its display out of the displays. */
  lemma DisplaysRemove(options: Options, b: seq<string>, i: nat)
    requires i < |b|
    ensures multiset(Displays(options, b)) ==
            multiset(Displays(options, b[..i] + b[i + 1..])) + multiset{Display(options, b[i])}
  {
    assert b == b[..i] + [b[i]] + b[i + 1..];
    DisplaysAppend(options, b[..i], [b[i]]);
    DisplaysAppend(options, b[..i] + [b[i]], b[i + 1..]);
    DisplaysAppend(options, b[..i], b[i + 1..]);
  }

  /** Keys that are a permutation of each other have displays that are too. */
  lemma {:induction false} DisplaysPermutation(options: Options, a: seq<string>, b: seq<string>)
    requires multiset(a) == multiset(b)
    ensures multiset(Displays(options, a)) == multiset(Displays(options, b))
    decreases |a|
  {
    if |a| == 0 {
      assert |b| == |multiset(b)| == 0;
    } else {
      var i := IndexOf(b, a[0]);
      MultisetTail(a);
      MultisetRemoveAt(b, i);
      DisplaysPermutation(options, a[1..], b[..i] + b[i + 1..]);
      DisplaysPermutationStep(options, a, b, i);
    }
  }

  /** A position of an element of `b`. */
  lemma IndexOf(b: seq<string>, x: string) returns (i: nat)
    requires x in multiset(b)
    ensures i < |b| && b[i] == x
  {
    assert x in b;
    i :| 0 <= i < |b| && b[i] == x;
  }

  /** Matching the head of `a` with position `i` of `b` extends a permutation of the rests. */
  lemma DisplaysPermutationStep(options: Options, a: seq<string>, b: seq<string>, i: nat)
    requires 0 < |a| && i < |b| && b[i] == a[0]
    requires multiset(Displays(options, a[1..])) == multiset(Displays(options, b[..i] + b[i + 1..]))
    ensures multiset(Displays(options, a)) == multiset(Displays(options, b))
  {
    assert Displays(options, a) == [Display(options, a[0])] + Displays(options, a[1..]);
    DisplaysRemove(options, b, i);
  }

  /** Taking the element at `i` out of a sequence takes one copy of it out of the multiset. */
  lemma MultisetRemoveAt(b: seq<string>, i: nat)
    requires i < |b|
    ensures multiset(b[..i] + b[i + 1..]) == multiset(b) - multiset{b[i]}
  {
    assert b == b[..i] + [b[i]] + b[i + 1..];
  }

  /** The displays of the selected keys, sorted ascending. */
  function SelectedValues(options: Options): seq<string> {
    SortStrings(Displays(options, SortedSelectedKeys(options)))
  }

  /** `selectedOptionValues`: the selected options' displays gathered in map order, then
      sorted; an empty map gives an empty slice at once. */
  method SelectedOptionValues(options: Options) returns (values: seq<string>)
    ensures |options| == 0 ==> values == []
    ensures values == SelectedValues(options)
  {
    if |options| == 0 {
      SortedElemsSpec(SelectedKeys(options));
      return [];
    }
    var entries: seq<string> := [];
    ghost var seen: seq<string> := [];
    var rest := options.Keys;
    while rest != {}
      invariant rest <= options.Keys
      invariant NoDup(seen) && Elems(seen) == SelectedOutside(options, rest)
      invariant entries == Displays(options, seen)
      decreases |rest|
    {
      var key :| key in rest;
      SelectedOutsideStep(options, rest, key);
      if options[key].selected == 1 {
        var value := options[key].value;
        if value == "" {
          value := key;
        }
        assert key !in Elems(seen);
        SeenStep(options, seen, key);
        entries := entries + [value];
        seen := seen + [key];
      }
      rest := rest - {key};
    }
    assert SelectedOutside(options, {}) == SelectedKeys(options);
    values := SortStrings(entries);
    SelectionOrderFree(options, seen);
  }

  /** Meeting one more, new, key keeps the seen keys distinct and adds its display. */
  lemma SeenStep(options: Options, seen: seq<string>, key: string)
    requires NoDup(seen) && key !in Elems(seen)
    ensures NoDup(seen + [key]) && Elems(seen + [key]) == Elems(seen) + {key}
    ensures Displays(options, seen + [key]) == Displays(options, seen) + [Display(options, key)]
  {
    NoDupSnoc(seen, key);
    DisplaysAppend(options, seen, [key]);
  }

  /** Sorting the displays of the selected keys, met in any order, gives SelectedValues. */
  lemma SelectionOrderFree(options: Options, seen: seq<string>)
    requires NoDup(seen) && Elems(seen) == SelectedKeys(options)
    ensures SortStrings(Displays(options, seen)) == SelectedValues(options)
  {
    SortedElemsSpec(SelectedKeys(options));
    NoDupSameElems(seen, SortedSelectedKeys(options));
    DisplaysPermutation(options, seen, SortedSelectedKeys(options));
    SortStringsPermutation(Displays(options, seen), Displays(options, SortedSelectedKeys(options)));
  }

  /** The selected values are sorted and there is one per selected option. */
  lemma SelectedValuesSorted(options: Options)
    ensures Sorted(SelectedValues(options))
    ensures |SelectedValues(options)| == |SelectedKeys(options)|
  {
    var ds := Displays(options, SortedSelectedKeys(options));
    SortStringsSpec(ds);
    SortedElemsSpec(SelectedKeys(options));
    assert |SelectedValues(options)| == |multiset(SelectedValues(options))| == |multiset(ds)| == |ds|;
  }

  /** A string is among the selected values exactly when it is the display of a selected
      key: an option whose Value is empty shows its key, and unselected options show nothing. */
  lemma SelectedValuesMembers(options: Options, v: string)
    ensures v in SelectedValues(options) <==>
            exists k :: k in options && options[k].selected == 1 && Display(options, k) == v
  {
    var ds := Displays(options, SortedSelectedKeys(options));
    SortStringsSpec(ds);
    assert v in SelectedValues(options) <==> v in multiset(SelectedValues(options));
    if v in ds {
      DisplayedIsSelected(options, v);
    }
    if exists k :: k in options && options[k].selected == 1 && Display(options, k) == v {
      var k :| k in options && options[k].selected == 1 && Display(options, k) == v;
      SelectedIsDisplayed(options, k);
    }
  }

  /** Every display of the sorted selection is the display of a selected key. */
  lemma DisplayedIsSelected(options: Options, v: string)
    requires v in Displays(options, SortedSelectedKeys(options))
    ensures exists k :: k in options && options[k].selected == 1 && Display(options, k) == v
  {
    var keys := SortedSelectedKeys(options);
    var ds := Displays(options, keys);
    var i :| 0 <= i < |ds| && ds[i] == v;
    DisplaysAt(options, keys, i);
    SortedSelectedKeysMembers(options, keys[i]);
  }

  /** Every selected key's display is in the displays of the sorted selection. */
  lemma SelectedIsDisplayed(options: Options, k: string)
    requires k in options && options[k].selected == 1
    ensures Display(options, k) in Displays(options, SortedSelectedKeys(options))
  {
    var keys := SortedSelectedKeys(options);
    SortedSelectedKeysMembers(options, k);
    var i :| 0 <= i < |keys| && keys[i] == k;
    DisplaysAt(options, keys, i);
  }

  // ---------------------------------------------------------------------------
  // Models and payload

  /** The models `certificateResponseToModel` may build from a response. */
  ghost predicate ReadFrom(t: Tools, r: CertificateResponse, m: CertificateModel) {
    m.id.Null? &&
    m.enabled == Known(t.stringToBool(r.enabled)) &&
    m.name == Known(r.name) && m.description == Known(r.description) &&
    m.altNames == StringSliceToSet(t, SelectedValues(r.altNames)) &&
    FirstOptionOf(r.account, m.account) &&
    FirstOptionOf(r.validationMethod, m.validationMethod) &&
    m.autoRenewal == Known(t.stringToBool(r.autoRenewal)) &&
    m.renewInterval == Known(t.stringToInt64(r.renewInterval)) &&
    FirstOptionOf(r.keyLength, m.keyLength) &&
    m.ocsp == Known(t.stringToBool(r.ocsp)) &&
    m.restartActions == StringSliceToSet(t, SortedSelectedKeys(r.restartActions)) &&
    FirstOptionOf(r.aliasMode, m.aliasMode) &&
    m.domainAlias == Known(r.domainAlias) && m.challengeAlias == Known(r.challengeAlias) &&
    m.certificateRefId == Known(r.certRefId) && m.lastUpdate == Known(r.lastUpdate) &&
    m.statusCode == Known(r.statusCode) && m.statusLastUpdate == Known(r.statusLastUpdate)
  }

  /** `certificateResponseToModel`. */
  method CertificateResponseToModel(t: Tools, r: CertificateResponse) returns (m: CertificateModel)
    ensures ReadFrom(t, r, m)
  {
    var altNames := SelectedOptionValues(r.altNames);
    var account := StringValueFromOptionMap(r.account);
    var validationMethod := StringValueFromOptionMap(r.validationMethod);
    var keyLength := StringValueFromOptionMap(r.keyLength);
    var restartActions := SelectedFieldOptionKeys(r.restartActions);
    var aliasMode := StringValueFromOptionMap(r.aliasMode);
    m := CertificateModel(
      id := Null,
      enabled := Known(t.stringToBool(r.enabled)),
      name := StringValueOrNull(r.name),
      description := StringValueOrNull(r.description),
      altNames := StringSliceToSet(t, altNames),
      account := account,
      validationMethod := validationMethod,
      autoRenewal := Known(t.stringToBool(r.autoRenewal)),
      renewInterval := Known(t.stringToInt64(r.renewInterval)),
      keyLength := keyLength,
      ocsp := Known(t.stringToBool(r.ocsp)),
      restartActions := StringSliceToSet(t, restartActions),
      aliasMode := aliasMode,
      domainAlias := StringValueOrNull(r.domainAlias),
      challengeAlias := StringValueOrNull(r.challengeAlias),
      certificateRefId := StringValueOrNull(r.certRefId),
      lastUpdate := StringValueOrNull(r.lastUpdate),
      statusCode := StringValueOrNull(r.statusCode),
      statusLastUpdate := StringValueOrNull(r.statusLastUpdate));
  }

  /** `certificateSearchRowToModel`: AltNames is the comma split of the row's text, which is
      never empty, so the set is never null; the fields a row lacks stay null. */
  function CertificateSearchRowToModel(t: Tools, row: CertificateSearchItem): (m: CertificateModel)
    ensures m.id == Known(row.uuid)
    ensures m.altNames == t.stringSliceToSet(Split(row.altNames, ','))
    ensures m.account.Null? && m.restartActions.Null? && m.renewInterval.Null?
  {
    NullCertificate.(
      id := StringValueOrNull(row.uuid),
      enabled := Known(t.stringToBool(row.enabled)),
      name := StringValueOrNull(row.name),
      description := StringValueOrNull(row.description),
      altNames := StringSliceToSet(t, Split(row.altNames, ',')),
      statusCode := StringValueOrNull(row.statusCode),
      statusLastUpdate := StringValueOrNull(row.statusLastUpdate),
      lastUpdate := StringValueOrNull(row.lastUpdate))
  }

  /** An empty AltNames text reads back as the set holding one empty name, not as null. */
  lemma EmptyAltNamesNotNull(t: Tools, row: CertificateSearchItem)
    requires SetCodec(t) && row.altNames == ""
    ensures CertificateSearchRowToModel(t, row).altNames.Known?
    ensures multiset(CertificateSearchRowToModel(t, row).altNames.value) == multiset{""}
  {
    SplitEmpty(',');
  }

  /** The payload `toCertificate` decodes into an `acmeclient.Certificate`. AltNames and
      RestartActions are comma-joined in the order the sets give. */
  function ToCertificatePayload(t: Tools, m: CertificateModel): (data: map<string, string>)
    ensures "altNames" in data && data["altNames"] == JoinStringSet(t, m.altNames, ',')
    ensures "restartActions" in data && data["restartActions"] == JoinStringSet(t, m.restartActions, ',')
    ensures "renewInterval" in data && data["renewInterval"] == Int64ToAPIString(t, m.renewInterval)
  {
    map[
      "enabled" := BoolToAPIString(t, m.enabled),
      "name" := StringValue(m.name),
      "description" := StringValue(m.description),
      "altNames" := JoinStringSet(t, m.altNames, ','),
      "account" := StringValue(m.account),
      "validationMethod" := StringValue(m.validationMethod),
      "autoRenewal" := BoolToAPIString(t, m.autoRenewal),
      "renewInterval" := Int64ToAPIString(t, m.renewInterval),
      "keyLength" := StringValue(m.keyLength),
      "ocsp" := BoolToAPIString(t, m.ocsp),
      "restartActions" := JoinStringSet(t, m.restartActions, ','),
      "aliasmode" := StringValue(m.aliasMode),
      "domainalias" := StringValue(m.domainAlias),
      "challengealias" := StringValue(m.challengeAlias)]
  }

  /** The alternative names sent in the payload come back, in some order, from a search
      row that carries that text, when no name contains a comma. */
  lemma AltNamesRoundTrip(t: Tools, m: CertificateModel, row: CertificateSearchItem)
    requires SetCodec(t)
    requires m.altNames.Known? && |m.altNames.value| > 0
    requires forall i :: 0 <= i < |m.altNames.value| ==> ',' !in m.altNames.value[i]
    requires row.altNames == ToCertificatePayload(t, m)["altNames"]
    ensures CertificateSearchRowToModel(t, row).altNames.Known?
    ensures multiset(CertificateSearchRowToModel(t, row).altNames.value) == multiset(m.altNames.value)
  {
    JoinStringSetSplit(t, m.altNames.value, ',');
  }

  /** `fetchCertificateModel`, given what `ACMEClientGetCert` and `ACMEClientSearchCert`
      return; the search result is only looked at on an array-decode failure. */
  method FetchCertificateModel(t: Tools, id: string, got: Outcome<CertificateResponse>,
                               search: Outcome<seq<CertificateSearchItem>>)
    returns (result: Outcome<CertificateModel>)
    ensures got.Ok? ==> result.Ok? && ReadFrom(t, got.value, result.value.(id := Null))
    ensures got.Err? && !FallsBackToSearch(got.error) ==> result == Err(got.error)
    ensures got.Err? && FallsBackToSearch(got.error) && search.Err? ==>
              result == Err(Wrap("fallback search failed: ", search.error))
    ensures got.Err? && FallsBackToSearch(got.error) && search.Ok? ==>
              var i := FirstMatch(search.value, (row: CertificateSearchItem) => row.uuid, id);
              result == if i.None? then Err(NotFound(t))
                        else Ok(CertificateSearchRowToModel(t, search.value[i.value]))
    ensures result.Ok? ==> result.value.id == Known(id)
  {
    if got.Ok? {
      var model := CertificateResponseToModel(t, got.value);
      model := model.(id := FillId(model.id, id));
      return Ok(model);
    }
    var err := got.error;
    if err.notFound {
      return Err(err);
    }
    if !IsAccountArrayDecodeError(Some(err)) {
      return Err(err);
    }
    if search.Err? {
      return Err(Wrap("fallback search failed: ", search.error));
    }
    var rows := search.value;
    var i := 0;
    while i < |rows|
      invariant 0 <= i <= |rows|
      invariant forall j :: 0 <= j < i ==> rows[j].uuid != id
    {
      if rows[i].uuid == id {
        var model := CertificateSearchRowToModel(t, rows[i]);
        model := model.(id := FillId(model.id, id));
        return Ok(model);
      }
      i := i + 1;
    }
    return Err(NotFound(t));
  }
}

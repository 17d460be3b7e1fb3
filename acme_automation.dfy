/** The ACME automation helpers of internal/service/acmeclient/automation_helpers.go: the
    carry-over of write-only secrets the API never returns, and the read fallback. */
module AcmeAutomation {
  import opened Framework
  import opened AcmeAccount

  /** `acmeclientAutomationResourceModel`. */
  datatype AutomationModel = AutomationModel(
    id: Tri<string>,
    enabled: Tri<bool>,
    name: Tri<string>,
    description: Tri<string>,
    type_: Tri<string>,
    sftpHost: Tri<string>,
    sftpPort: Tri<string>,
    sftpHostKey: Tri<string>,
    sftpUser: Tri<string>,
    sftpIdentityType: Tri<string>,
    sftpRemotePath: Tri<string>,
    sftpChmod: Tri<string>,
    sftpChmodKey: Tri<string>,
    sftpChgrp: Tri<string>,
    sftpFilenameCert: Tri<string>,
    sftpFilenameKey: Tri<string>,
    sftpFilenameCa: Tri<string>,
    sftpFilenameFullchain: Tri<string>,
    remoteSshHost: Tri<string>,
    remoteSshPort: Tri<string>,
    remoteSshKey: Tri<string>,
    remoteSshUser: Tri<string>,
    remoteSshIdentityType: Tri<string>,
    remoteSshCommand: Tri<string>,
    configdGenericCommand: Tri<string>,
    synologyDsmHostname: Tri<string>,
    synologyDsmPort: Tri<string>,
    synologyDsmScheme: Tri<string>,
    synologyDsmUsername: Tri<string>,
    synologyDsmPassword: Tri<string>,
    synologyDsmDeviceId: Tri<string>,
    synologyDsmDeviceName: Tri<string>,
    synologyDsmOtpCode: Tri<string>,
    synologyDsmCreate: Tri<bool>,
    fritzboxUrl: Tri<string>,
    fritzboxUsername: Tri<string>,
    fritzboxPassword: Tri<string>,
    panosUsername: Tri<string>,
    panosPassword: Tri<string>,
    panosHost: Tri<string>,
    proxmoxVeUser: Tri<string>,
    proxmoxVeServer: Tri<string>,
    proxmoxVePort: Tri<string>,
    proxmoxVeNodeName: Tri<string>,
    proxmoxVeRealm: Tri<string>,
    proxmoxVeTokenId: Tri<string>,
    proxmoxVeTokenKey: Tri<string>,
    truenasApiKey: Tri<string>,
    truenasHostname: Tri<string>,
    truenasScheme: Tri<string>,
    unifiKeystore: Tri<string>,
    vaultUrl: Tri<string>,
    vaultPrefix: Tri<string>,
    vaultToken: Tri<string>,
    vaultKvv2: Tri<bool>)

  /** The zero model: every field null. */
  const NullAutomation := AutomationModel(
    Null, Null, Null, Null, Null, Null, Null, Null, Null, Null, Null, Null, Null, Null, Null, Null, Null, Null, Null, Null, Null, Null, Null, Null, Null, Null, Null, Null, Null, Null, Null, Null, Null, Null, Null, Null, Null, Null, Null, Null, Null, Null, Null, Null, Null, Null, Null, Null, Null, Null, Null, Null, Null, Null, Null)

  /** An `acmeclient.Action` row of the automation search response. */
  datatype AutomationRow = AutomationRow(
    uuid: string, enabled: string, name: string, description: string, type_: string)

  // ---------------------------------------------------------------------------
  // Secret carry-over

  /** The value `copyStringIfEmpty` leaves in its target. */
  function CopiedIfEmpty(target: Tri<string>, source: Tri<string>): (r: Tri<string>)
    ensures target.Known? && target.value != "" ==> r == target
    ensures !source.Known? || source.value == "" ==> r == target
    ensures !(target.Known? && target.value != "") && source.Known? && source.value != "" ==> r == source
  {
    if !target.Null? && !target.Unknown? && target.value != "" then target
    else if source.Null? || source.Unknown? then target
    else if source.value == "" then target
    else source
  }

  /** `copyStringIfEmpty`: a nil target is left alone; otherwise an empty target (null,
      unknown or "") takes a known, non-empty source. */
  method CopyStringIfEmpty(target: Ptr?<Tri<string>>, source: Tri<string>)
    modifies target
    ensures target != null ==> target.val == CopiedIfEmpty(old(target.val), source)
  {
    if target == null {
      return;
    }
    if !target.val.Null? && !target.val.Unknown? && target.val.value != "" {
      return;
    }
    if source.Null? || source.Unknown? {
      return;
    }
    if source.value == "" {
      return;
    }
    target.val := source;
  }

  /** Copying twice from the same source changes nothing more. */
  lemma CopiedIfEmptyIdempotent(target: Tri<string>, source: Tri<string>)
    ensures CopiedIfEmpty(CopiedIfEmpty(target, source), source) == CopiedIfEmpty(target, source)
  {
  }

  /** The state after `mergeAutomationSensitiveFields`: each of the eight secrets is
      carried over from the prior state when the new one is empty. */
  function MergedSecrets(state: AutomationModel, prior: AutomationModel): AutomationModel {
    state.(
      sftpHostKey := CopiedIfEmpty(state.sftpHostKey, prior.sftpHostKey),
      remoteSshKey := CopiedIfEmpty(state.remoteSshKey, prior.remoteSshKey),
      synologyDsmPassword := CopiedIfEmpty(state.synologyDsmPassword, prior.synologyDsmPassword),
      fritzboxPassword := CopiedIfEmpty(state.fritzboxPassword, prior.fritzboxPassword),
      panosPassword := CopiedIfEmpty(state.panosPassword, prior.panosPassword),
      proxmoxVeTokenKey := CopiedIfEmpty(state.proxmoxVeTokenKey, prior.proxmoxVeTokenKey),
      truenasApiKey := CopiedIfEmpty(state.truenasApiKey, prior.truenasApiKey),
      vaultToken := CopiedIfEmpty(state.vaultToken, prior.vaultToken))
  }

  /** A model with its eight secrets blanked: what the merge must leave alone. */
  function Public(m: AutomationModel): AutomationModel {
    m.(sftpHostKey := Null, remoteSshKey := Null, synologyDsmPassword := Null,
       fritzboxPassword := Null, panosPassword := Null, proxmoxVeTokenKey := Null,
       truenasApiKey := Null, vaultToken := Null)
  }

  /** `mergeAutomationSensitiveFields`: nothing happens when either model is nil. */
  method MergeAutomationSensitiveFields(state: Ptr?<AutomationModel>, prior: Ptr?<AutomationModel>)
    modifies state
    ensures state != null && prior == null ==> state.val == old(state.val)
    ensures state != null && prior != null ==> state.val == MergedSecrets(old(state.val), old(prior.val))
  {
    if state == null || prior == null {
      return;
    }
    var p := prior.val;
    var s := state.val;
    s := s.(sftpHostKey := CopiedIfEmpty(s.sftpHostKey, p.sftpHostKey));
    s := s.(remoteSshKey := CopiedIfEmpty(s.remoteSshKey, p.remoteSshKey));
    s := s.(synologyDsmPassword := CopiedIfEmpty(s.synologyDsmPassword, p.synologyDsmPassword));
    s := s.(fritzboxPassword := CopiedIfEmpty(s.fritzboxPassword, p.fritzboxPassword));
    s := s.(panosPassword := CopiedIfEmpty(s.panosPassword, p.panosPassword));
    s := s.(proxmoxVeTokenKey := CopiedIfEmpty(s.proxmoxVeTokenKey, p.proxmoxVeTokenKey));
    s := s.(truenasApiKey := CopiedIfEmpty(s.truenasApiKey, p.truenasApiKey));
    s := s.(vaultToken := CopiedIfEmpty(s.vaultToken, p.vaultToken));
    state.val := s;
  }

  /** Only the eight secrets can change: every other field keeps its value. */
  lemma MergeKeepsPublicFields(state: AutomationModel, prior: AutomationModel)
    ensures Public(MergedSecrets(state, prior)) == Public(state)
  {
  }

  /** A known, non-empty secret of the new state is kept; an empty one takes the prior's
      known, non-empty secret (shown for the SFTP host key; the other seven are alike). */
  lemma MergeCarriesSecret(state: AutomationModel, prior: AutomationModel)
    ensures state.sftpHostKey.Known? && state.sftpHostKey.value != "" ==>
              MergedSecrets(state, prior).sftpHostKey == state.sftpHostKey
    ensures !(state.sftpHostKey.Known? && state.sftpHostKey.value != "") &&
            prior.sftpHostKey.Known? && prior.sftpHostKey.value != "" ==>
              MergedSecrets(state, prior).sftpHostKey == prior.sftpHostKey
  {
  }

  /** Merging twice from the same prior state gives the same model as merging once. */
  lemma MergeIdempotent(state: AutomationModel, prior: AutomationModel)
    ensures MergedSecrets(MergedSecrets(state, prior), prior) == MergedSecrets(state, prior)
  {
    CopiedIfEmptyIdempotent(state.sftpHostKey, prior.sftpHostKey);
    CopiedIfEmptyIdempotent(state.remoteSshKey, prior.remoteSshKey);
    CopiedIfEmptyIdempotent(state.synologyDsmPassword, prior.synologyDsmPassword);
    CopiedIfEmptyIdempotent(state.fritzboxPassword, prior.fritzboxPassword);
    CopiedIfEmptyIdempotent(state.panosPassword, prior.panosPassword);
    CopiedIfEmptyIdempotent(state.proxmoxVeTokenKey, prior.proxmoxVeTokenKey);
    CopiedIfEmptyIdempotent(state.truenasApiKey, prior.truenasApiKey);
    CopiedIfEmptyIdempotent(state.vaultToken, prior.vaultToken);
  }

  // ---------------------------------------------------------------------------
  // Read fallback

  /** The model the fallback builds from a matching search row: Id, Enabled, Name,
      Description and Type, every other field null. */
  function AutomationSearchRowToModel(t: Tools, row: AutomationRow): (m: AutomationModel)
    ensures m.id == Known(row.uuid) && m.type_ == Known(row.type_)
    ensures Public(m).(id := Null, enabled := Null, name := Null, description := Null, type_ := Null) == NullAutomation
  {
    NullAutomation.(
      id := Known(row.uuid),
      enabled := Known(t.stringToBool(row.enabled)),
      name := StringValueOrNull(row.name),
      description := StringValueOrNull(row.description),
      type_ := StringValueOrNull(row.type_))
  }

  /** `fetchAutomationModel`, given the model `automationResponseToModel` made of the get
      response (or the get call's error) and what `ACMEClientSearchAutomation` returns. */
  method FetchAutomationModel(t: Tools, id: string, got: Outcome<AutomationModel>,
                              search: Outcome<seq<AutomationRow>>)
    returns (result: Outcome<AutomationModel>)
    ensures got.Ok? ==> result == Ok(got.value.(id := FillId(got.value.id, id)))
    ensures got.Err? && !FallsBackToSearch(got.error) ==> result == Err(got.error)
    ensures got.Err? && FallsBackToSearch(got.error) && search.Err? ==>
              result == Err(Wrap("fallback search failed: ", search.error))
    ensures got.Err? && FallsBackToSearch(got.error) && search.Ok? ==>
              var i := FirstMatch(search.value, (row: AutomationRow) => row.uuid, id);
              result == if i.None? then Err(NotFound(t))
                        else Ok(AutomationSearchRowToModel(t, search.value[i.value]))
    ensures got.Err? && result.Ok? ==> result.value.id == Known(id)
  {
    if got.Ok? {
      var model := got.value;
      if model.id.Null? || ValueString(model.id) == "" {
        model := model.(id := Known(id));
      }
      return Ok(model);
    }
    var err := got.error;
    if err.notFound {
      return Err(err);
    }
    if !IsAccountArrayDecodeError(Some(err)) {
      return Err(err);
    }
    if search.Err? {
      return Err(Wrap("fallback search failed: ", search.error));
    }
    var rows := search.value;
    var i := 0;
    while i < |rows|
      invariant 0 <= i <= |rows|
      invariant forall j :: 0 <= j < i ==> rows[j].uuid != id
    {
      if rows[i].uuid == id {
        return Ok(AutomationSearchRowToModel(t, rows[i]));
      }
      i := i + 1;
    }
    return Err(NotFound(t));
  }
}

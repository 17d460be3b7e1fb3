/** `mergeChallengeParameters` of internal/service/acmeclient/challenge_resource.go: after a
    read, parameters the plan set but the server did not echo (or echoed empty) are carried
    over from the plan into the state, so they do not show up as drift. */
module AcmeChallengeResource {
  import opened Framework
  import opened AcmeChallenge

  /** The plan's parameters as a Go map, or None when the merge gives up: the map is null
      or unknown, or an element is not a known string. */
  function PlanMap(plan: TfMap): (r: Option<map<string, string>>)
    ensures !plan.Known? ==> r.None?
    ensures plan.Known? ==> r == MapElements(plan.value)
  {
    if plan.Null? || plan.Unknown? then None else MapElements(plan.value)
  }

  /** The state's parameters as a Go map; a null, unknown or unreadable map counts as empty. */
  function StateMap(state: TfMap): (r: map<string, string>)
    ensures state.Known? && MapElements(state.value).Some? ==> r == MapElements(state.value).value
    ensures !(state.Known? && MapElements(state.value).Some?) ==> r == map[]
  {
    if !state.Null? && !state.Unknown? && MapElements(state.value).Some? then MapElements(state.value).value
    else map[]
  }

  /** A state entry is filled from the plan when it is missing or empty. */
  predicate NeedsFill(stateMap: map<string, string>, k: string) {
    k !in stateMap || stateMap[k] == ""
  }

  /** Whether some plan key needs filling, i.e. whether the loop sets `changed`. */
  predicate AnyFill(stateMap: map<string, string>, planMap: map<string, string>) {
    exists k :: k in planMap && NeedsFill(stateMap, k)
  }

  /** `stateMap` after the loop: each plan key that needs filling takes the plan's value. */
  function Filled(stateMap: map<string, string>, planMap: map<string, string>): (r: map<string, string>)
    ensures r.Keys == stateMap.Keys + planMap.Keys
  {
    map k | k in stateMap.Keys + planMap.Keys ::
      if k in planMap && NeedsFill(stateMap, k) then planMap[k] else stateMap[k]
  }

  /** The state's Parameters after the merge. */
  function MergedParameters(state: TfMap, plan: TfMap): TfMap {
    var planMap := PlanMap(plan);
    if planMap.None? then state
    else
      var stateMap := StateMap(state);
      if AnyFill(stateMap, planMap.value) then StringMapToTypes(Filled(stateMap, planMap.value)) else state
  }

  /** The loop of `mergeChallengeParameters`: each plan key whose state entry is missing
      or empty is written into the state map, and `changed` records whether any was. */
  method FillFromPlan(stateMap: map<string, string>, planMap: map<string, string>)
    returns (filled: map<string, string>, changed: bool)
    ensures filled == Filled(stateMap, planMap)
    ensures changed == AnyFill(stateMap, planMap)
  {
    filled := stateMap;
    changed := false;
    var rest := planMap.Keys;
    ghost var filledKey := "";
    while rest != {}
      invariant Visited(stateMap, planMap, rest, filled)
      invariant changed ==> filledKey in planMap && filledKey !in rest && NeedsFill(stateMap, filledKey)
      invariant !changed ==> forall k :: k in planMap && k !in rest ==> !NeedsFill(stateMap, k)
      decreases |rest|
    {
      var key :| key in rest;
      VisitStep(stateMap, planMap, rest, filled, key);
      if key !in filled || filled[key] == "" {
        filled := filled[key := planMap[key]];
        changed := true;
        filledKey := key;
      }
      rest := rest - {key};
    }
    VisitedAll(stateMap, planMap, filled);
  }

  /** `filled` is `stateMap` once the plan keys outside `rest` have been visited. */
  ghost predicate Visited(stateMap: map<string, string>, planMap: map<string, string>, rest: set<string>,
                          filled: map<string, string>) {
    rest <= planMap.Keys &&
    (forall k :: k in filled <==> k in stateMap || (k in planMap && k !in rest)) &&
    (forall k :: k in filled ==>
       filled[k] == if k in planMap && k !in rest && NeedsFill(stateMap, k) then planMap[k] else stateMap[k])
  }

  /** Visiting one more plan key fills it exactly when its entry so far is missing or empty,
      which is when its state entry is. */
  lemma VisitStep(stateMap: map<string, string>, planMap: map<string, string>, rest: set<string>,
                  filled: map<string, string>, key: string)
    requires Visited(stateMap, planMap, rest, filled)
    requires key in rest
    ensures NeedsFill(filled, key) == NeedsFill(stateMap, key)
    ensures Visited(stateMap, planMap, rest - {key},
                    if NeedsFill(stateMap, key) then filled[key := planMap[key]] else filled)
  {
  }

  /** Once every plan key is visited the map is Filled. */
  lemma VisitedAll(stateMap: map<string, string>, planMap: map<string, string>, filled: map<string, string>)
    requires Visited(stateMap, planMap, {}, filled)
    ensures filled == Filled(stateMap, planMap)
  {
  }

  /** `mergeChallengeParameters`: nothing happens when either model is nil; otherwise only
      the state's Parameters can change, to MergedParameters. */
  method MergeChallengeParameters(state: Ptr?<ChallengeModel>, plan: Ptr?<ChallengeModel>)
    modifies state
    ensures state != null && plan == null ==> state.val == old(state.val)
    ensures state != null && plan != null ==>
              state.val == old(state.val).(parameters := MergedParameters(old(state.val.parameters), old(plan.val.parameters)))
  {
    if state == null || plan == null {
      return;
    }
    var planParameters := plan.val.parameters;
    if planParameters.Null? || planParameters.Unknown? {
      return;
    }
    var planMap := MapElements(planParameters.value);
    if planMap.None? {
      return;
    }
    var pm := planMap.value;
    var stateMap: map<string, string> := map[];
    var stateParameters := state.val.parameters;
    if !stateParameters.Null? && !stateParameters.Unknown? {
      var elements := MapElements(stateParameters.value);
      if elements.Some? {
        stateMap := elements.value;
      }
    }
    assert stateMap == StateMap(stateParameters);
    var changed;
    stateMap, changed := FillFromPlan(stateMap, pm);
    if changed {
      var parameters := StringMapToTypesMap(stateMap);
      state.val := state.val.(parameters := parameters);
    }
  }

  /** A null or unknown plan map leaves the state's parameters as they are. */
  lemma NoPlanNoChange(state: TfMap, plan: TfMap)
    requires !plan.Known?
    ensures MergedParameters(state, plan) == state
  {
  }

  /** A known, non-empty state value is never overwritten. */
  lemma NeverOverwrites(state: TfMap, plan: TfMap, k: string)
    requires state.Known? && MapElements(state.value).Some?
    requires k in state.value && state.value[k].Known? && state.value[k].value != ""
    ensures MergedParameters(state, plan).Known?
    ensures k in MergedParameters(state, plan).value
    ensures MergedParameters(state, plan).value[k] == state.value[k]
  {
    var planMap := PlanMap(plan);
    if planMap.Some? && AnyFill(StateMap(state), planMap.value) {
      var f := Filled(StateMap(state), planMap.value);
      assert k in f && f[k] == state.value[k].value;
    }
  }

  /** Each plan key whose state entry is missing or empty takes the plan's value. */
  lemma FillsFromPlan(state: TfMap, plan: TfMap, k: string)
    requires PlanMap(plan).Some? && k in PlanMap(plan).value
    requires NeedsFill(StateMap(state), k)
    ensures MergedParameters(state, plan).Known?
    ensures k in MergedParameters(state, plan).value
    ensures MergedParameters(state, plan).value[k] == Known(PlanMap(plan).value[k])
  {
    var f := Filled(StateMap(state), PlanMap(plan).value);
    assert AnyFill(StateMap(state), PlanMap(plan).value);
    assert k in f && f[k] == PlanMap(plan).value[k];
  }

  /** A readable state entry whose key the plan does not mention is kept. */
  lemma KeepsOtherKeys(state: TfMap, plan: TfMap, k: string)
    requires state.Known? && MapElements(state.value).Some? && k in state.value
    requires PlanMap(plan).Some? ==> k !in PlanMap(plan).value
    ensures MergedParameters(state, plan).Known?
    ensures k in MergedParameters(state, plan).value
    ensures MergedParameters(state, plan).value[k] == state.value[k]
  {
    var planMap := PlanMap(plan);
    if planMap.Some? && AnyFill(StateMap(state), planMap.value) {
      var f := Filled(StateMap(state), planMap.value);
      assert k in f && f[k] == state.value[k].value;
    }
  }

  /** Parameters are reassigned only when some key was filled; otherwise they are untouched. */
  lemma ChangesOnlyWhenFilled(state: TfMap, plan: TfMap)
    ensures MergedParameters(state, plan) != state ==>
              PlanMap(plan).Some? && AnyFill(StateMap(state), PlanMap(plan).value)
  {
  }

  /** A state map that cannot be read (an element is null or unknown) is dropped whole
      once any plan key is filled: the result holds only the plan's parameters. */
  lemma UnreadableStateReplaced(state: TfMap, plan: TfMap)
    requires state.Known? && MapElements(state.value).None?
    requires PlanMap(plan).Some? && |PlanMap(plan).value| > 0
    ensures MergedParameters(state, plan) == StringMapToTypes(PlanMap(plan).value)
  {
    var pm := PlanMap(plan).value;
    var k :| k in pm;
    assert NeedsFill(StateMap(state), k);
    assert Filled(map[], pm) == pm;
  }

  /** Filling twice from the same plan fills nothing new. */
  lemma FilledIdempotent(stateMap: map<string, string>, planMap: map<string, string>)
    ensures Filled(Filled(stateMap, planMap), planMap) == Filled(stateMap, planMap)
  {
    var f := Filled(stateMap, planMap);
    forall k | k in f ensures Filled(f, planMap)[k] == f[k] {
      if k in planMap && NeedsFill(f, k) {
        assert f[k] == planMap[k];
      }
    }
  }

  /** Merging twice with the same plan gives the same parameters as merging once. */
  lemma MergeIdempotent(state: TfMap, plan: TfMap)
    ensures MergedParameters(MergedParameters(state, plan), plan) == MergedParameters(state, plan)
  {
    var planMap := PlanMap(plan);
    if planMap.Some? {
      var sm := StateMap(state);
      if AnyFill(sm, planMap.value) {
        var f := Filled(sm, planMap.value);
        var k :| k in planMap.value && NeedsFill(sm, k);
        assert k in f;
        assert StateMap(MergedParameters(state, plan)) == f;
        FilledIdempotent(sm, planMap.value);
      }
    }
  }
}

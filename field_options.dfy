/** OPNsense encodes enum and multi-select fields as option maps (`api.FieldOptions`):
    each key maps to a display value and a `Selected` flag, 1 meaning selected.
    This module holds the selection scans that several packages share. */
module FieldOptions {
  import opened Framework
  import opened Text

  datatype FieldOption = FieldOption(value: string, selected: int)

  type Options = map<string, FieldOption>

  /** The keys whose option has `Selected == 1`. */
  function SelectedKeys(options: Options): set<string> {
    set k | k in options && options[k].selected == 1
  }

  /** The selected keys in ascending order. */
  function SortedSelectedKeys(options: Options): seq<string> {
    SortedElems(SelectedKeys(options))
  }

  /** The keys of `options` outside `rest` that are selected. */
  function SelectedOutside(options: Options, rest: set<string>): set<string> {
    set k | k in options && k !in rest && options[k].selected == 1
  }

  /** `selectedOptionKeys` in internal/service/nginx/location_helpers.go: collect the
      selected keys while ranging over the map, then `sort.Strings`. The range order is
      Go's unspecified map order, so the next key is picked arbitrarily. */
  method SelectedOptionKeys(options: Options) returns (keys: seq<string>)
    ensures StrictlySorted(keys) && Elems(keys) == SelectedKeys(options)
    ensures keys == SortedSelectedKeys(options)
  {
    var collected: seq<string> := [];
    var rest := options.Keys;
    while rest != {}
      invariant rest <= options.Keys
      invariant NoDup(collected)
      invariant Elems(collected) == SelectedOutside(options, rest)
      decreases |rest|
    {
      var key :| key in rest;
      SelectedOutsideStep(options, rest, key);
      if options[key].selected == 1 {
        assert key !in Elems(collected);
        NoDupSnoc(collected, key);
        collected := collected + [key];
      }
      rest := rest - {key};
    }
    assert SelectedOutside(options, {}) == SelectedKeys(options);
    keys := SortStrings(collected);
    SortStringsNoDup(collected);
    SortedElemsUnique(SelectedKeys(options), keys);
  }

  /** `selectedFieldOptionKeys` in internal/service/nginx/upstream_helpers.go, which
      `selectedOptionKeys` in internal/service/acmeclient/certificate_helpers.go repeats:
      an empty map gives an empty slice at once; otherwise as SelectedOptionKeys. */
  method SelectedFieldOptionKeys(options: Options) returns (keys: seq<string>)
    ensures |options| == 0 ==> keys == []
    ensures StrictlySorted(keys) && Elems(keys) == SelectedKeys(options)
    ensures keys == SortedSelectedKeys(options)
  {
    if |options| == 0 {
      SortedElemsSpec(SelectedKeys(options));
      return [];
    }
    var collected: seq<string> := [];
    var rest := options.Keys;
    while rest != {}
      invariant rest <= options.Keys
      invariant NoDup(collected)
      invariant Elems(collected) == SelectedOutside(options, rest)
      decreases |rest|
    {
      var key :| key in rest;
      SelectedOutsideStep(options, rest, key);
      if options[key].selected == 1 {
        assert key !in Elems(collected);
        NoDupSnoc(collected, key);
        collected := collected + [key];
      }
      rest := rest - {key};
    }
    assert SelectedOutside(options, {}) == SelectedKeys(options);
    keys := SortStrings(collected);
    SortStringsNoDup(collected);
    SortedElemsUnique(SelectedKeys(options), keys);
  }

  /** `selectedOptionKey` in internal/service/acmeclient/settings_helpers.go and, word for
      word, in internal/service/gateway/gateway_helpers.go: the first selected key met
      while ranging over the map, "" when none is selected. Which selected key is met
      first is Go's map order, so any of them may be returned. */
  method FirstSelectedKey(options: Options) returns (key: string)
    ensures SelectedKeys(options) == {} ==> key == ""
    ensures SelectedKeys(options) != {} ==> key in SelectedKeys(options)
  {
    var rest := options.Keys;
    while rest != {}
      invariant rest <= options.Keys
      invariant SelectedOutside(options, rest) == {}
      decreases |rest|
    {
      var k :| k in rest;
      if options[k].selected == 1 {
        assert k in SelectedKeys(options);
        return k;
      }
      SelectedOutsideStep(options, rest, k);
      rest := rest - {k};
    }
    assert SelectedOutside(options, {}) == SelectedKeys(options);
    return "";
  }

  /** What FirstSelectedKey may return for `options`: "" when nothing is selected, and
      otherwise one of the selected keys. */
  ghost predicate FirstKeyOf(options: Options, key: string) {
    (SelectedKeys(options) == {} ==> key == "") &&
    (SelectedKeys(options) != {} ==> key in SelectedKeys(options))
  }

  /** What a first-selected scan that turns "" into null may return for `options`
      (`fieldOptionsFirstOption` in internal/service/nginx/upstream_server_helpers.go and
      `stringValueFromOptionMap` in internal/service/acmeclient/settings_helpers.go): null
      when nothing is selected, and otherwise the first selected key met in map order,
      made null if it is "". */
  ghost predicate FirstOptionOf(options: Options, v: Tri<string>) {
    !v.Unknown? &&
    (SelectedKeys(options) == {} ==> v.Null?) &&
    (v.Known? ==> v.value != "" && v.value in SelectedKeys(options)) &&
    (v.Null? ==> SelectedKeys(options) == {} || "" in SelectedKeys(options))
  }

  /** Moving one key out of `rest` adds it to the selected keys seen so far exactly when it is selected. */
  lemma SelectedOutsideStep(options: Options, rest: set<string>, key: string)
    requires key in rest && key in options
    ensures SelectedOutside(options, rest - {key}) ==
            SelectedOutside(options, rest) + (if options[key].selected == 1 then {key} else {})
  {
  }

  /** A key is in the ascending selection exactly when its option is selected. */
  lemma SortedSelectedKeysMembers(options: Options, k: string)
    ensures k in SortedSelectedKeys(options) <==> k in options && options[k].selected == 1
  {
    SortedElemsSpec(SelectedKeys(options));
    assert k in SortedSelectedKeys(options) <==> k in Elems(SortedSelectedKeys(options));
  }
}

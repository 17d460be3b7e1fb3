/** `formatActionResultFailure` of internal/service/gateway/action_result.go: the diagnostic
    text for a gateway action OPNsense did not carry out. */
module GatewayActionResult {
  import opened Framework
  import opened Text

  /** `api.ActionResult`: the result word and the validation messages by field. */
  datatype ActionResult = ActionResult(result: string, validations: map<string, string>)

  /** The text for an action that returned no payload at all. */
  function NoPayloadMessage(operation: string): string {
    "Unable to " + operation + ": action failed without a response payload."
  }

  /** The first line of every failure with a payload. */
  function Header(operation: string, result: string): string {
    "Unable to " + operation + ". Result: " + result + "."
  }

  const SectionTitle := "\nValidation errors:"

  const Unspecified := "unspecified error"

  /** The line for one validation key; an empty message is shown as "unspecified error". */
  function Line(validations: map<string, string>, key: string): (r: string)
    ensures key in validations && validations[key] != "" ==> r == "\n  - " + key + ": " + validations[key]
    ensures key in validations && validations[key] == "" ==> r == "\n  - " + key + ": " + Unspecified
  {
    var msg := if key in validations then validations[key] else "";
    "\n  - " + key + ": " + (if msg == "" then Unspecified else msg)
  }

  /** The lines for `keys`, in the order given. */
  function Lines(validations: map<string, string>, keys: seq<string>): string {
    if |keys| == 0 then ""
    else Lines(validations, keys[..|keys| - 1]) + Line(validations, keys[|keys| - 1])
  }

  /** The whole failure text: the header, then, when there are validation messages, the
      section title and one line per key in ascending key order. */
  function FailureMessage(operation: string, res: Option<ActionResult>): string {
    if res.None? then NoPayloadMessage(operation)
    else if |res.value.validations| == 0 then Header(operation, res.value.result)
    else
      Header(operation, res.value.result) + SectionTitle +
      Lines(res.value.validations, SortedElems(res.value.validations.Keys))
  }

  /** The key collection of `formatActionResultFailure`: the keys gathered in map order,
      then `sort.Strings`. */
  method SortedKeys(validations: map<string, string>) returns (keys: seq<string>)
    ensures keys == SortedElems(validations.Keys)
  {
    var collected: seq<string> := [];
    var rest := validations.Keys;
    while rest != {}
      invariant rest <= validations.Keys
      invariant NoDup(collected)
      invariant Elems(collected) == validations.Keys - rest
      decreases |rest|
    {
      var k :| k in rest;
      assert k !in Elems(collected);
      NoDupSnoc(collected, k);
      collected := collected + [k];
      rest := rest - {k};
    }
    keys := SortStrings(collected);
    SortStringsNoDup(collected);
    SortedElemsUnique(validations.Keys, keys);
  }

  /** The line loop of `formatActionResultFailure`: one line per key, in the order given,
      appended to what the builder already holds. */
  method AppendLines(builder: string, validations: map<string, string>, keys: seq<string>)
    returns (s: string)
    ensures s == builder + Lines(validations, keys)
  {
    var lines := "";
    var i := 0;
    while i < |keys|
      invariant 0 <= i <= |keys|
      invariant lines == Lines(validations, keys[..i])
    {
      LinesSnoc(validations, keys, i);
      lines := lines + Line(validations, keys[i]);
      i := i + 1;
    }
    assert keys[..|keys|] == keys;
    s := builder + lines;
  }

  /** The lines of one more key are the lines before it and its own line. */
  lemma LinesSnoc(validations: map<string, string>, keys: seq<string>, i: nat)
    requires i < |keys|
    ensures Lines(validations, keys[..i + 1]) == Lines(validations, keys[..i]) + Line(validations, keys[i])
  {
    assert keys[..i + 1][..i] == keys[..i];
  }

  /** `formatActionResultFailure`. */
  method FormatActionResultFailure(operation: string, res: Option<ActionResult>) returns (s: string)
    ensures s == FailureMessage(operation, res)
  {
    if res.None? {
      return NoPayloadMessage(operation);
    }
    var validations := res.value.validations;
    s := Header(operation, res.value.result);
    if |validations| > 0 {
      s := s + SectionTitle;
      var keys := SortedKeys(validations);
      s := AppendLines(s, validations, keys);
    }
  }

  /** A nil result is reported as exactly the no-payload message. */
  lemma NilResultMessage(operation: string)
    ensures FailureMessage(operation, None) ==
            "Unable to " + operation + ": action failed without a response payload."
  {
  }

  /** Every failure with a payload starts with the header naming the operation and the
      result, and is exactly the header when there are no validation messages. */
  lemma HeaderFirst(operation: string, r: ActionResult)
    ensures Header(operation, r.result) <= FailureMessage(operation, Some(r))
    ensures |r.validations| == 0 ==> FailureMessage(operation, Some(r)) == Header(operation, r.result)
    ensures |r.validations| > 0 ==>
              Header(operation, r.result) + SectionTitle <= FailureMessage(operation, Some(r))
  {
    var h := Header(operation, r.result);
    var m := FailureMessage(operation, Some(r));
    if |r.validations| > 0 {
      var tail := Lines(r.validations, SortedElems(r.validations.Keys));
      assert m == (h + SectionTitle) + tail;
      assert (h + SectionTitle) <= m;
      assert m == h + (SectionTitle + tail);
    }
  }

  /** The line for `keys[i]` follows exactly the lines for the keys before it. */
  lemma {:induction false} LinesAt(validations: map<string, string>, keys: seq<string>, i: nat)
    requires i < |keys|
    ensures Lines(validations, keys[..i]) + Line(validations, keys[i]) <= Lines(validations, keys)
    decreases |keys|
  {
    if i == |keys| - 1 {
      assert keys[..|keys| - 1] == keys[..i];
    } else {
      var init := keys[..|keys| - 1];
      LinesAt(validations, init, i);
      assert init[..i] == keys[..i] && init[i] == keys[i];
    }
  }

  /** With validation messages, the text after the section title is one line per key of
      the map, each key once, in ascending order: the line for the i-th smallest key
      follows the lines of all smaller keys. */
  lemma ValidationLinesSorted(operation: string, r: ActionResult, i: nat)
    requires |r.validations| > 0
    ensures var keys := SortedElems(r.validations.Keys);
            StrictlySorted(keys) && Elems(keys) == r.validations.Keys &&
            (i < |keys| ==>
               Header(operation, r.result) + SectionTitle + Lines(r.validations, keys[..i]) +
               Line(r.validations, keys[i]) <= FailureMessage(operation, Some(r)))
  {
    var keys := SortedElems(r.validations.Keys);
    SortedElemsSpec(r.validations.Keys);
    if i < |keys| {
      var p := Header(operation, r.result) + SectionTitle;
      assert FailureMessage(operation, Some(r)) == p + Lines(r.validations, keys);
      LinesAt(r.validations, keys, i);
      PrefixExtend(p, Lines(r.validations, keys[..i]), Line(r.validations, keys[i]), Lines(r.validations, keys));
    }
  }

  /** A prefix stays a prefix when both sides get the same front. */
  lemma PrefixExtend(p: string, before: string, line: string, s: string)
    requires before + line <= s
    ensures p + before + line <= p + s
  {
    assert p + before + line == p + (before + line);
    assert (p + s)[..|p + before + line|] == p + s[..|before + line|];
  }

  /** A key with an empty message is shown as "unspecified error". */
  lemma EmptyMessageUnspecified(validations: map<string, string>, key: string)
    requires key in validations && validations[key] == ""
    ensures Line(validations, key) == "\n  - " + key + ": unspecified error"
  {
  }
}

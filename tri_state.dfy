/** The tri-state converters that turn plugin-framework values into the strings the
    OPNsense API expects, and a string slice into a set. The nginx, acmeclient and gateway
    packages each carry their own copy of these one-liners; the copies are identical, so
    each is defined once here. */
module TriState {
  import opened Framework
  import opened Text

  /** `stringValue` (nginx, gateway) and `stringToAPIValue` (acmeclient). */
  function StringValue(v: Tri<string>): (r: string)
    ensures v.Known? ==> r == v.value
    ensures !v.Known? ==> r == ""
  {
    if v.Null? || v.Unknown? then "" else v.value
  }

  /** `boolToAPIString`: a null or unknown bool is sent as the encoding of false. */
  function BoolToAPIString(t: Tools, v: Tri<bool>): (r: string)
    ensures r == t.boolToString(ValueBool(v))
    ensures !v.Known? ==> r == t.boolToString(false)
  {
    if v.Null? || v.Unknown? then t.boolToString(false) else t.boolToString(v.value)
  }

  /** `int64ToAPIString`: a null or unknown number is sent as "". */
  function Int64ToAPIString(t: Tools, v: Tri<int64>): (r: string)
    ensures !v.Known? ==> r == ""
    ensures v.Known? ==> r == t.int64ToString(v.value)
  {
    if v.Null? || v.Unknown? then "" else t.int64ToString(v.value)
  }

  /** `stringSliceToSet` (nginx, acmeclient): an empty slice is a null set. */
  function StringSliceToSet(t: Tools, values: seq<string>): (r: TfSet)
    ensures |values| == 0 ==> r.Null?
    ensures |values| > 0 ==> r == t.stringSliceToSet(values)
  {
    if |values| == 0 then Null else t.stringSliceToSet(values)
  }

  /** `joinStringSet`: "" for a null or unknown set, else the elements in the order
      `SetToStringSlice` gives, joined by `sep` and not sorted. The nginx copy joins with
      newlines, the acmeclient copy with commas. */
  function JoinStringSet(t: Tools, s: TfSet, sep: char): (r: string)
    ensures !s.Known? ==> r == ""
    ensures s.Known? ==> r == Join(t.setToStringSlice(s.value), [sep])
  {
    if s.Null? || s.Unknown? then "" else Join(t.setToStringSlice(s.value), [sep])
  }

  /** Splitting the encoding of a non-empty set recovers its elements, in some order,
      when no element contains the separator. */
  lemma JoinStringSetSplit(t: Tools, xs: seq<string>, sep: char)
    requires SetCodec(t) && |xs| > 0
    requires forall i :: 0 <= i < |xs| ==> sep !in xs[i]
    ensures multiset(Split(JoinStringSet(t, Known(xs), sep), sep)) == multiset(xs)
  {
    var ys := t.setToStringSlice(xs);
    assert multiset(ys) == multiset(xs);
    assert |ys| == |multiset(ys)| == |xs|;
    forall i | 0 <= i < |ys| ensures sep !in ys[i] {
      assert ys[i] in multiset(xs);
    }
    SplitJoin(ys, sep);
  }

  /** What the API reads back from BoolToAPIString is the bool, with null and unknown read as false. */
  lemma BoolToAPIStringReadBack(t: Tools, v: Tri<bool>)
    requires BoolCodec(t)
    ensures t.stringToBool(BoolToAPIString(t, v)) == ValueBool(v)
    ensures !v.Known? ==> BoolToAPIString(t, v) == BoolToAPIString(t, Known(false))
  {
  }

  /** What the API reads back from Int64ToAPIString is the number, and unknown reads back as null. */
  lemma Int64ToAPIStringReadBack(t: Tools, v: Tri<int64>)
    requires Int64Codec(t)
    ensures t.stringToInt64Null(Int64ToAPIString(t, v)) == if v.Known? then v else Null
  {
  }

  /** A known number is never sent as "": the empty string is reserved for null and unknown. */
  lemma Int64ToAPIStringEmpty(t: Tools, v: Tri<int64>)
    requires Int64Codec(t)
    ensures Int64ToAPIString(t, v) == "" <==> !v.Known?
  {
  }

  /** With a faithful set conversion, the set is null exactly for the empty slice and
      otherwise holds the slice's elements. */
  lemma StringSliceToSetElements(t: Tools, values: seq<string>)
    requires SetCodec(t)
    ensures StringSliceToSet(t, values).Null? <==> |values| == 0
    ensures StringSliceToSet(t, values).Known? ==>
              multiset(StringSliceToSet(t, values).value) == multiset(values)
  {
    if |values| > 0 {
      assert t.stringSliceToSet(values).Known?;
    }
  }
}

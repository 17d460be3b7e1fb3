/** The vocabulary the provider's helpers are written in: Terraform plugin-framework values,
    Go errors, nil-able pointers, and the provider's `internal/tools` conversion functions,
    which are not part of this model and so are carried as uninterpreted functions. */
module Framework {

  datatype Option<T> = None | Some(value: T)

  /** A plugin-framework value (`types.String`, `types.Bool`, `types.Int64`, `types.Set`,
      `types.Map`): null, unknown, or a known value. */
  datatype Tri<T> = Null | Unknown | Known(value: T)

  newtype int64 = x: int | -0x8000_0000_0000_0000 <= x < 0x8000_0000_0000_0000

  /** A known `types.Set` of strings is given by its element list, in the framework's order. */
  type TfSet = Tri<seq<string>>

  /** A `types.Map` of strings; each element is itself a framework value. */
  type TfMap = Tri<map<string, Tri<string>>>

  /** `types.String.ValueString()`: the empty string for a null or unknown value. */
  function ValueString(v: Tri<string>): (r: string)
    ensures v.Known? ==> r == v.value
    ensures !v.Known? ==> r == ""
  {
    if v.Known? then v.value else ""
  }

  /** `types.Bool.ValueBool()`: false for a null or unknown value. */
  function ValueBool(v: Tri<bool>): (r: bool)
    ensures v.Known? ==> r == v.value
    ensures !v.Known? ==> !r
  {
    v.Known? && v.value
  }

  /** `types.Map.ElementsAs` into a `map[string]string`: it fails as soon as one element
      is null or unknown, since neither fits a Go string. */
  function MapElements(m: map<string, Tri<string>>): (r: Option<map<string, string>>)
    ensures r.Some? <==> forall k :: k in m ==> m[k].Known?
    ensures r.Some? ==> r.value.Keys == m.Keys && forall k :: k in m ==> r.value[k] == m[k].value
  {
    if forall k :: k in m ==> m[k].Known? then Some(map k | k in m :: m[k].value) else None
  }

  /** A known map whose elements are all known strings (`types.MapValue` over `types.StringValue`s). */
  function KnownStrings(m: map<string, string>): (r: map<string, Tri<string>>)
    ensures r.Keys == m.Keys
    ensures MapElements(r) == Some(m)
  {
    var r := map k | k in m :: Known(m[k]);
    assert forall k :: k in r ==> r[k].Known?;
    assert (map k | k in r :: r[k].value) == m;
    r
  }

  // ---------------------------------------------------------------------------
  // Errors

  /** A Go `error`: its text, and whether `errors.As` finds an `*errs.NotFoundError` in its chain. */
  datatype Error = Error(message: string, notFound: bool)

  datatype Outcome<T> = Ok(value: T) | Err(error: Error)

  /** `fmt.Errorf(prefix + "%w", e)`: the text is prefixed and the wrapped chain is kept. */
  function Wrap(prefix: string, e: Error): (r: Error)
    ensures r.message == prefix + e.message && r.notFound == e.notFound
  {
    Error(prefix + e.message, e.notFound)
  }

  /** `fmt.Errorf(prefix + "%s", e)`: only the text survives, the chain is cut. */
  function Describe(prefix: string, e: Error): (r: Error)
    ensures r.message == prefix + e.message && !r.notFound
  {
    Error(prefix + e.message, false)
  }

  // ---------------------------------------------------------------------------
  // internal/tools

  /** The `internal/tools` helpers, whose bodies are not part of this model. Nothing about
      them is assumed; lemmas that need a property of one say so in a `requires` that names
      one of the predicates below. */
  datatype Tools = Tools(
    boolToString: bool -> string,
    stringToBool: string -> bool,
    int64ToString: int64 -> string,
    stringToInt64: string -> int64,
    stringToInt64Null: string -> Tri<int64>,
    stringOrNull: string -> Tri<string>,
    setToStringSlice: seq<string> -> seq<string>,
    stringSliceToSet: seq<string> -> TfSet,
    notFoundMessage: string)

  /** `errs.NewNotFoundError()`. */
  function NotFound(t: Tools): (r: Error)
    ensures r.notFound
  {
    Error(t.notFoundMessage, true)
  }

  /** StringToBool reads back what BoolToString writes. */
  ghost predicate BoolCodec(t: Tools) {
    forall b: bool :: t.stringToBool(t.boolToString(b)) == b
  }

  /** StringToInt64Null reads back what Int64ToString writes, and reads "" as null. */
  ghost predicate Int64Codec(t: Tools) {
    t.stringToInt64Null("") == Null &&
    forall i: int64 :: t.stringToInt64Null(t.int64ToString(i)) == Known(i)
  }

  /** StringOrNull reads "" as null and any other string as itself. */
  ghost predicate StringOrNullCodec(t: Tools) {
    forall s: string :: t.stringOrNull(s) == if s == "" then Null else Known(s)
  }

  /** SetToStringSlice and StringSliceToSet keep the elements, possibly reordering them. */
  ghost predicate SetCodec(t: Tools) {
    (forall xs: seq<string> :: multiset(t.setToStringSlice(xs)) == multiset(xs)) &&
    (forall xs: seq<string> ::
       t.stringSliceToSet(xs).Known? && multiset(t.stringSliceToSet(xs).value) == multiset(xs))
  }

  // ---------------------------------------------------------------------------
  // Pointers

  /** A Go pointer to a value that a helper updates in place; `null` is nil. */
  class Ptr<T> {
    var val: T

    constructor(v: T)
      ensures val == v
    {
      val := v;
    }
  }
}

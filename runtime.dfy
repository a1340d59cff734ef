/** The few pieces of JavaScript runtime behaviour the service relies on: how a
    template literal or `Array.prototype.join` turns a parsed JSON value into
    text, and the wording of the `TypeError`s the engine raises when a property
    is read from `null`, a non-function is called, or an object cannot be
    turned into text. */
module Runtime {
  import opened Wrappers
  import opened Text
  import opened Models

  /** The message of the `TypeError` raised when an object's `toString` and
      `valueOf` both fail to give a primitive (written in two pieces, which
      keeps the solver's work on it small). */
  const CannotConvert := "Cannot convert object" + " to primitive value"

  /** Whether `String(v)` returns rather than throws. A parsed object with its
      own `toString` property has a value there that cannot be called, and its
      `valueOf` returns the object itself, so converting it throws; an array
      converts by joining its elements, so it throws when one of them does. */
  predicate Convertible(v: Json)
    decreases v
  {
    match v
    case JObject(m) => "toString" !in m
    case JArray(items) => forall k | 0 <= k < |items| :: Convertible(items[k])
    case _ => true
  }

  /** `String(v)` for a parsed JSON value that converts: a string is itself,
      arrays are joined with commas (their `null` elements becoming empty),
      objects render as `[object Object]`. Only an empty string or an array can
      render as the empty text. */
  function Show(v: Json): (r: string)
    requires Convertible(v)
    ensures v.JString? ==> r == v.s
    ensures r == [] ==> (v.JString? && v.s == []) || v.JArray?
    decreases v
  {
    match v
    case JNull => "null"
    case JBool(b) => if b then "true" else "false"
    case JNumber(n) => IntToDecimal(n)
    case JString(s) => s
    case JArray(items) => Join(ShowItems(v, items), ",")
    case JObject(_) => "[object Object]"
  }

  /** The element texts `Array.prototype.join` concatenates: `null` becomes
      the empty text, anything else its `String` form. */
  function ShowItems(v: Json, items: seq<Json>): (r: seq<string>)
    requires v.JArray? && items == v.items && Convertible(v)
    ensures |r| == |items|
    ensures forall k :: 0 <= k < |items| && items[k].JString? ==> r[k] == items[k].s
    ensures forall k :: 0 <= k < |items| && items[k].JNull? ==> r[k] == []
    decreases v, 0
  {
    seq(|items|, k requires 0 <= k < |items| => if items[k].JNull? then "" else Show(items[k]))
  }

  /** A property that converts: absent (`undefined`), or a value that does. */
  predicate FieldConvertible(f: Field) {
    f.None? || Convertible(f.value)
  }

  /** A template literal's rendering of an optional property. */
  function ShowField(f: Field): (r: string)
    requires FieldConvertible(f)
    ensures f.None? ==> r == "undefined"
    ensures f.Some? ==> r == Show(f.value)
  {
    match f
    case None => "undefined"
    case Some(v) => Show(v)
  }

  /** The message of the `TypeError` raised by reading `prop` from `null`. */
  function NullRead(prop: string): (r: string)
    ensures Contains(r, prop)
  {
    ContainsSpliced("Cannot read properties" + " of null (reading '", prop, "')");
    "Cannot read properties" + " of null (reading '" + prop + "')"
  }

  /** The message of the `TypeError` raised by calling `callee` when it is not
      a function. */
  function NotAFunction(callee: string): (r: string)
    ensures StartsWith(r, callee)
    ensures EndsWith(r, " is not a function")
  {
    assert StartsWith(callee, callee) by {
      assert callee[..|callee|] == callee;
    }
    StartsWithExtended(callee, " is not a function", callee);
    EndsWithSecond(callee, " is not a function");
    callee + " is not a function"
  }
}

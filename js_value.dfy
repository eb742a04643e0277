/**
 * The JavaScript values that flow through the application: REST payloads, React state
 * and form values. Numbers are integers (no NaN, no fractions); objects are finite maps
 * from property names to values, so a missing property reads as `undefined`.
 */
module JsValue {
  import opened Text

  datatype Value =
    | Undefined
    | Null
    | Bool(b: bool)
    | Num(n: int)
    | Str(s: string)
    | Arr(items: seq<Value>)
    | Obj(fields: map<string, Value>)

  /** `v === null || v === undefined`. */
  predicate IsNullish(v: Value) {
    v.Undefined? || v.Null?
  }

  /** JavaScript's truthiness: `!!v`. */
  predicate Truthy(v: Value) {
    match v
    case Undefined => false
    case Null => false
    case Bool(b) => b
    case Num(n) => n != 0
    case Str(s) => s != ""
    case Arr(_) => true
    case Obj(_) => true
  }

  /** `v.key` on a value that is not null or undefined (those throw; callers check first). */
  function Get(v: Value, key: string): (r: Value)
    ensures r != Undefined ==> v.Obj? && key in v.fields && r == v.fields[key]
    ensures v.Obj? && key in v.fields ==> r == v.fields[key]
  {
    if v.Obj? && key in v.fields then v.fields[key] else Undefined
  }

  /** `a || b`. */
  function Or(a: Value, b: Value): (r: Value)
    ensures Truthy(a) ==> r == a
    ensures !Truthy(a) ==> r == b
  {
    if Truthy(a) then a else b
  }

  /** `String(v)`, with the default `toString` of arrays (`join(',')`) and plain objects. */
  function ToJsString(v: Value): string
    decreases v, 1
  {
    match v
    case Undefined => "undefined"
    case Null => "null"
    case Bool(b) => if b then "true" else "false"
    case Num(n) => IntToString(n)
    case Str(s) => s
    case Arr(items) => JoinFrom(v, 0)
    case Obj(_) => "[object Object]"
  }

  /** The elements of array `v` from index `i` on, joined by commas; null and undefined give "". */
  function JoinFrom(v: Value, i: nat): string
    requires v.Arr? && i <= |v.items|
    decreases v, 0, |v.items| - i
  {
    if i == |v.items| then ""
    else
      var x := v.items[i];
      var piece := if IsNullish(x) then "" else ToJsString(x);
      if i + 1 == |v.items| then piece else piece + "," + JoinFrom(v, i + 1)
  }

  /**
   * `Number(v)`, as used by `<` and `>` on a form value: `None` stands for NaN
   * (undefined, objects, text that is not an integer).
   */
  function NumberOf(v: Value): (r: Option<int>)
    ensures v.Num? ==> r == Some(v.n)
    ensures v.Str? ==> r == StringToNumber(v.s)
  {
    match v
    case Undefined => None
    case Null => Some(0)
    case Bool(b) => Some(if b then 1 else 0)
    case Num(n) => Some(n)
    case Str(s) => StringToNumber(s)
    case Arr(_) => StringToNumber(ToJsString(v))
    case Obj(_) => None
  }

  /** String(v) of a string is the string itself, so truthy strings give non-empty text. */
  lemma TruthyStringText(v: Value)
    requires v.Str? && Truthy(v)
    ensures ToJsString(v) != ""
  {
  }

  /** The message of the TypeError thrown by reading a property of null or undefined. */
  const NullRead := "Cannot read properties of null or undefined"
  /** The message of the TypeError thrown by calling a method a value does not have. */
  const NotAFunction := "is not a function"

  /** The outcome of an `async` call: it returns a value or throws an error. */
  datatype Outcome<+T, +E> = Returned(value: T) | Threw(error: E)

  /** `v.trim()`: strings trim; null and undefined throw on the property read, other values have no `trim`. */
  function CallTrim(v: Value): (r: Outcome<string, string>)
    ensures r.Returned? <==> v.Str?
    ensures r.Returned? ==> (r.value == "" <==> IsBlank(v.s))
    ensures r.Threw? ==> r.error == if IsNullish(v) then NullRead else NotAFunction
  {
    if v.Str? then TrimEmptyIffBlank(v.s); Returned(Trim(v.s))
    else Threw(if IsNullish(v) then NullRead else NotAFunction)
  }

  /**
   * What a `catch` block sees of a rejected HTTP call: `error.response?.data`
   * (`Undefined` when the request got no response) and `error.message`.
   */
  datatype JsError = JsError(responseData: Value, message: string)

  /** `error.response?.data?.error || fallback`, as the text a component shows. */
  function ServerErrorOr(e: JsError, fallback: string): (r: string)
    ensures Truthy(Get(e.responseData, "error")) ==> r == ToJsString(Get(e.responseData, "error"))
    ensures !Truthy(Get(e.responseData, "error")) ==> r == fallback
  {
    var serverError := Get(e.responseData, "error");
    if Truthy(serverError) then ToJsString(serverError) else fallback
  }
}

/**
  JavaScript values as the backend sees them (request bodies, stored documents,
  parsed model output), JavaScript truthiness and nullish coalescing, and the two
  ways a JavaScript call can complete: by returning a value or by throwing.
 */
module Js {

  datatype Option<+T> = None | Some(value: T) {
    /** `x ?? d` when `None` stands for null or undefined. */
    function GetOr(default: T): T {
      match this
      case Some(v) => v
      case None => default
    }
  }

  /** A JSON-like JavaScript value; `Undefined` is what reading an absent property gives. */
  datatype JsValue =
    | Undefined
    | Null
    | Bool(b: bool)
    | Num(x: real)
    | Str(s: string)
    | Arr(items: seq<JsValue>)
    | Obj(fields: map<string, JsValue>)
      /** A member every plain object inherits from `Object.prototype` (a method, or the prototype itself). */
    | Inherited(name: string)

  /** JavaScript truthiness: `undefined`, `null`, `false`, `0` and `""` are falsy. */
  predicate Truthy(v: JsValue) {
    match v
    case Undefined => false
    case Null => false
    case Bool(b) => b
    case Num(x) => x != 0.0
    case Str(s) => s != ""
    case Arr(_) => true
    case Obj(_) => true
    case Inherited(_) => true
  }

  /** The names every plain object inherits from `Object.prototype`. */
  const InheritedKeys: set<string> := {
    "constructor", "hasOwnProperty", "isPrototypeOf", "propertyIsEnumerable",
    "toLocaleString", "toString", "valueOf", "__proto__",
    "__defineGetter__", "__defineSetter__", "__lookupGetter__", "__lookupSetter__"
  }

  /** The own property `k` of a plain object, `undefined` when it has none. This is
      what `o[k]` reads whenever `k` does not name an inherited member (see `PropertyRead`). */
  function Lookup(fields: map<string, JsValue>, k: string): (v: JsValue)
    ensures k !in fields ==> v == Undefined
    ensures k in fields ==> v == fields[k]
  {
    if k in fields then fields[k] else Undefined
  }

  /** `o[k]` on a plain object, prototype chain included: an own property first, then
      a member inherited from `Object.prototype`, otherwise `undefined`. */
  function PropertyRead(fields: map<string, JsValue>, k: string): (v: JsValue)
    ensures k in fields ==> v == fields[k]
    ensures k !in fields && k in InheritedKeys ==> v == Inherited(k) && Truthy(v)
    ensures k !in fields && k !in InheritedKeys ==> v == Undefined
  {
    if k in fields then fields[k] else if k in InheritedKeys then Inherited(k) else Undefined
  }

  /** `v.k`: on a plain object the property read with its prototype chain; on any other
      value that is not null or undefined, `undefined` (the profile field names read here
      are not members of the primitive or array prototypes). Reading a property of
      null or undefined throws a TypeError. */
  function Member(v: JsValue, k: string): (r: Completion<JsValue>)
    ensures r.Throw? <==> v.Undefined? || v.Null?
    ensures r.Throw? ==> r.error == TypeError
    ensures v.Obj? ==> r == Normal(PropertyRead(v.fields, k))
  {
    match v
    case Undefined => Throw(TypeError)
    case Null => Throw(TypeError)
    case Obj(fields) => Normal(PropertyRead(fields, k))
    case _ => Normal(Undefined)
  }

  /** Whether the string conversion a template literal applies to `v` (`${v}`)
      completes. A plain object with an own `toString` property cannot convert: parsed
      JSON never holds a function, so that `toString` is not callable, and the
      `valueOf` it falls back to returns the object itself, which is no primitive. An
      array converts by joining its elements, each converted the same way (null and
      undefined elements give `""`). Every other value converts. */
  predicate Stringifies(v: JsValue) {
    match v
    case Obj(fields) => "toString" !in fields
    case Arr(items) => forall i :: 0 <= i < |items| ==> Stringifies(items[i])
    case _ => true
  }

  /** What a validation issue reports. */
  datatype IssueCode = InvalidType | InvalidEnumValue

  /** One validation problem: the path of the offending field and what is wrong with it. */
  datatype Issue = Issue(path: seq<string>, code: IssueCode)

  datatype ErrorKind =
    | ValidationError(issues: seq<Issue>)  // a schema rejected the input
    | ProviderError                        // the AI provider call failed
    | StoreError                           // the document store call failed
    | ParseError                           // JSON.parse rejected its argument
    | TypeError                            // a property was read on null or undefined,
                                           // or a value could not be converted to a string

  /** How a JavaScript call completes: it returns a value or it throws. */
  datatype Completion<+T> = Normal(value: T) | Throw(error: ErrorKind)
}

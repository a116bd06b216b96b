/**
 * JavaScript values as they travel inside MQTT payloads and HTTP bodies.
 * Numbers are modelled as integers (every number the services inspect is a
 * status code). A property that is `undefined` is simply absent from an
 * object's field map.
 */
module Json {
  import Text

  datatype Value =
    | JNull
    | JBool(b: bool)
    | JNum(n: int)
    | JStr(s: string)
    | JArr(items: seq<Value>)
    | JObj(fields: map<string, Value>)

  /** A plain object, e.g. the `Record<string, unknown>` a handler receives. */
  type Object = map<string, Value>

  /** JavaScript truthiness of a present value. */
  predicate Truthy(v: Value) {
    match v
    case JNull => false
    case JBool(b) => b
    case JNum(n) => n != 0
    case JStr(s) => s != ""
    case _ => true
  }

  /**
   * The negation of the guard `!data[key] || typeof data[key] !== 'string'`:
   * the field is present, is a string, and is not the empty string.
   */
  predicate HasNonEmptyString(data: Object, key: string) {
    key in data && data[key].JStr? && data[key].s != ""
  }

  /** A one-field-per-key object display, used to build replies. */
  function Field(key: string, v: Value): Object {
    map[key := v]
  }

  /** `String(v)`: how a value prints inside a template literal. */
  function Display(v: Value): string
    decreases v, 1
  {
    match v
    case JNull => "null"
    case JBool(b) => if b then "true" else "false"
    case JNum(n) => Text.IntToString(n)
    case JStr(s) => s
    case JArr(items) => DisplayItems(items)
    case JObj(_) => "[object Object]"
  }

  /** `items.join(',')` where `null` elements print as the empty string. */
  function DisplayItems(items: seq<Value>): string
    decreases items, 0
  {
    if |items| == 0 then ""
    else
      var head := if items[0].JNull? then "" else Display(items[0]);
      if |items| == 1 then head else head + "," + DisplayItems(items[1..])
  }
}

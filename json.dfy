/** JSON values as they come out of parsing a `package.json` manifest, with the
    few pieces of JavaScript semantics the entrypoint descriptor relies on. */
module Json {

  datatype Option<+T> = None | Some(value: T)

  /** One JSON value. Numbers are kept as reals: nothing here computes with them. */
  datatype Value =
    | Null
    | Bool(b: bool)
    | Number(n: real)
    | Str(s: string)
    | Array(items: seq<Value>)
    | Object(fields: map<string, Value>)

  /** A JSON object: the top level of a manifest, or one of its sections.
      Key order is not represented. */
  type Doc = map<string, Value>

  /** Property access `doc[key]`; an absent key (`undefined`) is `None`. */
  function Get(doc: Doc, key: string): Option<Value>
  {
    if key in doc then Some(doc[key]) else None
  }

  /** JavaScript truthiness of a value that is present (`!v` is false). */
  predicate Truthy(v: Value)
  {
    match v
    case Null => false
    case Bool(b) => b
    case Number(n) => n != 0.0
    case Str(s) => s != ""
    case Array(_) => true
    case Object(_) => true
  }

  /** `Object.keys(v).length === 0` for a value that is neither null nor undefined
      (`Object.keys` throws on those): a string has one key per character, an
      array one per element, booleans and numbers none. */
  predicate HasNoKeys(v: Value)
    requires !v.Null?
  {
    match v
    case Bool(_) => true
    case Number(_) => true
    case Str(s) => s == ""
    case Array(items) => items == []
    case Object(fields) => fields == map[]
  }
}

/**
 The JavaScript values the relay handles: JSON documents as `JSON.parse`
 builds them, `undefined` for a property that is absent, and the three
 things the relay does with them (read a property, test truthiness,
 iterate with `for...of`). Every operation that throws a `TypeError` in
 JavaScript returns `Threw` here.
 */
module Js {

  datatype Option<+T> = None | Some(value: T)

  /** The outcome of a JavaScript expression that may throw. */
  datatype Try<+T> = Ok(value: T) | Threw

  /** A JSON document. Numbers are reals: JSON has no NaN or infinities. */
  datatype Json =
    | JNull
    | JBool(b: bool)
    | JNum(n: real)
    | JStr(s: string)
    | JArr(items: seq<Json>)
    | JObj(fields: map<string, Json>)

  /** A JavaScript value reached from a parsed document: a JSON value or `undefined`. */
  datatype Value = Undefined | Defined(json: Json)

  /**
   A WebSocket payload: either the text of some JSON document (identified
   with that document) or text that `JSON.parse` rejects.
   */
  datatype Payload = Document(doc: Json) | Garbled(text: string)

  /** `JSON.parse`: partial, it fails on text that is not JSON. */
  function Parse(p: Payload): Option<Json>
  {
    match p
    case Document(j) => Some(j)
    case Garbled(_) => None
  }

  /** `JSON.stringify` of a document. */
  function Stringify(j: Json): Payload
  {
    Document(j)
  }

  /** Parsing a stringified document gives it back; this holds by the definitions of `Parse` and `Stringify`. */
  lemma ParseStringify(j: Json)
    ensures Parse(Stringify(j)) == Some(j)
  {
  }

  /** JavaScript truthiness: `undefined`, `null`, `false`, `0`, `-0` and `""` are falsy. */
  predicate Truthy(v: Value)
  {
    match v
    case Undefined => false
    case Defined(j) =>
      match j
      case JNull => false
      case JBool(b) => b
      case JNum(n) => n != 0.0
      case JStr(s) => s != ""
      case JArr(_) => true
      case JObj(_) => true
  }

  /**
   What `v.key` evaluates to when it does not throw. Only own keys of
   objects are seen: the keys the relay reads (`setupComplete`, `toolCall`,
   `functionCalls`, `name`, `args`, `city`, `id`) are defined by no
   built-in prototype, and arrays and strings do not have them either.
   */
  function FieldOf(v: Value, key: string): Value
  {
    if v.Defined? && v.json.JObj? && key in v.json.fields then Defined(v.json.fields[key]) else Undefined
  }

  /** `v.key`: a property read, which throws on `undefined` and `null`. */
  function Member(v: Value, key: string): Try<Value>
  {
    if v == Undefined || v == Defined(JNull) then Threw else Ok(FieldOf(v, key))
  }

  /**
   A truthy value is neither `undefined` nor `null`, so reading one of its
   properties never throws; this holds by the definitions of `Truthy` and `Member`.
   */
  lemma TruthyMemberOk(v: Value, key: string)
    requires Truthy(v)
    ensures Member(v, key) == Ok(FieldOf(v, key))
  {
  }

  /**
   The values `for (const x of v)` visits: the elements of an array, the
   characters of a string (each a one-character string); any other value,
   `undefined` and `null` included, is not iterable and throws.
   */
  function Iterate(v: Value): Try<seq<Value>>
  {
    match v
    case Defined(JArr(items)) => Ok(seq(|items|, i requires 0 <= i < |items| => Defined(items[i])))
    case Defined(JStr(s)) => Ok(seq(|s|, i requires 0 <= i < |s| => Defined(JStr([s[i]]))))
    case _ => Threw
  }

  /**
   `'setup' in v`: `in` throws unless its right operand is an object.
   Arrays are objects, and no array and no prototype has a `setup` key.
   */
  function SetupIn(j: Json): Try<bool>
  {
    match j
    case JObj(fields) => Ok("setup" in fields)
    case JArr(_) => Ok(false)
    case _ => Threw
  }
}

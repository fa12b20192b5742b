/**
 * Values shared by the tool handlers: the optional value, the thrown value of a
 * JavaScript `catch` clause, a JSON value for tool arguments, and the content part
 * a tool returns to its caller.
 */
module Js {

  datatype Option<+T> = None | Some(value: T)

  /** What a `catch (e)` clause can receive. */
  datatype Thrown =
    | ErrorObject(message: string)   // an instance of Error, with its message
    | OtherValue(messageText: string) // a non-Error value; `messageText` is what `${e.message}` renders to
    | Undefined                       // `undefined`: reading `e.message` on it throws a TypeError
    | NullValue                       // `null`: reading `e.message` on it throws a TypeError as well

  /** The text of the TypeError raised by reading `.message` of `undefined`. */
  const UndefinedMessageAccess: string := "Cannot read properties of undefined (reading 'message')"

  /** The text of the TypeError raised by reading `.message` of `null`. */
  const NullMessageAccess: string := "Cannot read properties of null (reading 'message')"

  /** `e instanceof Error ? e.message : fallback` */
  function MessageOr(e: Thrown, fallback: string): (m: string)
    ensures e.ErrorObject? ==> m == e.message
    ensures !e.ErrorObject? ==> m == fallback
  {
    match e
    case ErrorObject(msg) => msg
    case _ => fallback
  }

  /** A JSON value, as tool arguments and options are passed. */
  datatype Json =
    | JNull
    | JBool(b: bool)
    | JNumber(n: int)
    | JString(s: string)
    | JArray(elements: seq<Json>)
    | JObject(members: seq<(string, Json)>)

  /** The empty options object `{}`. */
  const EmptyObject: Json := JObject([])

  /** One element of a tool's `content` list. */
  datatype ContentPart = TextPart(text: string)
}

/** Values shared by the backend and the frontend models: optional values,
    the outcome of a Python call that may raise, the outcome of a browser
    `fetch`, and JSON payloads with Python's truthiness. */
module Common {

  datatype Option<+T> = None | Some(value: T)

  /** The outcome of a Python call that either returns or raises an
      exception whose text is `message`. */
  datatype Outcome<+T> = Ok(value: T) | Raised(message: string)

  /** The outcome of a browser `fetch` whose JSON body decodes to a `T`:
      a response with `response.ok`, a response without it (its status and
      text body), or a rejected promise (a network error, or a body that is
      not JSON) with the message of the thrown error. */
  datatype Reply<+T> = Answered(body: T) | NotOk(status: nat, text: string) | NetworkError(message: string)

  /** A photo picked in a browser file dialog, with the data URL a
      `FileReader` turns it into. */
  datatype ImageFile = ImageFile(name: string, dataUrl: string)

  /** A decoded JSON document as Python sees it after `response.json()`.
      Numbers are integers: no modelled rule depends on fractions. */
  datatype Json =
    | JNull
    | JBool(b: bool)
    | JNum(n: int)
    | JStr(s: string)
    | JArr(items: seq<Json>)
    | JObj(fields: map<string, Json>)
  {
    /** Python truthiness: None, False, 0, "", [] and {} are false. */
    predicate Truthy()
    {
      match this
      case JNull => false
      case JBool(b) => b
      case JNum(n) => n != 0
      case JStr(s) => s != ""
      case JArr(items) => items != []
      case JObj(fields) => fields != map[]
    }
  }
}

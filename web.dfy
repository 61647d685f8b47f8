/** The request/response vocabulary shared by every route: JSON values as
    Python's `json` module produces them, HTTP responses as `(status, payload)`,
    and the outcomes of the external text-generation service. */
module Web {
  import opened Wrappers

  /** A JSON value after `json.loads`: `null`, booleans, integers, other
      numbers (Python `float`), strings, arrays and objects. */
  datatype Json =
    | JNull
    | JBool(b: bool)
    | JInt(i: int)
    | JReal(r: real)
    | JStr(s: string)
    | JArr(items: seq<Json>)
    | JObj(fields: map<string, Json>)

  /** Python truthiness of a decoded JSON value (`if v:` / `v or default`). */
  predicate Truthy(v: Json) {
    match v
    case JNull => false
    case JBool(b) => b
    case JInt(i) => i != 0
    case JReal(r) => r != 0.0
    case JStr(s) => s != []
    case JArr(items) => items != []
    case JObj(fields) => fields != map[]
  }

  /** Python's `isinstance(v, int)`; `bool` is a subclass of `int`. */
  predicate IsPyInt(v: Json) {
    v.JInt? || v.JBool?
  }

  /** The name of the Python type of a decoded JSON value, as it appears in
      the message of an `AttributeError`. */
  function TypeName(v: Json): string {
    match v
    case JNull => "NoneType"
    case JBool(_) => "bool"
    case JInt(_) => "int"
    case JReal(_) => "float"
    case JStr(_) => "str"
    case JArr(_) => "list"
    case JObj(_) => "dict"
  }

  /** The message Python gives when attribute `attr` is looked up on `v`'s type and is missing. */
  function NoAttributeMessage(v: Json, attr: string): string {
    "'" + TypeName(v) + "' object has no attribute '" + attr + "'"
  }

  /** `d.get(key, default)`. */
  function Get(d: map<string, Json>, key: string, default: Json): Json {
    if key in d then d[key] else default
  }

  /** An HTTP response: a JSON payload with its status code, or an exception
      that escaped the handler, which the web framework turns into its own
      500 page. */
  datatype Response =
    | Respond(status: nat, body: Json)
    | Uncaught(exception: string)

  /** The HTTP status a client sees. */
  function StatusOf(r: Response): nat {
    match r
    case Respond(status, _) => status
    case Uncaught(_) => 500
  }

  /** The message of the JSON routes that check for a client before anything else. */
  const ClientMissingMessage := "Gemini Client not initialized."

  /** A response whose payload is an object with the single key `error`. */
  predicate IsErrorResponse(r: Response) {
    r.Respond? && r.body.JObj? && r.body.fields.Keys == {"error"} && r.body.fields["error"].JStr?
  }

  /** `jsonify({'error': message}), status`. */
  function ErrorResponse(status: nat, message: string): (r: Response)
    ensures IsErrorResponse(r) && StatusOf(r) == status
    ensures r.body.fields["error"] == JStr(message)
  {
    Respond(status, JObj(map["error" := JStr(message)]))
  }

  /** The instruction and the user content sent together to the model. */
  datatype Prompt = Prompt(instruction: string, content: string)

  /** A request made to the generation service, with the arguments it was given. */
  datatype Call =
    | RewriteCall(prompt: Prompt)
    | CoverLetterCall(instruction: string, jobDescription: Json, resumeText: Json)
    | SkillGapCall(jobDescription: Json, resumeText: Json)
    | AtsCall(originalResume: Json)
    | ChatCall(prompt: Prompt)

  /** What one request did: the response, and the call made to the model, if any. */
  datatype Exchange = Exchange(response: Response, call: Option<Call>)

  /** The outcome of a plain-text generation: the response's `text`
      attribute (which the client library may leave as `None`), or an
      exception raised by the client with its message. */
  datatype TextReply = Generated(text: Option<string>) | Raised(cause: string)

  /** The outcome of a structured generation followed by `json.loads` of its
      text: the decoded value, or the message of whichever exception was raised. */
  datatype StructuredReply = Parsed(data: Json) | Failed(cause: string)
}

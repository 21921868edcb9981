/** The loosely typed values the Express handlers see and send: parsed JSON
    bodies, JavaScript truthiness, thrown errors, the environment
    configuration, the replies, and the upstream calls a handler makes. */
module JsValues {
  import opened Text

  datatype Option<+T> = None | Some(value: T)

  datatype Result<+T, +E> = Ok(value: T) | Err(error: E)

  /** A JSON value. As a whole request body, `JNull` stands for the
      `undefined` body that the JSON parser leaves on a request it did not
      parse (body-parser 2.x). JSON numbers are kept as reals; only their truthiness
      matters here. */
  datatype Json =
    | JNull
    | JBool(b: bool)
    | JNum(n: real)
    | JStr(s: string)
    | JArr(items: seq<Json>)
    | JObj(fields: map<string, Json>)

  /** `v.key` on a value that is not `null`: the property if `v` is an
      object that has it, `undefined` (None) otherwise. Strings, numbers,
      booleans and arrays have none of the keys the handlers read. */
  function Get(v: Json, key: string): Option<Json> {
    match v
    case JObj(fields) => if key in fields then Some(fields[key]) else None
    case _ => None
  }

  /** JavaScript truthiness of a property read (`undefined` is None). */
  predicate Truthy(v: Option<Json>) {
    match v
    case None => false
    case Some(j) =>
      match j
      case JNull => false
      case JBool(b) => b
      case JNum(n) => n != 0.0
      case JStr(s) => s != ""
      case JArr(_) => true
      case JObj(_) => true
  }

  /** The falsy values are `undefined`, `null`, `false`, `0` and `""`;
      every other value, empty arrays and objects included, is truthy. */
  lemma FalsyValues(v: Option<Json>)
    ensures !Truthy(v) <==> v.None? || v.value in {JNull, JBool(false), JNum(0.0), JStr("")}
    ensures v.Some? && (v.value.JArr? || v.value.JObj?) ==> Truthy(v)
  {
  }

  /** `!(!v || typeof v !== "string")`: the property is a non-empty string. */
  predicate IsNonEmptyString(v: Option<Json>) {
    Truthy(v) && v.value.JStr?
  }

  lemma NonEmptyStringIffTruthyString(v: Option<Json>)
    ensures IsNonEmptyString(v) <==> exists s :: v == Some(JStr(s)) && s != ""
  {
  }

  /** `typeof v === 'object' && v !== null`. */
  function IsObject(v: Json): (b: bool)
    ensures b <==> !(v.JNull? || v.JBool? || v.JNum? || v.JStr?)
    ensures b ==> Truthy(Some(v))
  {
    v.JObj? || v.JArr?
  }

  /** A value a handler catches: an `Error` with its message, or anything
      else that was thrown. */
  datatype Thrown = ErrorValue(message: string) | OtherValue

  /** `error instanceof Error ? error.message : "Unknown error"`. */
  function Details(t: Thrown): string {
    match t
    case ErrorValue(m) => m
    case OtherValue => "Unknown error"
  }

  /** The environment variables the handlers read; None is unset. The
      OpenAI client is built at start-up from `OPENAI_API_KEY` and refuses
      an unset key, so a running server sees that key set, possibly to the
      empty string. */
  datatype Config = Config(openAiApiKey: Option<string>, n8nWebhookUrl: Option<string>)

  /** `process.env.X` is truthy: an environment variable is a string or
      undefined, so it is truthy exactly when it is set and not empty. */
  function IsSet(v: Option<string>): (b: bool)
    ensures b <==> Truthy(if v.Some? then Some(JStr(v.value)) else None)
  {
    v.Some? && v.value != ""
  }

  /** A reply. `DefaultErrorPage` is what Express's built-in error handler
      sends when a middleware passes an error without a status to `next`. */
  datatype Response =
    | JsonReply(status: nat, body: Json)
    | AudioReply(status: nat, contentType: string, contentLength: nat, disposition: string, audio: seq<bv8>)
    | DefaultErrorPage(status: nat)
  {
    function Status(): nat {
      match this
      case JsonReply(s, _) => s
      case AudioReply(s, _, _, _, _) => s
      case DefaultErrorPage(s) => s
    }
  }

  /** `res.status(status).json({ error })`. */
  function ErrorReply(status: nat, error: string): (r: Response)
    ensures r.Status() == status
  {
    JsonReply(status, JObj(map["error" := JStr(error)]))
  }

  /** The catch block of a handler: `res.status(500).json({ error, details })`. */
  function FailureReply(error: string, t: Thrown): (r: Response)
    ensures r.Status() == 500
  {
    JsonReply(500, JObj(map["error" := JStr(error), "details" := JStr(Details(t))]))
  }

  const KeyNotConfigured := "OpenAI API key not configured"

  /** The calls to services outside the backend, with what each is sent. */
  datatype Call =
    | Transcription(path: string, model: string)
    | ChatCompletion(model: string, userText: string, temperature: real, jsonObjectMode: bool)
    | Speech(model: string, voice: string, input: string, format: string)
    | WebhookPost(url: string, body: Json)

  /** What a handler does for one request: the reply it sends and the
      upstream calls it makes, in order. */
  datatype Handled = Handled(reply: Response, calls: seq<Call>)
}

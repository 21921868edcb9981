# Voice-command relay backend, modelled in Dafny

The backend is an Express server with four routes. `POST /stt` takes an
uploaded audio file and returns its transcript. `POST /intent` turns text
into an intent object with a chat model. `POST /execute` carries an intent
out: it uses a fixed table of sentences when no workflow webhook is
configured (mock mode), and otherwise forwards the intent to the webhook.
`POST /tts` turns text into MP3 audio.

Every real piece of work is a call to an outside service. This model covers
the decisions around those calls:

- the upload filter and size limit;
- the order of checks in each route (input, then API key, then the call)
  and the status code each check gives;
- which upstream calls a route makes;
- the life of the uploaded file under `uploads/`;
- the mock sentence table;
- the `result` > `message` > `data` choice of the webhook's reply text.

Each outside call's outcome is a parameter: what it resolves to, or what
it throws.

Files, one module each (two modules hold worked cases):

- `text.dfy` (`Text`): `toLowerCase` over A–Z, `trim`, a `$`-anchored
  suffix test, and the decimal form of a number.
- `js_values.dfy` (`JsValues`): JSON values, JavaScript truthiness, thrown
  values, the environment configuration, replies, and upstream calls.
- `upload.dfy` (`Upload`, `UploadCases`): multer's `fileFilter` and
  `limits.fileSize`.
- `speech_to_text.dfy` (`SpeechToText`): the class `Backend`. Its fields are
  the set of files on disk and the ordered list of effects: stored,
  called, unlinked, replied.
- `routes.dfy` (`Routes`): `/intent` and `/tts`. Each is a function that
  returns the reply and the calls made.
- `dispatch.dfy` (`Dispatch`): the mock table, the reply-text resolver, and
  the `/execute` handler. The handler is a method: it keeps the source's
  mutable `resultText`, and it is proved against the `ResolvedText`
  function.

Behaviour of the code that a reader might not expect, and that the model
keeps:

- A file of the wrong type, or one over the size limit, makes multer pass an
  error to `next`. No error middleware is installed, so Express's built-in
  handler answers with status 500, not 400.
- The missing-key return of `/stt` (app.ts:61-63) comes before the cleanup,
  so the stored upload stays on disk. `Backend.PostStt` proves that the
  file stays on disk exactly on this path.
- `/execute` demands an object body whose `action` is a non-empty
  string. An array passes the object check but fails the `action` check.
- `/intent` returns whatever `JSON.parse` gives back. It does not check
  `action` against the action list, and it does not check that
  `confidence` is in [0, 1].

## Model

| member | source | states |
|---|---|---|
| `Text.Lower` | backend/src/app.ts:37 | `toLowerCase` keeps the length and lower-cases each character |
| `Text.LowerIdentifiesCaseVariants` | backend/src/app.ts:37 | two names lower-case to the same string iff they differ only in letter case |
| `Text.LowerOfUpper` | backend/src/app.ts:37 | lower-casing an upper-cased name gives the lower-cased name |
| `Text.EndsWithIffConcat` | backend/src/app.ts:36 | the `$`-anchored match holds iff the name is some prefix followed by the suffix |
| `Text.TrimStartDropsBlankPrefix` | backend/src/app.ts:212 | the start of `trim` removes a blank prefix and keeps a suffix that does not start with whitespace |
| `Text.TrimEndDropsBlankSuffix` | backend/src/app.ts:212 | the end of `trim` removes a blank suffix and keeps a prefix that does not end with whitespace |
| `Text.TrimKeepsMiddle` | backend/src/app.ts:212-216 | `s.trim()` is the slice of `s` between a blank prefix and a blank suffix, starts and ends with a non-whitespace character, and is empty iff `s` is blank |
| `Text.HasContentIffNotBlank` | backend/src/app.ts:212-216 | `s.trim()` is truthy iff `s` has a non-whitespace character (the ECMAScript whitespace and line terminators) |
| `Text.DecimalString` | backend/src/app.ts:204 | the status code in the error message is a non-empty string of digits with no leading zero |
| `Text.DecimalStringRoundTrip` | backend/src/app.ts:204 | reading that numeral back gives the status code |
| `JsValues.FalsyValues` | backend/src/app.ts:93 | a property read is falsy iff it is undefined, `null`, `false`, `0` or `""`; arrays and objects are truthy |
| `JsValues.NonEmptyStringIffTruthyString` | backend/src/app.ts:93 | `!(!v \|\| typeof v !== "string")` holds iff `v` is a non-empty string |
| `JsValues.IsObject` | backend/src/app.ts:20-22 | `typeof v === 'object' && v !== null` holds for everything but `null`, booleans, numbers and strings, and only for truthy values |
| `JsValues.IsSet` | backend/src/app.ts:61 | an environment variable passes `!process.env.X` iff it is truthy as a string: set and not empty |
| `Upload.AcceptsName` | backend/src/app.ts:35-37 | the filter accepts iff the lower-cased name ends in `.` followed by one of the seven alternatives |
| `Upload.EndsWithAnyIffMember` | backend/src/app.ts:36 | the alternation matches iff the lower-cased name ends in `.` plus one of the alternatives |
| `Upload.ExtensionOf` | backend/src/app.ts:36 | the text after the last `.` is a dot-free suffix that follows a `.`; a name with no `.` has no extension |
| `Upload.DotSuffixIsExtension` | backend/src/app.ts:36 | for a dot-free `e`, the name ends in `.e` iff `e` is its extension |
| `Upload.AcceptsNameIffExtensionAllowed` | backend/src/app.ts:35-41 | the filter accepts iff the extension of the lower-cased name is one of mp3, mp4, mpeg, mpga, m4a, wav, webm |
| `Upload.AcceptsNameIgnoresCase` | backend/src/app.ts:37 | names that differ only in letter case get the same verdict |
| `Upload.AcceptsNameOfUpper` | backend/src/app.ts:37 | the upper-cased name gets the same verdict as the name |
| `Upload.LowerOfLowerCase` | backend/src/app.ts:37 | a name with no upper-case letter is its own lower-case form |
| `Upload.LowerConcat` | backend/src/app.ts:37 | lower-casing distributes over concatenation |
| `Upload.OnlyLastExtensionCounts` | backend/src/app.ts:35-41 | a name whose last extension is not allowed is refused, whatever comes before it |
| `Upload.AcceptsSize` | backend/src/app.ts:43-45 | a file passes the limit iff it is shorter than 25 MiB, 26214400 bytes; a file of exactly that size is refused |
| `Upload.Judge` | backend/src/app.ts:35-45 | the upload is stored iff both the name and the size pass; the filter error comes first |
| `UploadCases.DoubleExtensionRejected` | backend/src/app.ts:35-41 | `x.mp3.txt` is refused |
| `UploadCases.UpperCaseExtensionAccepted` | backend/src/app.ts:35-41 | `x.MP3` is accepted |
| `UploadCases.NameWithoutDotRejected` | backend/src/app.ts:35-41 | `mp3` without a dot is refused |
| `SpeechToText.Backend.constructor` | backend/src/app.ts:33-34 | the upload directory starts empty and nothing has happened yet |
| `SpeechToText.Backend.Receive` | backend/src/app.ts:33-46 | no part: nothing changes. A filtered name: nothing is written. Too large: written, then removed. Otherwise the file is stored under the given path |
| `SpeechToText.Backend.HandleStt` | backend/src/app.ts:55-87 | no file: 400 and no change. No key: 500 and the upload stays (the leak). Otherwise one transcription call, then the file is removed, then the reply: `{text}` on success, 500 with the error's details on failure |
| `SpeechToText.Backend.PostStt` | backend/src/app.ts:33-87 | the whole route. The upload is on disk afterwards iff it was stored and no key is set. A transcription call is made only for a stored upload with a key. An upload error gives status 500, after nothing (filtered) or after the part was stored and removed (too large) |
| `SpeechToText.TranscribeTwice` | backend/src/app.ts:55-87 | two accepted uploads with a key set and the same transcript get the same `{text}` reply and leave no file, whatever the two stored paths are |
| `SpeechToText.MissingKeyLeavesUpload` | backend/src/app.ts:57-63 | an accepted upload while `OPENAI_API_KEY` is empty gets 500 and stays on disk |
| `Routes.HasTextIffNonEmptyString` | backend/src/app.ts:91-95 | a body passes the `text` check iff its `text` is a string of at least one character |
| `Routes.IntentRoute` | backend/src/app.ts:89-155 | 400 iff `text` is not a non-empty string. A call is made iff `text` passes and the key is set, and it sends `text` unchanged. 200 iff the chat content is non-empty and parses, and the reply is the parsed value. The missing key gives 500 with only `error: OpenAI API key not configured`. An unparsed (undefined) body, a throwing chat call, an empty or missing content and a parse failure each give 500 with `error: Intent parsing failed` and the thrown value's message as `details` |
| `Routes.TtsRoute` | backend/src/app.ts:236-275 | 400 iff `text` is not a non-empty string. A call is made iff `text` passes and the key is set. 200 iff the speech call gives bytes, answered as `audio/mpeg` with their length. The missing key gives 500 with only `error: OpenAI API key not configured`. An unparsed (undefined) body or a throwing speech call gives 500 with `error: Text-to-speech conversion failed` and the thrown value's message as `details` |
| `Routes.TextRoutesValidateAlike` | backend/src/app.ts:93-99 | `/intent` and `/tts` reject the same bodies with 400, and make no call in the same cases |
| `Routes.IntentRepliesUnchecked` | backend/src/app.ts:141-147 | any parsed intent, with any action and any confidence, is returned as is with 200 |
| `Routes.BlankTextPasses` | backend/src/app.ts:240-242 | a text of blanks passes the check and reaches the speech call |
| `Routes.EmptyTextRejected` | backend/src/app.ts:93-95 | an empty, missing or non-string `text` gives 400 with no call on both routes |
| `Dispatch.StringField` | backend/src/app.ts:176-180 | `intent.title` counts iff it is a non-empty string |
| `Dispatch.MockResults` | backend/src/app.ts:175-182 | the table has exactly the six action keys |
| `Dispatch.MockResult` | backend/src/app.ts:184 | an action in the table gets its own entry (no entry is empty, so `\|\|` never falls back for one); any other action gets the `unknown` sentence |
| `Dispatch.MockSubjectFallbacks` | backend/src/app.ts:176-180 | the title is `title` when it is a non-empty string, else `Untitled`; the query is `title`, else `details`, else `your query` |
| `Dispatch.MockQuotesSubject` | backend/src/app.ts:176-179 | each of the four title sentences contains the title in quotes |
| `Dispatch.MockQuotesQuery` | backend/src/app.ts:180 | the search sentence ends with the query in quotes |
| `Dispatch.MockTitleSentences` | backend/src/app.ts:176-180 | with a non-empty title, each of the five sentences has that title in quotes, e.g. `Task "Buy milk" has been added to your todo list` |
| `Dispatch.MockReply` | backend/src/app.ts:186-191 | the mock reply has exactly `success`, `result`, `intent` and `mock`; `success` is true, `result` is the table sentence, `intent` the request, `mock` true |
| `Dispatch.WebhookReply` | backend/src/app.ts:221-225 | the webhook reply has exactly `success`, `result` and `intent`; `success` is true, `result` the resolved text and `intent` the request |
| `Dispatch.RepliesDifferOnlyInMock` | backend/src/app.ts:186-191 | for the same text the two replies agree on every field but `mock`, which is truthy in mock mode and absent otherwise |
| `Dispatch.UsableAtIffNonBlankString` | backend/src/app.ts:212-216 | a field is used iff it is a string with a non-whitespace character |
| `Dispatch.FirstUsable` | backend/src/app.ts:211-219 | the chosen field is the first one in priority order that holds a non-blank string; none is chosen iff no field qualifies |
| `Dispatch.ResolvedText` | backend/src/app.ts:20-219 | the reply text is never blank. The chain at app.ts:210-219 runs only when the object check at app.ts:20-22 passes; with no usable field the default stays, and the default is not blank. The text is the default or the untrimmed value of one of `result`, `message`, `data` |
| `Dispatch.DefaultTextHasContent` | backend/src/app.ts:210 | the default reply text is not blank |
| `Dispatch.ResolvedTextPriority` | backend/src/app.ts:210-219 | `result` wins over `message`, which wins over `data`. A missing, non-string or blank field is skipped. With none usable, the text is `Task completed successfully` |
| `Dispatch.NonObjectAnswerGivesDefault` | backend/src/app.ts:20-22 | an answer that is not an object gives the default text |
| `Dispatch.MessageFallback` | backend/src/app.ts:210-219 | a non-blank `message` (such as `{message: "done"}`) is the reply text, also after a `result` that is blank or not a string |
| `Dispatch.IsValidIntent` | backend/src/app.ts:161-168 | an intent passes both checks iff it is an object whose `action` is a non-empty string; an array passes the object check and fails the action check |
| `Dispatch.HandleExecute` | backend/src/app.ts:157-234 | a non-object body gives 400. An empty or non-string `action` gives 400. No webhook URL: 200 with the mock sentence and `mock: true`, and no call. With a URL: one POST of the intent. 200 iff the webhook answers with a status in 200-299 and JSON; the reply text comes from the resolver and there is no `mock`. Any other status gives 500 with the status in the details. A throwing fetch, or a 2xx answer whose body is not JSON, gives 500 with `error: Workflow execution failed` and the thrown value's message as `details` |

## Left out

- The OpenAI transcription, chat and speech calls, `fetch` to the webhook,
  `response.json()` and `JSON.parse` are foreign code. Each is a parameter:
  its outcome, or a parser function.
- The system prompt of the chat call is not modelled. The recorded call
  holds the model name, the user's text, the temperature and JSON mode.
- How multer works inside is assumed, not modelled: the filter runs before
  any byte is written, and a part over the limit is removed again.
  `Backend.Receive` states these assumptions.
- Multer's other errors are not modelled, such as a file part under a
  field name other than `audio`. The random file name is a parameter.
- Express, cors, dotenv, `app.listen`, creating `uploads/`, and console
  logging are plumbing. `GET /health` sends a fixed message, so there is
  nothing to prove about it.
- The JSON body parser is not modelled. A route receives the parsed body
  as a value. As a whole body, `JNull` stands for the `undefined` body
  that body-parser 2.x (Express 5) leaves on a request it did not parse;
  destructuring it throws V8's "…as it is undefined." error. Key order in
  reply objects and JSON number formatting are not modelled.
- `Text.Lower`: only A–Z are folded, while JavaScript folds all of Unicode.
  Outside ASCII, no character lower-cases to `.`, a digit, or one of the
  letters of the allowed extensions. So the filter's verdict does not
  change.
- `Dispatch.StringField`: a truthy `title` or `details` that is not a string
  is treated as absent. The source would convert it to a string inside the
  sentence.
- `Dispatch.MockResult`: the table is a closed map of its six keys. An
  action such as `toString` would hit an inherited property in JavaScript.
- An unset `OPENAI_API_KEY` stops the server at start-up: the OpenAI client
  built at app.ts:29-31 refuses an unset key. The handlers' "not
  configured" branches are reachable only with the variable set to the
  empty string. `Config` still allows an unset key, and the handlers treat
  it like the empty string.
- `Upload.AcceptsSize`: the at-limit case follows the multipart parser
  behind multer 1.4.4-lts and 2.x (busboy 1.x), which reports the limit once
  the byte count reaches it. Older multer releases (busboy 0.x) let a file
  of exactly 25 MiB through. Which multer release runs is not part of
  this model.
- Under body-parser 1.x (Express 4) a request with no JSON body arrives as
  `{}`, so `/intent` and `/tts` answer 400 instead of the 500 the model
  gives for `JNull`. The Express version is not fixed by the repository.
- A literal `null` JSON body is refused by the parser's strict mode (only
  `{` or `[` may start the body) with a 400 before any route runs. The
  model does not include that parser reply.
- Requests run one at a time against one `Backend`. Concurrent requests and
  other processes that touch `uploads/` are not modelled.
- The mobile client (`frontend/`) is UI and a thin `fetch` wrapper. It is
  not part of this model.

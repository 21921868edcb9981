/** `POST /intent` and `POST /tts`: check `text`, then the API key, then
    make one upstream call. The call's outcome is a parameter; each route
    returns its reply and the calls it made. */
module Routes {
  import opened JsValues

  const TextRequiredError := "Text input is required"
  const IntentFailedError := "Intent parsing failed"
  const NoResponseMessage := "No response from OpenAI"
  const TtsFailedError := "Text-to-speech conversion failed"

  const IntentModel := "gpt-4o-mini"
  const IntentTemperature: real := 0.1
  const SpeechModel := "tts-1"
  const SpeechVoice := "alloy"
  const SpeechFormat := "mp3"
  const AudioContentType := "audio/mpeg"
  const AudioDisposition := "inline; filename=\"response.mp3\""

  /** What the chat completion call throws, or the content of its first
      choice (None when there is no choice, message or content). */
  datatype ChatOutcome = ChatThrew(error: Thrown) | ChatAnswered(content: Option<string>)

  /** What the speech call and the read of its body throw, or the bytes. */
  datatype SpeechOutcome = SpeechThrew(error: Thrown) | SpeechAudio(bytes: seq<bv8>)

  /** The message of the error V8 throws when destructuring an undefined
      body. */
  function DestructureUndefinedMessage(key: string): string {
    "Cannot destructure property '" + key + "' of 'req.body' as it is undefined."
  }

  /** `const { text } = req.body`: the property, or undefined (None);
      destructuring an unparsed (undefined) body throws. */
  function TextField(body: Json): Result<Option<Json>, Thrown> {
    if body.JNull? then Err(ErrorValue(DestructureUndefinedMessage("text"))) else Ok(Get(body, "text"))
  }

  /** The body passes the `text` check: a parsed body whose `text` is a
      non-empty string. */
  predicate HasText(body: Json) {
    !body.JNull? && IsNonEmptyString(Get(body, "text"))
  }

  /** A body passes exactly when its `text` is a string of at least one
      character; a string of blanks passes. */
  lemma HasTextIffNonEmptyString(body: Json)
    ensures HasText(body) <==> exists s :: s != "" && Get(body, "text") == Some(JStr(s))
  {
    NonEmptyStringIffTruthyString(Get(body, "text"));
  }

  /** The request the route sends to the chat model for a valid body. */
  function ChatRequestFor(body: Json): Call
    requires HasText(body)
  {
    ChatCompletion(IntentModel, Get(body, "text").value.s, IntentTemperature, true)
  }

  /** The request the route sends to the speech model for a valid body. */
  function SpeechRequestFor(body: Json): Call
    requires HasText(body)
  {
    Speech(SpeechModel, SpeechVoice, Get(body, "text").value.s, SpeechFormat)
  }

  /** The chat call answered with content that `parse` (standing for
      `JSON.parse`) accepts. */
  predicate ParsedAnswer(chat: ChatOutcome, parse: string -> Result<Json, Thrown>) {
    chat.ChatAnswered? && chat.content.Some? && chat.content.value != "" &&
    parse(chat.content.value).Ok?
  }

  /** The `/intent` handler. */
  function IntentRoute(cfg: Config, body: Json, chat: ChatOutcome, parse: string -> Result<Json, Thrown>)
    : (h: Handled)
    ensures h.reply.JsonReply? && h.reply.Status() in {200, 400, 500}
    ensures h.reply.Status() == 400 <==> !body.JNull? && !HasText(body)
    ensures h.calls != [] <==> HasText(body) && IsSet(cfg.openAiApiKey)
    ensures h.calls != [] ==> h.calls == [ChatRequestFor(body)]
    ensures h.reply.Status() == 200 <==>
              HasText(body) && IsSet(cfg.openAiApiKey) && ParsedAnswer(chat, parse)
    ensures h.reply.Status() == 200 ==> h.reply.body == parse(chat.content.value).value
    ensures body.JNull? ==>
              h.reply == FailureReply(IntentFailedError, ErrorValue(DestructureUndefinedMessage("text")))
    ensures !body.JNull? && !HasText(body) ==> h.reply == ErrorReply(400, TextRequiredError)
    ensures HasText(body) && !IsSet(cfg.openAiApiKey) ==> h.reply == ErrorReply(500, KeyNotConfigured)
    ensures HasText(body) && IsSet(cfg.openAiApiKey) && chat.ChatThrew? ==>
              h.reply == FailureReply(IntentFailedError, chat.error)
    ensures HasText(body) && IsSet(cfg.openAiApiKey) && chat.ChatAnswered? &&
            (chat.content.None? || chat.content.value == "") ==>
              h.reply == FailureReply(IntentFailedError, ErrorValue(NoResponseMessage))
    ensures HasText(body) && IsSet(cfg.openAiApiKey) && chat.ChatAnswered? &&
            chat.content.Some? && chat.content.value != "" && parse(chat.content.value).Err? ==>
              h.reply == FailureReply(IntentFailedError, parse(chat.content.value).error)
  {
    match TextField(body)
    case Err(t) => Handled(FailureReply(IntentFailedError, t), [])
    case Ok(text) =>
      if !IsNonEmptyString(text) then Handled(ErrorReply(400, TextRequiredError), [])
      else if !IsSet(cfg.openAiApiKey) then Handled(ErrorReply(500, KeyNotConfigured), [])
      else
        var call := ChatCompletion(IntentModel, text.value.s, IntentTemperature, true);
        match chat
        case ChatThrew(t) => Handled(FailureReply(IntentFailedError, t), [call])
        case ChatAnswered(content) =>
          if content.None? || content.value == "" then
            Handled(FailureReply(IntentFailedError, ErrorValue(NoResponseMessage)), [call])
          else
            match parse(content.value)
            case Err(t) => Handled(FailureReply(IntentFailedError, t), [call])
            case Ok(intent) => Handled(JsonReply(200, intent), [call])
  }

  /** The `/tts` handler. */
  function TtsRoute(cfg: Config, body: Json, speech: SpeechOutcome): (h: Handled)
    ensures h.reply.Status() in {200, 400, 500}
    ensures h.reply.Status() == 400 <==> !body.JNull? && !HasText(body)
    ensures h.calls != [] <==> HasText(body) && IsSet(cfg.openAiApiKey)
    ensures h.calls != [] ==> h.calls == [SpeechRequestFor(body)]
    ensures h.reply.Status() == 200 <==>
              HasText(body) && IsSet(cfg.openAiApiKey) && speech.SpeechAudio?
    ensures h.reply.Status() == 200 ==>
              h.reply == AudioReply(200, AudioContentType, |speech.bytes|, AudioDisposition, speech.bytes)
    ensures h.reply.Status() != 200 ==> h.reply.JsonReply?
    ensures body.JNull? ==>
              h.reply == FailureReply(TtsFailedError, ErrorValue(DestructureUndefinedMessage("text")))
    ensures !body.JNull? && !HasText(body) ==> h.reply == ErrorReply(400, TextRequiredError)
    ensures HasText(body) && !IsSet(cfg.openAiApiKey) ==> h.reply == ErrorReply(500, KeyNotConfigured)
    ensures HasText(body) && IsSet(cfg.openAiApiKey) && speech.SpeechThrew? ==>
              h.reply == FailureReply(TtsFailedError, speech.error)
  {
    match TextField(body)
    case Err(t) => Handled(FailureReply(TtsFailedError, t), [])
    case Ok(text) =>
      if !IsNonEmptyString(text) then Handled(ErrorReply(400, TextRequiredError), [])
      else if !IsSet(cfg.openAiApiKey) then Handled(ErrorReply(500, KeyNotConfigured), [])
      else
        var call := Speech(SpeechModel, SpeechVoice, text.value.s, SpeechFormat);
        match speech
        case SpeechThrew(t) => Handled(FailureReply(TtsFailedError, t), [call])
        case SpeechAudio(bytes) =>
          Handled(AudioReply(200, AudioContentType, |bytes|, AudioDisposition, bytes), [call])
  }

  /** The two text routes judge a body alike and fail alike before any
      upstream call: same 400, same missing-key reply. */
  lemma TextRoutesValidateAlike(cfg: Config, body: Json, chat: ChatOutcome,
                                parse: string -> Result<Json, Thrown>, speech: SpeechOutcome)
    ensures var i, t := IntentRoute(cfg, body, chat, parse), TtsRoute(cfg, body, speech);
            (i.reply.Status() == 400 <==> t.reply.Status() == 400) &&
            (i.calls == [] <==> t.calls == []) &&
            (i.calls == [] ==> i.reply.Status() == t.reply.Status()) &&
            (i.calls == [] && !body.JNull? && HasText(body) ==>
               i.reply == t.reply == ErrorReply(500, KeyNotConfigured))
  {
  }

  /** The handler does not check the parsed intent: whatever `JSON.parse`
      returns, with any `action` and any `confidence`, is sent back as is. */
  lemma IntentRepliesUnchecked(cfg: Config, body: Json, content: string, intent: Json,
                               parse: string -> Result<Json, Thrown>)
    requires HasText(body) && IsSet(cfg.openAiApiKey)
    requires content != "" && parse(content) == Ok(intent)
    ensures IntentRoute(cfg, body, ChatAnswered(Some(content)), parse).reply == JsonReply(200, intent)
  {
  }

  /** A text of blanks passes the `text` check: it is not trimmed. */
  lemma BlankTextPasses(cfg: Config, speech: SpeechOutcome)
    requires IsSet(cfg.openAiApiKey)
    ensures TtsRoute(cfg, JObj(map["text" := JStr(" ")]), speech).calls ==
            [Speech(SpeechModel, SpeechVoice, " ", SpeechFormat)]
  {
  }

  /** An empty `text`, a missing one or a non-string one is a 400, before
      the key check and before any call. */
  lemma EmptyTextRejected(cfg: Config, chat: ChatOutcome, parse: string -> Result<Json, Thrown>,
                          speech: SpeechOutcome, body: Json)
    requires body in {JObj(map["text" := JStr("")]), JObj(map[]), JObj(map["text" := JNum(1.0)])}
    ensures IntentRoute(cfg, body, chat, parse) == Handled(ErrorReply(400, TextRequiredError), [])
    ensures TtsRoute(cfg, body, speech) == Handled(ErrorReply(400, TextRequiredError), [])
  {
  }
}

/** `POST /execute`: check the intent, then answer from a fixed table when
    no workflow webhook is configured (mock mode), or forward the intent to
    the webhook and pick the reply text from its answer. */
module Dispatch {
  import opened Text
  import opened JsValues

  const IntentRequiredError := "Intent JSON is required"
  const ActionRequiredError := "Intent action is required"
  const ExecutionFailedError := "Workflow execution failed"
  const DefaultResultText := "Task completed successfully"
  const UnknownSentence := "I'm not sure how to handle that request"
  const Untitled := "Untitled"
  const YourQuery := "your query"

  /** The actions the mock table has a sentence for. */
  const KnownActions: set<string> :=
    {"create_event", "create_task", "send_message", "set_reminder", "search_info", "unknown"}

  /** `intent.key` when it is a non-empty string. */
  function StringField(intent: Json, key: string): (r: Option<string>)
    ensures r.Some? <==> IsNonEmptyString(Get(intent, key))
    ensures r.Some? ==> Get(intent, key) == Some(JStr(r.value)) && r.value != ""
  {
    match Get(intent, key)
    case Some(JStr(s)) => if s != "" then Some(s) else None
    case _ => None
  }

  /** `a || fallback` over optional strings. */
  function OrElse(a: Option<string>, fallback: string): string {
    if a.Some? then a.value else fallback
  }

  /** What a mock sentence names: `intent.title || 'Untitled'`. */
  function TitleOf(intent: Json): string {
    OrElse(StringField(intent, "title"), Untitled)
  }

  /** What the search sentence names: `intent.title || intent.details || 'your query'`. */
  function QueryOf(intent: Json): string {
    OrElse(StringField(intent, "title"), OrElse(StringField(intent, "details"), YourQuery))
  }

  function Quoted(s: string): string {
    "\"" + s + "\""
  }

  /** The `mockResults` table. */
  function MockResults(intent: Json): (m: map<string, string>)
    ensures m.Keys == KnownActions
  {
    map[
      "create_event" := "Event " + Quoted(TitleOf(intent)) + " has been created in your calendar",
      "create_task" := "Task " + Quoted(TitleOf(intent)) + " has been added to your todo list",
      "send_message" := "Message " + Quoted(TitleOf(intent)) + " has been sent",
      "set_reminder" := "Reminder " + Quoted(TitleOf(intent)) + " has been set",
      "search_info" := "Search completed for " + Quoted(QueryOf(intent)),
      "unknown" := UnknownSentence
    ]
  }

  /** `mockResults[action] || mockResults.unknown`: an action outside the
      table gets the `unknown` sentence, and an action in it gets its own
      entry (no entry is empty, so the `||` fallback never replaces one). */
  function MockResult(action: string, intent: Json): (r: string)
    ensures action in MockResults(intent) ==> r == MockResults(intent)[action]
    ensures action !in MockResults(intent) ==> r == UnknownSentence
  {
    var table := MockResults(intent);
    if action in table && table[action] != "" then table[action] else table["unknown"]
  }

  /** The four title entries of the table, around the quoted title. */
  lemma MockTitleEntries(intent: Json, t: string)
    requires t == Quoted(TitleOf(intent))
    ensures MockResults(intent)["create_event"] == "Event " + t + " has been created in your calendar"
    ensures MockResults(intent)["create_task"] == "Task " + t + " has been added to your todo list"
    ensures MockResults(intent)["send_message"] == "Message " + t + " has been sent"
    ensures MockResults(intent)["set_reminder"] == "Reminder " + t + " has been set"
  {
  }

  /** The four title sentences quote the title. */
  lemma MockQuotesSubject(action: string, intent: Json)
    requires action in {"create_event", "create_task", "send_message", "set_reminder"}
    ensures Contains(MockResult(action, intent), Quoted(TitleOf(intent)))
  {
    var t := Quoted(TitleOf(intent));
    MockTitleEntries(intent, t);
    var pre, post;
    if action == "create_event" {
      pre, post := "Event ", " has been created in your calendar";
    } else if action == "create_task" {
      pre, post := "Task ", " has been added to your todo list";
    } else if action == "send_message" {
      pre, post := "Message ", " has been sent";
    } else {
      pre, post := "Reminder ", " has been set";
    }
    assert MockResult(action, intent) == pre + t + post;
    ContainsMiddle(pre, t, post);
  }

  /** The search sentence ends with the quoted query. */
  lemma MockQuotesQuery(intent: Json)
    ensures EndsWith(MockResult("search_info", intent), Quoted(QueryOf(intent)))
  {
    var q := Quoted(QueryOf(intent));
    var pre := "Search completed for ";
    assert MockResult("search_info", intent) == pre + q;
    EndsWithIffConcat(pre + q, q);
  }

  /** The title is `title`, or `Untitled` when it is missing, empty or not
      a string; the query is `title`, else `details`, else `your query`. */
  lemma MockSubjectFallbacks(intent: Json)
    ensures TitleOf(intent) == if IsNonEmptyString(Get(intent, "title")) then Get(intent, "title").value.s else Untitled
    ensures QueryOf(intent) ==
              if IsNonEmptyString(Get(intent, "title")) then Get(intent, "title").value.s
              else if IsNonEmptyString(Get(intent, "details")) then Get(intent, "details").value.s
              else YourQuery
  {
  }


  /** With a non-empty string `title` (`Buy milk`, say), each title
      sentence names it: `create_task` gives `Task "Buy milk" has been added
      to your todo list`. */
  lemma MockTitleSentences(intent: Json, title: string)
    requires Get(intent, "title") == Some(JStr(title)) && title != ""
    ensures MockResult("create_event", intent) == "Event " + Quoted(title) + " has been created in your calendar"
    ensures MockResult("create_task", intent) == "Task " + Quoted(title) + " has been added to your todo list"
    ensures MockResult("send_message", intent) == "Message " + Quoted(title) + " has been sent"
    ensures MockResult("set_reminder", intent) == "Reminder " + Quoted(title) + " has been set"
    ensures MockResult("search_info", intent) == "Search completed for " + Quoted(title)
  {
  }

  /** The reply of mock mode. */
  function MockReply(intent: Json, action: string): (r: Json)
    ensures r.JObj? && r.fields.Keys == {"success", "result", "intent", "mock"}
    ensures Get(r, "success") == Some(JBool(true))
    ensures Get(r, "result") == Some(JStr(MockResult(action, intent)))
    ensures Get(r, "intent") == Some(intent) && Get(r, "mock") == Some(JBool(true))
  {
    JObj(map["success" := JBool(true), "result" := JStr(MockResult(action, intent)),
             "intent" := intent, "mock" := JBool(true)])
  }

  /** The reply of webhook mode: no `mock` property. */
  function WebhookReply(intent: Json, resultText: string): (r: Json)
    ensures r.JObj? && r.fields.Keys == {"success", "result", "intent"}
    ensures Get(r, "success") == Some(JBool(true))
    ensures Get(r, "result") == Some(JStr(resultText)) && Get(r, "intent") == Some(intent)
  {
    JObj(map["success" := JBool(true), "result" := JStr(resultText), "intent" := intent])
  }

  /** The two modes answer alike but for the `mock` flag. */
  lemma RepliesDifferOnlyInMock(intent: Json, action: string)
    ensures MockReply(intent, action).fields - {"mock"} == WebhookReply(intent, MockResult(action, intent)).fields
    ensures Truthy(Get(MockReply(intent, action), "mock"))
    ensures !Truthy(Get(WebhookReply(intent, MockResult(action, intent)), "mock"))
  {
    var m := MockReply(intent, action).fields - {"mock"};
    var w := WebhookReply(intent, MockResult(action, intent)).fields;
    assert m.Keys == w.Keys;
  }

  /** The response fields the resolver tries, highest priority first. */
  const ResultKeys: seq<string> := ["result", "message", "data"]

  /** `typeof v.key === 'string' && v.key.trim()`. */
  predicate UsableAt(v: Json, key: string) {
    Get(v, key).Some? && Get(v, key).value.JStr? && HasContent(Get(v, key).value.s)
  }

  /** A field is usable exactly when it is a string with a non-whitespace
      character. */
  lemma UsableAtIffNonBlankString(v: Json, key: string)
    ensures UsableAt(v, key) <==> v.JObj? && key in v.fields && v.fields[key].JStr? &&
                                  exists i :: 0 <= i < |v.fields[key].s| && !IsJsWhitespace(v.fields[key].s[i])
  {
    if v.JObj? && key in v.fields && v.fields[key].JStr? {
      HasContentIffNotBlank(v.fields[key].s);
    }
  }

  /** The first of `keys` whose property qualifies, and its value. */
  function FirstUsable(v: Json, keys: seq<string>): (r: Option<string>)
    ensures r.None? <==> forall i :: 0 <= i < |keys| ==> !UsableAt(v, keys[i])
    ensures r.Some? ==> exists i :: 0 <= i < |keys| && UsableAt(v, keys[i]) &&
                          Get(v, keys[i]) == Some(JStr(r.value)) &&
                          forall j :: 0 <= j < i ==> !UsableAt(v, keys[j])
    decreases |keys|
  {
    if keys == [] then None
    else if UsableAt(v, keys[0]) then Some(Get(v, keys[0]).value.s)
    else
      var rest := FirstUsable(v, keys[1..]);
      assert forall i :: 1 <= i < |keys| ==> keys[i] == keys[1..][i - 1];
      rest
  }

  /** The reply text taken from the webhook's JSON answer: the first
      qualifying field, untrimmed, or the default text. */
  function ResolvedText(answer: Json): (r: string)
    ensures HasContent(r)
    ensures r == DefaultResultText || exists k :: k in ResultKeys && Get(answer, k) == Some(JStr(r))
  {
    var chosen := if IsObject(answer) then FirstUsable(answer, ResultKeys) else None;
    if chosen.Some? then
      assert exists i :: 0 <= i < |ResultKeys| && Get(answer, ResultKeys[i]) == Some(JStr(chosen.value)) &&
                         UsableAt(answer, ResultKeys[i]);
      chosen.value
    else
      DefaultTextHasContent();
      DefaultResultText
  }

  lemma DefaultTextHasContent()
    ensures HasContent(DefaultResultText)
  {
  }

  /** The tie-break: `result` before `message` before `data`; a field that
      is missing, not a string or blank is skipped. */
  lemma ResolvedTextPriority(answer: Json)
    ensures UsableAt(answer, "result") ==> ResolvedText(answer) == Get(answer, "result").value.s
    ensures !UsableAt(answer, "result") && UsableAt(answer, "message") ==>
              ResolvedText(answer) == Get(answer, "message").value.s
    ensures !UsableAt(answer, "result") && !UsableAt(answer, "message") && UsableAt(answer, "data") ==>
              ResolvedText(answer) == Get(answer, "data").value.s
    ensures !UsableAt(answer, "result") && !UsableAt(answer, "message") && !UsableAt(answer, "data") ==>
              ResolvedText(answer) == DefaultResultText
  {
  }

  /** An answer that is not an object, such as a bare string, gives the
      default text. */
  lemma NonObjectAnswerGivesDefault(answer: Json)
    requires !IsObject(answer)
    ensures ResolvedText(answer) == DefaultResultText
  {
  }

  /** A webhook that answers with a non-blank `message` (`{message:
      "done"}`, say) yields it, also when a `result` that is blank or not a
      string comes first. */
  lemma MessageFallback(text: string, result: Json)
    requires HasContent(text)
    requires !(result.JStr? && HasContent(result.s))
    ensures ResolvedText(JObj(map["message" := JStr(text)])) == text
    ensures ResolvedText(JObj(map["result" := result, "message" := JStr(text)])) == text
  {
    var alone := JObj(map["message" := JStr(text)]);
    assert Get(alone, "message") == Some(JStr(text)) && Get(alone, "result") == None;
    ResolvedTextPriority(alone);
    var both := JObj(map["result" := result, "message" := JStr(text)]);
    assert Get(both, "message") == Some(JStr(text)) && Get(both, "result") == Some(result);
    ResolvedTextPriority(both);
  }

  /** What happens to the forwarded intent: `fetch` throws, or the webhook
      answers with its status and a body that `response.json()` parses or
      fails on. */
  datatype WebhookOutcome =
    | FetchThrew(error: Thrown)
    | WebhookAnswered(status: nat, statusText: string, body: Result<Json, Thrown>)

  /** `response.ok`: the status is in the range 200-299. */
  predicate OkStatus(status: nat) {
    200 <= status <= 299
  }

  /** The error thrown for a non-2xx answer. */
  function WebhookFailedMessage(status: nat, statusText: string): string {
    "n8n webhook failed: " + DecimalString(status) + " " + statusText
  }

  /** `!(!intent || typeof intent !== 'object')` and a non-empty string
      `action`: the checks an intent must pass. An array passes the first
      check and fails the second. */
  function IsValidIntent(intent: Json): (b: bool)
    ensures b <==> intent.JObj? && exists a :: a != "" && Get(intent, "action") == Some(JStr(a))
  {
    IsObject(intent) && IsNonEmptyString(Get(intent, "action"))
  }

  /** The `/execute` handler. */
  method HandleExecute(cfg: Config, intent: Json, webhook: WebhookOutcome) returns (h: Handled)
    ensures h.reply.JsonReply?
    ensures !IsObject(intent) ==> h == Handled(ErrorReply(400, IntentRequiredError), [])
    ensures IsObject(intent) && !IsValidIntent(intent) ==> h == Handled(ErrorReply(400, ActionRequiredError), [])
    ensures IsValidIntent(intent) && !IsSet(cfg.n8nWebhookUrl) ==>
              h == Handled(JsonReply(200, MockReply(intent, Get(intent, "action").value.s)), [])
    ensures IsValidIntent(intent) && IsSet(cfg.n8nWebhookUrl) ==>
              h.calls == [WebhookPost(cfg.n8nWebhookUrl.value, intent)]
    ensures IsValidIntent(intent) && IsSet(cfg.n8nWebhookUrl) ==>
              (h.reply.Status() == 200 <==>
                 webhook.WebhookAnswered? && 200 <= webhook.status <= 299 && webhook.body.Ok?)
    ensures IsValidIntent(intent) && IsSet(cfg.n8nWebhookUrl) && h.reply.Status() == 200 ==>
              h.reply.body == WebhookReply(intent, ResolvedText(webhook.body.value))
    ensures IsValidIntent(intent) && IsSet(cfg.n8nWebhookUrl) && webhook.WebhookAnswered? && !(200 <= webhook.status <= 299) ==>
              h.reply == FailureReply(ExecutionFailedError,
                                      ErrorValue(WebhookFailedMessage(webhook.status, webhook.statusText)))
    ensures IsValidIntent(intent) && IsSet(cfg.n8nWebhookUrl) && webhook.FetchThrew? ==>
              h.reply == FailureReply(ExecutionFailedError, webhook.error)
    ensures IsValidIntent(intent) && IsSet(cfg.n8nWebhookUrl) && webhook.WebhookAnswered? &&
            200 <= webhook.status <= 299 && webhook.body.Err? ==>
              h.reply == FailureReply(ExecutionFailedError, webhook.body.error)
    ensures h.reply.Status() in {200, 400, 500}
  {
    if !IsObject(intent) {
      return Handled(ErrorReply(400, IntentRequiredError), []);
    }
    var action := Get(intent, "action");
    if !IsNonEmptyString(action) {
      return Handled(ErrorReply(400, ActionRequiredError), []);
    }
    if !IsSet(cfg.n8nWebhookUrl) {
      return Handled(JsonReply(200, MockReply(intent, action.value.s)), []);
    }
    var calls := [WebhookPost(cfg.n8nWebhookUrl.value, intent)];
    if webhook.FetchThrew? {
      return Handled(FailureReply(ExecutionFailedError, webhook.error), calls);
    }
    if !OkStatus(webhook.status) {
      var message := WebhookFailedMessage(webhook.status, webhook.statusText);
      return Handled(FailureReply(ExecutionFailedError, ErrorValue(message)), calls);
    }
    if webhook.body.Err? {
      return Handled(FailureReply(ExecutionFailedError, webhook.body.error), calls);
    }
    var answer := webhook.body.value;
    var resultText := DefaultResultText;
    if IsObject(answer) {
      if UsableAt(answer, "result") {
        resultText := Get(answer, "result").value.s;
      } else if UsableAt(answer, "message") {
        resultText := Get(answer, "message").value.s;
      } else if UsableAt(answer, "data") {
        resultText := Get(answer, "data").value.s;
      }
    }
    ResolvedTextPriority(answer);
    h := Handled(JsonReply(200, WebhookReply(intent, resultText)), calls);
  }
}

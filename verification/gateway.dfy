/** The model gateway of `src/services/api.js`: model descriptors derived from the remote
    model list, the fallback to the built-in models, the classification done by
    `testAPIConfig`, the configuration update, and the "always answers with a message"
    policy of `callModelAPI`.

    Every HTTP exchange is an input value. A JavaScript exception that the source catches
    (a rejected `fetch`, a body that is not JSON, a property read on a value of the wrong
    shape) is a variant carrying the exception's `message`. */
module Gateway {
  import opened Basics
  import opened Text
  import opened Messages

  /** The active endpoint: base URL and bearer key. */
  datatype Config = Config(baseUrl: string, apiKey: string)

  /** `{id, name, type}` as shown in the model pickers. */
  datatype ModelDescriptor = ModelDescriptor(id: string, name: string, kind: string)

  const ModelKind := "model"

  /** The three models used whenever the remote list cannot be had. */
  const DefaultModels: seq<ModelDescriptor> := [
    ModelDescriptor("qwen-turbo", "通义千问-Turbo", ModelKind),
    ModelDescriptor("llama2-7b", "Llama2-7B", ModelKind),
    ModelDescriptor("chatglm-turbo", "ChatGLM-Turbo", ModelKind)
  ]

  const NetworkFailureText := "网络请求失败"
  const FormatErrorText := "API返回的数据格式不正确"
  const ListFailedPrefix := "获取模型列表失败: "
  const ApiErrorPrefix := "API错误: "
  const CallFailedPrefix := "调用模型 "
  const CallFailedInfix := " 时出错: "

  // ---------------------------------------------------------------------------
  // Model descriptors
  // ---------------------------------------------------------------------------

  /** The last element of `id.split('/')`: the longest suffix of `id` that holds no slash. */
  function PathTail(id: string): (tail: string)
    ensures |tail| <= |id| && tail == id[|id| - |tail|..]
    ensures '/' !in tail
    ensures |tail| < |id| ==> id[|id| - |tail| - 1] == '/'
    decreases |id|
  {
    if |id| == 0 || id[|id| - 1] == '/' then []
    else PathTail(id[..|id| - 1]) + [id[|id| - 1]]
  }

  /** `id.split('/').pop() || id`: the part after the last slash, or the whole id when
      that part is empty. */
  function DisplayName(id: string): (name: string)
    ensures '/' !in id ==> name == id
    ensures |id| > 0 && id[|id| - 1] == '/' ==> name == id
    ensures |id| > 0 && '/' in id && id[|id| - 1] != '/' ==>
      && 0 < |name| < |id| && '/' !in name
      && name == id[|id| - |name|..]
      && id[|id| - |name| - 1] == '/'
  {
    OrElse(PathTail(id), id)
  }

  /** The descriptor `testAPIConfig` builds for one listed id. */
  function Describe(id: string): (d: ModelDescriptor)
    ensures d.id == id && d.kind == ModelKind
    ensures d.name == DisplayName(id)
    ensures '/' !in id ==> d.name == id
  {
    ModelDescriptor(id, DisplayName(id), ModelKind)
  }

  /** One element of the `data` array of `GET {baseUrl}/models`. `BadEntry` is an element
      on which `model.id.split` throws (no string id), with that exception's message. */
  datatype RemoteEntry = Entry(id: string) | BadEntry(error: string)

  /** What `response.json()` yields for a successful model-list request. `NoData` is a
      body whose `data` field is missing or falsy (including a `null` body). */
  datatype ListBody = ListUnreadable(error: string) | NoData | Data(entries: seq<RemoteEntry>)

  /** The outcome of `fetch(`${baseUrl}/models`)`. */
  datatype ListResponse =
    | ListFetchFailed(error: string)
    | ListNotOk(statusText: string)
    | ListOk(body: ListBody)

  predicate WellFormedEntries(entries: seq<RemoteEntry>) {
    forall i :: 0 <= i < |entries| ==> entries[i].Entry?
  }

  /** `data.data.map(model => ({id, name, type: "model"}))`: one descriptor per entry, in
      order, or the exception thrown by the first entry without a string id. */
  function DescribeAll(entries: seq<RemoteEntry>): (r: Result<seq<ModelDescriptor>, string>)
    ensures r.Ok? <==> WellFormedEntries(entries)
    ensures r.Ok? ==>
      && |r.value| == |entries|
      && forall i :: 0 <= i < |entries| ==>
           entries[i].Entry? && r.value[i] == Describe(entries[i].id)
    ensures r.Err? ==> exists i :: FirstBadAt(entries, i, r.error)
  {
    if WellFormedEntries(entries) then
      Ok(seq(|entries|, i requires 0 <= i < |entries| => Describe(entries[i].id)))
    else
      Err(FirstBadError(entries))
  }

  /** The message of the exception `map` stops at: the first entry without a string id. */
  function FirstBadError(entries: seq<RemoteEntry>): (error: string)
    requires !WellFormedEntries(entries)
    ensures exists i :: FirstBadAt(entries, i, error)
  {
    if entries[0].BadEntry? then
      assert FirstBadAt(entries, 0, entries[0].error);
      entries[0].error
    else
      assert !WellFormedEntries(entries[1..]) by {
        var i :| 0 <= i < |entries| && !entries[i].Entry?;
        assert entries[1..][i - 1] == entries[i];
      }
      var error := FirstBadError(entries[1..]);
      ghost var i :| FirstBadAt(entries[1..], i, error);
      FirstBadShifts(entries, i, error);
      error
  }

  /** `entries[i]` is the first entry without a string id, and it throws `error`. */
  predicate FirstBadAt(entries: seq<RemoteEntry>, i: int, error: string) {
    && 0 <= i < |entries| && entries[i] == BadEntry(error)
    && forall j :: 0 <= j < i ==> entries[j].Entry?
  }

  lemma FirstBadShifts(entries: seq<RemoteEntry>, i: int, error: string)
    requires |entries| > 0 && entries[0].Entry?
    requires FirstBadAt(entries[1..], i, error)
    ensures FirstBadAt(entries, i + 1, error)
  {
    forall j | 0 < j < i + 1 ensures entries[j].Entry? {
      assert entries[j] == entries[1..][j - 1];
    }
  }

  // ---------------------------------------------------------------------------
  // testAPIConfig and fetchAvailableModels
  // ---------------------------------------------------------------------------

  /** The result object of `testAPIConfig`: `{success: true, models}` or
      `{success: false, message}`. */
  datatype TestResult = Valid(models: seq<ModelDescriptor>) | Invalid(message: string)

  /** `error.message || "网络请求失败"` in the catch clause of `testAPIConfig`. */
  function CaughtMessage(error: string): (message: string)
    ensures error != [] ==> message == error
    ensures error == [] ==> message == NetworkFailureText
    ensures message != []
  {
    OrElse(error, NetworkFailureText)
  }

  /** `testAPIConfig(baseUrl, apiKey)` given the response to the candidate's model-list
      request. It succeeds exactly when the body carries a `data` list of well-formed
      entries, and then lists their descriptors. A caught exception (failed request,
      unreadable body, malformed entry) gives its message, or "网络请求失败" when that is
      empty, so a failure always has a non-empty message. */
  function TestConfig(response: ListResponse): (r: TestResult)
    ensures r.Valid? <==> response.ListOk? && response.body.Data? && WellFormedEntries(response.body.entries)
    ensures r.Valid? ==>
      && |r.models| == |response.body.entries|
      && forall i :: 0 <= i < |r.models| ==>
           r.models[i].id == response.body.entries[i].id && r.models[i] == Describe(r.models[i].id)
    ensures r.Invalid? ==> r.message != []
    ensures response.ListNotOk? ==> r == Invalid(ListFailedPrefix + response.statusText)
    ensures response == ListOk(NoData) ==> r == Invalid(FormatErrorText)
    ensures response.ListFetchFailed? ==> r == Invalid(CaughtMessage(response.error))
    ensures response.ListOk? && response.body.ListUnreadable? ==> r == Invalid(CaughtMessage(response.body.error))
    ensures response.ListOk? && response.body.Data? && !WellFormedEntries(response.body.entries) ==>
      r == Invalid(CaughtMessage(FirstBadError(response.body.entries)))
  {
    match response
    case ListFetchFailed(e) => Invalid(CaughtMessage(e))
    case ListNotOk(statusText) => Invalid(ListFailedPrefix + statusText)
    case ListOk(ListUnreadable(e)) => Invalid(CaughtMessage(e))
    case ListOk(NoData) => Invalid(FormatErrorText)
    case ListOk(Data(entries)) =>
      match DescribeAll(entries)
      case Ok(models) => Valid(models)
      case Err(e) => Invalid(CaughtMessage(e))
  }

  /** `fetchAvailableModels()` given the response to the active configuration's model-list
      request: the described remote list when it is non-empty, the three default models
      in every other case (failed request, non-ok status, unreadable body, no `data`,
      an empty list, a malformed entry). It agrees with `TestConfig` on the same response
      and is never empty. */
  function FetchModels(response: ListResponse): (models: seq<ModelDescriptor>)
    ensures |models| > 0
    ensures forall i :: 0 <= i < |models| ==> models[i].kind == ModelKind
    ensures var tested := TestConfig(response);
      models == if tested.Valid? && |tested.models| > 0 then tested.models else DefaultModels
  {
    match response
    case ListOk(Data(entries)) =>
      (match DescribeAll(entries)
       case Ok(described) => if |described| > 0 then described else DefaultModels
       case Err(_) => DefaultModels)
    case _ => DefaultModels
  }

  // ---------------------------------------------------------------------------
  // Gateway state: updateAPIConfig
  // ---------------------------------------------------------------------------

  /** The module-level state of the gateway: the active configuration (also what is kept
      in local storage) and the cached model list. */
  datatype GatewayState = GatewayState(config: Config, models: seq<ModelDescriptor>)

  /** The state when the page loads: the stored configuration and the default models. */
  function InitialGateway(stored: Config): (g: GatewayState)
    ensures g.config == stored && g.models == DefaultModels
  {
    GatewayState(stored, DefaultModels)
  }

  /** `fetchAvailableModels()` as a state change: the cached list is replaced by what the
      ACTIVE configuration's endpoint lists; the configuration is untouched. */
  function RefreshModels(g: GatewayState, listing: Config -> ListResponse): (r: GatewayState)
    ensures r.config == g.config
    ensures |r.models| > 0
    ensures r.models == FetchModels(listing(g.config))
  {
    g.(models := FetchModels(listing(g.config)))
  }

  /** `updateAPIConfig(baseUrl, apiKey)`: the active configuration becomes exactly the
      arguments, and the model list is then refreshed from the NEW endpoint, whatever the
      previous state was. */
  function UpdateConfig(baseUrl: string, apiKey: string, listing: Config -> ListResponse): (g: GatewayState)
    ensures g.config == Config(baseUrl, apiKey)
    ensures |g.models| > 0
    ensures g.models == FetchModels(listing(Config(baseUrl, apiKey)))
  {
    RefreshModels(GatewayState(Config(baseUrl, apiKey), []), listing)
  }

  // ---------------------------------------------------------------------------
  // callModelAPI
  // ---------------------------------------------------------------------------

  /** `JSON.parse(errorText)` on the body of a failed completion request. `JsonNull` is a
      body of `null`, on which `errorData.error` throws and the source falls back as for
      text that is not JSON. `JsonValue` carries `errorData.error?.message` when it is
      truthy, and the empty string when it is absent or falsy. */
  datatype ErrorJson = NotJson | JsonNull | JsonValue(errorMessage: string)

  /** What `response.json()` yields for a successful completion request. `NoChoices` is a
      body whose `choices` field is missing or falsy. A `null` body is `CompletionUnreadable`
      with the message of the `TypeError` that reading `data.choices` throws. Each element
      of `Choices` is the `message` of that choice, `None` when the choice or its message is
      missing. */
  datatype CompletionBody =
    | CompletionUnreadable(error: string)
    | NoChoices
    | Choices(choices: seq<Option<Message>>)

  /** The outcome of `POST {baseUrl}/chat/completions`. */
  datatype ChatResponse =
    | ChatFetchFailed(error: string)
    | ChatNotOk(statusText: string, body: string, parsed: ErrorJson)
    | ChatOk(completion: CompletionBody)

  /** The request body sent for one slot (`enable_thinking` is always false). */
  datatype ChatRequest = ChatRequest(model: string, messages: seq<Message>, temperature: real, maxTokens: int)

  /** The human-readable reason for a non-ok completion response: the JSON error message
      when the body is JSON with a non-empty one, otherwise the raw body when the body is
      not JSON, and the status text when the preferred source is empty. */
  function ErrorReason(statusText: string, body: string, parsed: ErrorJson): (reason: string)
    ensures parsed.JsonValue? && parsed.errorMessage != [] ==> reason == parsed.errorMessage
    ensures parsed.JsonValue? && parsed.errorMessage == [] ==> reason == statusText
    ensures !parsed.JsonValue? && body != [] ==> reason == body
    ensures !parsed.JsonValue? && body == [] ==> reason == statusText
    ensures reason == [] ==> statusText == []
  {
    match parsed
    case JsonValue(errorMessage) => OrElse(errorMessage, statusText)
    case _ => OrElse(body, statusText)
  }

  /** The body of `callModelAPI`'s `try`: the first choice's message, or the message of the
      error it throws. */
  function Complete(response: ChatResponse): (r: Result<Message, string>)
    ensures r.Ok? <==>
      && response.ChatOk? && response.completion.Choices?
      && |response.completion.choices| > 0 && response.completion.choices[0].Some?
    ensures r.Ok? ==> r.value == response.completion.choices[0].value
    ensures response.ChatNotOk? ==>
      r == Err(ApiErrorPrefix + ErrorReason(response.statusText, response.body, response.parsed))
    ensures response.ChatOk? && !response.completion.CompletionUnreadable? && r.Err? ==>
      r.error == FormatErrorText
    ensures response.ChatFetchFailed? ==> r == Err(response.error)
    ensures response.ChatOk? && response.completion.CompletionUnreadable? ==> r == Err(response.completion.error)
  {
    match response
    case ChatFetchFailed(e) => Err(e)
    case ChatNotOk(statusText, body, parsed) => Err(ApiErrorPrefix + ErrorReason(statusText, body, parsed))
    case ChatOk(CompletionUnreadable(e)) => Err(e)
    case ChatOk(NoChoices) => Err(FormatErrorText)
    case ChatOk(Choices(choices)) =>
      if |choices| == 0 || choices[0].None? then Err(FormatErrorText)
      else Ok(choices[0].value)
  }

  /** `callModelAPI(modelId, ...)` given the response to its request. It never fails: a
      success yields the first choice's message, and every failure yields an assistant
      message naming the model and carrying the error's message. */
  function CallModel(modelId: string, response: ChatResponse): (reply: Message)
    ensures Complete(response).Ok? ==> reply == Complete(response).value
    ensures Complete(response).Err? ==>
      reply == Message(Assistant, CallFailedPrefix + modelId + CallFailedInfix + Complete(response).error)
  {
    match Complete(response)
    case Ok(message) => message
    case Err(error) => Message(Assistant, CallFailedPrefix + modelId + CallFailedInfix + error)
  }

  /** A failed completion shows up as an assistant turn whose text names the model at a
      fixed position and ends with the reason. */
  lemma FailedCallNamesModel(modelId: string, response: ChatResponse)
    requires Complete(response).Err?
    ensures var reply := CallModel(modelId, response);
      && reply.role == Assistant
      && |reply.content| >= |CallFailedPrefix| + |modelId| + |CallFailedInfix|
      && reply.content[|CallFailedPrefix|..|CallFailedPrefix| + |modelId|] == modelId
      && reply.content[|CallFailedPrefix| + |modelId| + |CallFailedInfix|..] == Complete(response).error
  {
    var reply := CallModel(modelId, response);
    assert reply.content == CallFailedPrefix + modelId + CallFailedInfix + Complete(response).error;
  }
}
